/** What an invalid credential means to requests: once Discord has answered an ordinary request of a client by a 401, no
    request that comes to the client later is ever sent.
 */
module Lockout {
  import opened Base
  import opened Protocol
  import opened ProxyMachine
  import opened Theorems
  import Structure
  import Credential
  import GateTable
  import SingleFlight
  import Pacer
  import RateLimit

  /** The request has sent nothing and has not been let past the validity check. */
  predicate Outside(q: Request) {
    q.t.attempts == 0 &&
    match q.pc
    case Own(_, stage) =>
      || stage.Fresh? || stage.ValEnter? || stage.ValAcquired? || stage.ValRecheck? || stage.ValDrop?
      || stage.ValidityGate? || stage.Exiting?
    case Uncounting(_, next) => !next.Again?
    case Unlocking(_, next) => !next.Again?
    case _ => true
  }

  // ----- one client -----

  lemma LocalOutside(cfg: Config, c: Client, now: int, q: Request, pc: PC)
    requires Outside(q) && LocalStep(cfg, c, now, q, pc) && c.validity == Invalid
    ensures Outside(LocalNext(q, pc, now))
  {
    hide KnownDelay, TooLate, Pacer.CanGrant;
  }

  lemma GateOutside(q: Request)
    requires Outside(q)
    ensures Outside(OnGot(q)) && Outside(OnFail(q)) && Outside(AfterDrop(q))
  {
  }

  lemma LookOutside(q: Request, target: Option<nat>)
    requires Outside(q) && (q.pc.Start? || q.pc.Rechecking?)
    ensures Outside(AfterLook(q, target))
  {
  }

  lemma MovedOutside(cfg: Config, c: Client, now: int, l: Label, q: Request, n: Request)
    requires Structure.Moved(c, now, l, q, n) && Outside(q) && c.validity == Invalid
    requires l.Local? ==> LocalStep(cfg, c, now, q, l.pc)
    requires l.Look? ==> q.pc.Start? || q.pc.Rechecking?
    ensures Outside(n)
  {
    hide LocalStep, LocalNext, OnGot, OnFail, AfterDrop, AfterLook, LookTarget, RateLimit.Observe;
    if l.Local? {
      LocalOutside(cfg, c, now, q, l.pc);
    } else if l.Look? {
      LookOutside(q, LookTarget(c, q.spec.route, l.granted));
    } else {
      GateOutside(q);
    }
  }

  lemma MoverOutside(cfg: Config, c: Client, now: int, l: Label, r: RequestId)
    requires Enabled(cfg, c, now, l) && Structure.Moves(l) && c.validity == Invalid && r in c.reqs && Outside(c.reqs[r])
    ensures r in Apply(cfg, c, now, l).reqs && Outside(Apply(cfg, c, now, l).reqs[r])
  {
    hide Apply, Structure.Moved, LocalStep, Outside, Wants, Drops;
    Structure.MoveFrame(cfg, c, now, l);
    Structure.MoveRequest(cfg, c, now, l);
    if l.r == r {
      MovedOutside(cfg, c, now, l, c.reqs[r], Structure.Mover(cfg, c, now, l));
    }
  }

  ghost predicate KeptOut(c: Client, r: RequestId) {
    r in c.reqs ==> Outside(c.reqs[r])
  }

  /** While the client is invalid, a request that is outside stays there, and a new one starts there. */
  lemma StepKeptOut(cfg: Config, c: Client, now: int, l: Label, r: RequestId)
    requires Enabled(cfg, c, now, l) && c.validity == Invalid && KeptOut(c, r)
    ensures KeptOut(Apply(cfg, c, now, l), r)
  {
    if Structure.Moves(l) {
      hide Enabled, Apply, Outside;
      Structure.MoveFrame(cfg, c, now, l);
      if r in c.reqs {
        MoverOutside(cfg, c, now, l, r);
      } else {
        assert r != l.r;
      }
    } else {
      hide LocalStep, Wants, Drops, DoLook, DoLearn, DoEnter, DoCount, DoUncount, DoMark, DoSend, DoBlockGlobal,
        DoBlockBucket, DoVerdict, GateTable.Release, LocalNext, OnGot, OnFail, AfterDrop;
    }
  }

  lemma OutsideNeverSends(cfg: Config, c: Client, now: int, r: RequestId)
    requires KeptOut(c, r)
    ensures !Enabled(cfg, c, now, Send(r))
  {
  }

  // ----- the whole proxy -----

  lemma EventKeptOut(s: Settings, p: Proxy, e: Event, i: nat, r: RequestId)
    requires Possible(s, p, e) && i < |p.objs| && p.objs[i].client.validity == Invalid && KeptOut(p.objs[i].client, r)
    ensures i < |After(s, p, e).objs| && KeptOut(After(s, p, e).objs[i].client, r)
  {
    hide Enabled, Apply, Charge, Record, Answered, BucketsQuiet, Pacer.New, Outside;
    if e.Step? && e.i == i {
      StepKeptOut(s.proto, p.objs[i].client, p.now, e.l, r);
    } else if e.Admit? && p.states[e.id] == i {
      StepKeptOut(s.proto, p.objs[i].client, p.now, Begin(e.r, e.route, e.major, e.interaction, e.at), r);
    }
  }

  lemma {:induction false} AlwaysKeptOut(s: Settings, run: Run, j: nat, k: nat, i: nat, r: RequestId)
    requires IsRun(s, run) && j <= k < |run.states| && i < |run.states[j].objs|
    requires run.states[j].objs[i].client.validity == Invalid && KeptOut(run.states[j].objs[i].client, r)
    ensures i < |run.states[k].objs| && run.states[k].objs[i].client.validity == Invalid
    ensures KeptOut(run.states[k].objs[i].client, r)
    decreases k - j
  {
    hide Possible, After, Initial, KeptOut;
    ValidityMonotone(s, run, j, k, i);
    if j < k {
      AlwaysKeptOut(s, run, j, k - 1, i, r);
      EventKeptOut(s, run.states[k - 1], run.events[k - 1], i, r);
    }
  }

  /** In every run: once a client is invalid, no request that comes to it later is sent. */
  lemma InvalidSendsNothing(s: Settings, run: Run, j: nat, k: nat, i: nat, r: RequestId)
    requires IsRun(s, run) && j <= k < |run.events| && k < |run.states| && i < |run.states[j].objs|
    requires run.states[j].objs[i].client.validity == Invalid && r !in run.states[j].objs[i].client.reqs
    ensures run.events[k] != Step(i, Send(r))
  {
    hide After, Initial, Answered, Enabled, KeptOut;
    AlwaysKeptOut(s, run, j, k, i, r) by { NotThere(run.states[j].objs[i].client, r); }
    OutsideNeverSends(s.proto, run.states[k].objs[i].client, run.states[k].now, r);
    assert Possible(s, run.states[k], run.events[k]);
  }

  lemma NotThere(c: Client, r: RequestId)
    requires r !in c.reqs
    ensures KeptOut(c, r)
  {
  }

  // ----- what makes a client invalid -----

  /** A client takes note of a 401 that one of its ordinary requests got for the credential it came with. */
  ghost predicate Unauthorized(s: Settings, p: Proxy, e: Event, i: nat) {
    && e.Step? && e.i == i < |p.objs| && e.l.Mark? && AtStage(p.objs[i].client, e.l.r)
    && var q := p.objs[i].client.reqs[e.l.r];
       && q.pc.stage.Got? && q.pc.stage.response.status == 401 && !q.spec.interaction
       && !p.objs[i].client.anonymous && !s.proto.disable401Lock
  }

  /** A verdict that makes the client invalid finds it invalid already. */
  lemma VerdictInvalid(s: Settings, c: Client, r: RequestId)
    requires Credential.Credentials(s.proto, c) && AtStage(c, r) && c.reqs[r].pc.stage.Learned? && c.reqs[r].validating
    ensures DoVerdict(s.proto, c, r).validity == Invalid ==> c.validity == Invalid
  {
    assert Credential.RequestOk(s.proto, c.validity, c.reqs[r]);
  }

  lemma OtherInvalid(s: Settings, c: Client, now: int, l: Label)
    requires Enabled(s.proto, c, now, l) && !l.Mark? && !l.Verdict?
    ensures Apply(s.proto, c, now, l).validity == c.validity
  {
    if Structure.Moves(l) {
      hide Enabled, Apply;
      Structure.MoveFrame(s.proto, c, now, l);
    } else {
      hide LocalStep, Wants, Drops, DoLook, DoLearn, DoEnter, DoCount, DoUncount, DoMark, DoSend, DoBlockGlobal,
        DoBlockBucket, DoVerdict, GateTable.Release, LocalNext, OnGot, OnFail, AfterDrop;
    }
  }

  lemma StepInvalid(s: Settings, c: Client, now: int, l: Label)
    requires Credential.Inv(s.proto, c) && Enabled(s.proto, c, now, l)
    ensures c.validity != Invalid && Apply(s.proto, c, now, l).validity == Invalid ==>
              && l.Mark? && AtStage(c, l.r) && c.reqs[l.r].pc.stage.Got? && c.reqs[l.r].pc.stage.response.status == 401
              && !c.reqs[l.r].spec.interaction && !c.anonymous && !s.proto.disable401Lock
  {
    hide LocalStep, Wants, Drops, Structure.Inv, Credential.Credentials, RateLimit.Observe, DoVerdict;
    if l.Verdict? {
      VerdictInvalid(s, c, l.r);
    } else if !l.Mark? {
      hide Apply, Enabled;
      OtherInvalid(s, c, now, l);
    }
  }

  lemma EventInvalid(s: Settings, p: Proxy, e: Event, i: nat)
    requires ClientsOk(s, p) && Possible(s, p, e) && i < |After(s, p, e).objs|
    requires After(s, p, e).objs[i].client.validity == Invalid
    ensures i < |p.objs| && (p.objs[i].client.validity == Invalid || Unauthorized(s, p, e, i))
  {
    hide Enabled, Apply, Charge, Record, Answered, BucketsQuiet, Pacer.New, SingleFlight.Inv, Credential.Inv, Pacer.Inv;
    if e.Step? && e.i == i {
      assert ClientOk(s, p.objs[i].client, p.now);
      StepInvalid(s, p.objs[i].client, p.now, e.l);
    } else if e.Admit? && p.states[e.id] == i {
      assert ClientOk(s, p.objs[i].client, p.now);
      StepInvalid(s, p.objs[i].client, p.now, Begin(e.r, e.route, e.major, e.interaction, e.at));
    }
  }

  /** In every run, a client is invalid only after such a 401. So it never is while the lock is disabled. */
  lemma {:induction false} InvalidWasEarned(s: Settings, run: Run, k: nat, i: nat) returns (j: nat)
    requires IsRun(s, run) && k < |run.states| && i < |run.states[k].objs|
    requires run.states[k].objs[i].client.validity == Invalid
    ensures j < k && j < |run.events| && Unauthorized(s, run.states[j], run.events[j], i)
    decreases k
  {
    hide Possible, After, Initial, ClientsOk, Registered, Conserved, Bounded, EvictorOk, Unauthorized;
    if k == 0 {
      StartsValid(s, run.states[0].now, i);
    } else {
      Always(s, run, k - 1);
      EventInvalid(s, run.states[k - 1], run.events[k - 1], i);
      if run.states[k - 1].objs[i].client.validity == Invalid {
        j := InvalidWasEarned(s, run, k - 1, i);
      } else {
        j := k - 1;
      }
    }
  }

  lemma StartsValid(s: Settings, now: int, i: nat)
    requires i < |Initial(s, now).objs|
    ensures Initial(s, now).objs[i].client.validity == Valid
  {
    hide Pacer.New;
  }

  lemma MarkedInvalid(s: Settings, p: Proxy, e: Event, i: nat)
    requires Possible(s, p, e) && Unauthorized(s, p, e, i)
    ensures i < |After(s, p, e).objs| && After(s, p, e).objs[i].client.validity == Invalid
    ensures After(s, p, e).objs[i].client.reqs.Keys == p.objs[i].client.reqs.Keys
  {
    hide Charge, Record, Answered, RateLimit.Observe;
  }

  /** In every run: once a client has taken note of a 401, no request that comes to it later is sent. */
  lemma UnauthorizedLocksOut(s: Settings, run: Run, j: nat, k: nat, i: nat, r: RequestId)
    requires IsRun(s, run) && j < k < |run.events| && |run.states| == |run.events| + 1
    requires Unauthorized(s, run.states[j], run.events[j], i) && r !in run.states[j].objs[i].client.reqs
    ensures run.events[k] != Step(i, Send(r))
  {
    hide Possible, After, Initial, Unauthorized;
    assert i < |run.states[j].objs| by { UnauthorizedHere(s, run.states[j], run.events[j], i); }
    assert Possible(s, run.states[j], run.events[j]) && run.states[j + 1] == After(s, run.states[j], run.events[j]);
    MarkedInvalid(s, run.states[j], run.events[j], i);
    InvalidSendsNothing(s, run, j + 1, k, i, r);
  }

  lemma UnauthorizedHere(s: Settings, p: Proxy, e: Event, i: nat)
    requires Unauthorized(s, p, e, i)
    ensures i < |p.objs|
  {
  }
}
