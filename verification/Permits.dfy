/** Every ordinary attempt is sent on a global permit of its own; interactions take none.

`Theorems` and `IdentityPacing` bound the permits that are granted. Here they are tied to what is sent.
 */
module Permits {
  import opened Base
  import opened Protocol
  import opened ProxyMachine
  import opened Theorems
  import Paced = IdentityPacing
  import Structure
  import GateTable
  import Pacer
  import RateLimit

  /** An ordinary request that has been granted a permit and has yet to use it. */
  predicate Holding(q: Request) {
    !q.spec.interaction && q.pc.Own? && (q.pc.stage == PaceDrop(true) || q.pc.stage.Ready?)
  }

  /** A request that waits for a permit or has one. */
  predicate Pacing(pc: PC) {
    pc.Own? && (pc.stage.PaceEnter? || pc.stage.PaceAcquired? || pc.stage.PaceLoop? || pc.stage.PaceTry? ||
                pc.stage.PaceDrop?)
  }

  ghost function Holders(c: Client): set<RequestId> {
    set r | r in c.reqs && Holding(c.reqs[r])
  }

  // ----- one client -----

  lemma LocalHolding(cfg: Config, c: Client, now: int, q: Request, pc: PC)
    requires LocalStep(cfg, c, now, q, pc)
    ensures !Holding(LocalNext(q, pc, now))
    ensures Pacing(LocalNext(q, pc, now).pc) && !Pacing(q.pc) ==> !q.spec.interaction
  {
    hide KnownDelay, TooLate, Pacer.CanGrant;
  }

  lemma GateHolding(q: Request)
    ensures Wants(q).Some? ==> !Holding(OnGot(q)) && !Holding(OnFail(q))
    ensures Drops(q).Some? ==> (Holding(AfterDrop(q)) ==> Holding(q))
    ensures Pacing(OnGot(q).pc) || Pacing(OnFail(q).pc) || Pacing(AfterDrop(q).pc) ==> Pacing(q.pc)
  {
  }

  lemma LookHolding(q: Request, target: Option<nat>)
    requires q.pc.Start? || q.pc.Rechecking?
    ensures !Holding(AfterLook(q, target)) && !Pacing(AfterLook(q, target).pc)
  {
  }

  /** A request comes to hold a permit only by being granted one, and gives it up by sending. */
  lemma MovedHolding(cfg: Config, c: Client, now: int, l: Label, q: Request, n: Request)
    requires Structure.Moved(c, now, l, q, n)
    requires l.Local? ==> LocalStep(cfg, c, now, q, l.pc)
    requires l.Look? ==> q.pc.Start? || q.pc.Rechecking?
    requires l.Enter? || l.Wake? || l.Cancel? ==> Wants(q).Some?
    requires l.Drop? ==> Drops(q).Some?
    ensures n.spec == q.spec
    ensures Holding(n) ==> l.Pace? || (Holding(q) && !l.Send?)
    ensures Pacing(n.pc) ==> Pacing(q.pc) || !q.spec.interaction
  {
    hide LocalStep, LocalNext, OnGot, OnFail, AfterDrop, AfterLook, LookTarget, RateLimit.Observe, Wants, Drops;
    if l.Local? {
      LocalHolding(cfg, c, now, q, l.pc);
      SpecKept(q, l.pc, now);
    } else if l.Look? {
      LookHolding(q, LookTarget(c, q.spec.route, l.granted));
    } else {
      GateHolding(q);
    }
  }

  lemma SpecKept(q: Request, pc: PC, now: int)
    ensures LocalNext(q, pc, now).spec == q.spec && LocalNext(q, pc, now).pc == pc
  {
  }

  lemma MoverHolding(cfg: Config, c: Client, now: int, l: Label)
    requires Enabled(cfg, c, now, l) && Structure.Moves(l)
    ensures var d := Apply(cfg, c, now, l);
            && l.r in c.reqs && l.r in d.reqs && d.reqs == c.reqs[l.r := d.reqs[l.r]]
            && (Holding(d.reqs[l.r]) ==> l.Pace? || (Holding(c.reqs[l.r]) && !l.Send?))
            && d.reqs[l.r].spec == c.reqs[l.r].spec
            && (Pacing(d.reqs[l.r].pc) ==> Pacing(c.reqs[l.r].pc) || !c.reqs[l.r].spec.interaction)
  {
    hide Apply, Structure.Moved, LocalStep, Wants, Drops;
    Structure.MoveFrame(cfg, c, now, l);
    Structure.MoveRequest(cfg, c, now, l);
    MovedHolding(cfg, c, now, l, c.reqs[l.r], Structure.Mover(cfg, c, now, l));
  }

  lemma OtherReqs(cfg: Config, c: Client, now: int, l: Label)
    requires Enabled(cfg, c, now, l) && !Structure.Moves(l)
    ensures var d := Apply(cfg, c, now, l);
            d.reqs == match l
                      case Begin(r, _, _, _, _) => c.reqs[r := d.reqs[r]]
                      case End(r) => c.reqs - {r}
                      case _ => c.reqs
    ensures l.Begin? ==> Apply(cfg, c, now, l).reqs[l.r].pc == Admitted
  {
    hide LocalStep, Wants, Drops, DoLook, DoLearn, DoEnter, DoCount, DoUncount, DoMark, DoSend, DoBlockGlobal,
      DoBlockBucket, DoVerdict, GateTable.Release, LocalNext, OnGot, OnFail, AfterDrop;
  }

  /** The same of any request and any step. */
  lemma StepHolding(cfg: Config, c: Client, now: int, l: Label, r: RequestId)
    requires Enabled(cfg, c, now, l) && r in Apply(cfg, c, now, l).reqs && Holding(Apply(cfg, c, now, l).reqs[r])
    ensures l == Pace(r) || (r in c.reqs && Holding(c.reqs[r]) && l != Send(r))
  {
    hide Enabled, Apply;
    if Structure.Moves(l) {
      MoverHolding(cfg, c, now, l);
    } else {
      OtherReqs(cfg, c, now, l);
    }
  }

  // ----- what was sent, and on which permit -----

  /** The event sends an ordinary request of object `i`. */
  predicate SendsOrdinary(p: Proxy, e: Event, i: nat) {
    && e.Step? && e.i == i < |p.objs| && e.l.Send? && e.l.r in p.objs[i].client.reqs
    && !p.objs[i].client.reqs[e.l.r].spec.interaction
  }

  lemma EventHolding(s: Settings, p: Proxy, e: Event, i: nat, r: RequestId)
    requires Possible(s, p, e) && i < |After(s, p, e).objs| && r in After(s, p, e).objs[i].client.reqs
    requires Holding(After(s, p, e).objs[i].client.reqs[r])
    ensures e == Step(i, Pace(r)) ||
            (i < |p.objs| && r in p.objs[i].client.reqs && Holding(p.objs[i].client.reqs[r]) && e != Step(i, Send(r)))
  {
    hide Enabled, Apply, Charge, Record, Answered, BucketsQuiet, Pacer.New, Holding;
    if e.Step? && e.i == i {
      StepHolding(s.proto, p.objs[i].client, p.now, e.l, r);
    } else if e.Admit? && p.states[e.id] == i {
      StepHolding(s.proto, p.objs[i].client, p.now, Begin(e.r, e.route, e.major, e.interaction, e.at), r);
    }
  }

  lemma NoRequestsYet(s: Settings, now: int, i: nat)
    requires i < |Initial(s, now).objs|
    ensures Initial(s, now).objs[i].client.reqs == map[]
  {
    hide Pacer.New;
  }

  lemma {:induction false} PermitOf(s: Settings, run: Run, k: nat, i: nat, r: RequestId) returns (j: nat)
    requires IsRun(s, run) && k < |run.states| && i < |run.states[k].objs| && r in run.states[k].objs[i].client.reqs
    requires Holding(run.states[k].objs[i].client.reqs[r])
    ensures j < k && j < |run.events| && run.events[j] == Step(i, Pace(r))
    ensures forall m :: j < m < k && m < |run.events| ==> run.events[m] != Step(i, Send(r))
    decreases k
  {
    hide Possible, After, Initial, Holding;
    if k == 0 {
      NoRequestsYet(s, run.states[0].now, i);
    } else {
      EventHolding(s, run.states[k - 1], run.events[k - 1], i, r);
      if run.events[k - 1] == Step(i, Pace(r)) {
        j := k - 1;
      } else {
        j := PermitOf(s, run, k - 1, i, r);
      }
    }
  }

  /** In every run, an ordinary request is sent only after it was granted a global permit, and on no permit twice. */
  lemma EverySendHasItsPermit(s: Settings, run: Run, k: nat, i: nat, r: RequestId) returns (j: nat)
    requires IsRun(s, run) && k < |run.events| && k < |run.states| && run.events[k] == Step(i, Send(r))
    requires SendsOrdinary(run.states[k], run.events[k], i)
    ensures j < k && run.events[j] == Step(i, Pace(r))
    ensures forall m :: j < m < k ==> run.events[m] != Step(i, Send(r))
  {
    hide After, Initial, Answered;
    assert Possible(s, run.states[k], run.events[k]);
    assert Holding(run.states[k].objs[i].client.reqs[r]);
    j := PermitOf(s, run, k, i, r);
  }

  // ----- counting -----

  /** How often the first `k` events send an ordinary request of object `i`. */
  ghost function Sent(run: Run, k: nat, i: nat): nat
    requires k <= |run.events| && |run.events| < |run.states|
  {
    if k == 0 then 0 else Sent(run, k - 1, i) + if SendsOrdinary(run.states[k - 1], run.events[k - 1], i) then 1 else 0
  }

  lemma PaceHolders(cfg: Config, c: Client, now: int, l: Label)
    requires Enabled(cfg, c, now, l)
    ensures Holders(Apply(cfg, c, now, l)) <= Holders(c) + if l.Pace? then {l.r} else {}
    ensures l.Send? ==> l.r !in Holders(Apply(cfg, c, now, l))
  {
    hide Enabled, Apply, Holding;
    var d := Apply(cfg, c, now, l);
    forall r | r in Holders(d)
      ensures r in Holders(c) + if l.Pace? then {l.r} else {}
      ensures l.Send? ==> r != l.r
    {
      StepHolding(cfg, c, now, l, r);
    }
  }

  lemma SenderHolds(cfg: Config, c: Client, now: int, r: RequestId)
    requires Enabled(cfg, c, now, Send(r)) && !c.reqs[r].spec.interaction
    ensures r in Holders(c)
  {
  }

  /** What a step does to the permits granted, less those held and those used up by this step. */
  lemma StepCount(cfg: Config, c: Client, now: int, l: Label)
    requires Enabled(cfg, c, now, l)
    ensures var d := Apply(cfg, c, now, l);
            |d.pacer.grants| - |Holders(d)| - (if l.Send? && !c.reqs[l.r].spec.interaction then 1 else 0)
            >= |c.pacer.grants| - |Holders(c)|
  {
    hide Apply, Enabled, Holders;
    var d := Apply(cfg, c, now, l);
    Paced.StepGrants(cfg, c, now, l);
    PaceHolders(cfg, c, now, l);
    if l.Send? {
      assert l.r in c.reqs by { SenderIsThere(cfg, c, now, l.r); }
      if !c.reqs[l.r].spec.interaction {
        SenderHolds(cfg, c, now, l.r);
        SubsetSize(Holders(d), Holders(c) - {l.r});
      } else {
        SubsetSize(Holders(d), Holders(c));
      }
    } else if l.Pace? {
      SubsetSize(Holders(d), Holders(c) + {l.r});
    } else {
      SubsetSize(Holders(d), Holders(c));
    }
  }

  lemma SenderIsThere(cfg: Config, c: Client, now: int, r: RequestId)
    requires Enabled(cfg, c, now, Send(r))
    ensures r in c.reqs
  {
  }

  lemma EventCount(s: Settings, p: Proxy, e: Event, i: nat)
    requires Possible(s, p, e) && i < |p.objs|
    ensures i < |After(s, p, e).objs|
    ensures var c, d := p.objs[i].client, After(s, p, e).objs[i].client;
            |d.pacer.grants| - |Holders(d)| - (if SendsOrdinary(p, e, i) then 1 else 0)
            >= |c.pacer.grants| - |Holders(c)|
  {
    hide Enabled, Apply, Charge, Record, Answered, BucketsQuiet, NewClient, Holding;
    if e.Step? && e.i == i {
      StepCount(s.proto, p.objs[i].client, p.now, e.l);
      if e.l.Send? {
        SenderIsThere(s.proto, p.objs[i].client, p.now, e.l.r);
      }
    } else if e.Admit? && p.states[e.id] == i {
      StepCount(s.proto, p.objs[i].client, p.now, Begin(e.r, e.route, e.major, e.interaction, e.at));
    } else {
      assert Holders(After(s, p, e).objs[i].client) == Holders(p.objs[i].client);
    }
  }

  lemma NewHoldsNothing(s: Settings, p: Proxy, e: Event, i: nat)
    requires Possible(s, p, e) && |p.objs| <= i < |After(s, p, e).objs|
    ensures After(s, p, e).objs[i].client.reqs == map[]
  {
    hide Enabled, Apply, Charge, Record, Answered, BucketsQuiet, Pacer.New;
  }

  lemma {:induction false} NoneSentBefore(s: Settings, run: Run, k: nat, i: nat)
    requires IsRun(s, run) && k < |run.states| && |run.states| == |run.events| + 1 && i >= |run.states[k].objs|
    ensures Sent(run, k, i) == 0
  {
    hide Possible, After, Initial;
    if k > 0 {
      ObjectsStay(s, run.states[k - 1], run.events[k - 1]);
      NoneSentBefore(s, run, k - 1, i);
    }
  }

  lemma ObjectsStay(s: Settings, p: Proxy, e: Event)
    requires Possible(s, p, e)
    ensures |p.objs| <= |After(s, p, e).objs|
  {
    hide Enabled, Apply, Charge, Record, Answered, BucketsQuiet, NewClient;
  }

  lemma {:induction false} SentAndHeld(s: Settings, run: Run, k: nat, i: nat)
    requires IsRun(s, run) && k < |run.states| && |run.states| == |run.events| + 1 && i < |run.states[k].objs|
    ensures Sent(run, k, i) + |Holders(run.states[k].objs[i].client)| <= |Paced.Grants(run.states[k], i)|
  {
    hide Possible, After, Initial, SendsOrdinary, Holding;
    if k == 0 {
      NoRequestsYet(s, run.states[0].now, i);
      assert Holders(run.states[0].objs[i].client) == {};
    } else {
      var p, e := run.states[k - 1], run.events[k - 1];
      if i < |p.objs| {
        SentAndHeld(s, run, k - 1, i);
        EventCount(s, p, e, i);
      } else {
        NoneSentBefore(s, run, k - 1, i);
        NewHoldsNothing(s, p, e, i);
        assert Holders(run.states[k].objs[i].client) == {};
        assert !SendsOrdinary(p, e, i) by { NotOfThat(p, e, i); }
      }
    }
  }

  lemma NotOfThat(p: Proxy, e: Event, i: nat)
    requires i >= |p.objs|
    ensures !SendsOrdinary(p, e, i)
  {
  }

  /** In every run, no client has sent more ordinary attempts than it was granted global permits. */
  lemma SendsWithinPermits(s: Settings, run: Run, k: nat, i: nat)
    requires IsRun(s, run) && k < |run.states| && |run.states| == |run.events| + 1 && i < |run.states[k].objs|
    ensures Sent(run, k, i) <= |Paced.Grants(run.states[k], i)|
  {
    SentAndHeld(s, run, k, i);
  }

  // ----- interactions -----

  ghost predicate Exempt(c: Client) {
    forall r :: r in c.reqs && Pacing(c.reqs[r].pc) ==> !c.reqs[r].spec.interaction
  }

  lemma StepExempt(cfg: Config, c: Client, now: int, l: Label)
    requires Enabled(cfg, c, now, l) && Exempt(c)
    ensures Exempt(Apply(cfg, c, now, l))
  {
    hide Enabled, Apply, Pacing;
    if Structure.Moves(l) {
      MoverHolding(cfg, c, now, l);
    } else {
      OtherReqs(cfg, c, now, l);
      assert !Pacing(Admitted) by { NotYetPacing(); }
    }
  }

  lemma NotYetPacing()
    ensures !Pacing(Admitted)
  {
  }

  lemma EventExempt(s: Settings, p: Proxy, e: Event)
    requires Possible(s, p, e) && forall i :: 0 <= i < |p.objs| ==> Exempt(p.objs[i].client)
    ensures forall i :: 0 <= i < |After(s, p, e).objs| ==> Exempt(After(s, p, e).objs[i].client)
  {
    hide Enabled, Apply, Charge, Record, Answered, BucketsQuiet, Pacer.New, Pacing;
    match e
    case Step(i, l) => StepExempt(s.proto, p.objs[i].client, p.now, l);
    case Admit(id, r, route, major, interaction, at) =>
      StepExempt(s.proto, p.objs[p.states[id]].client, p.now, Begin(r, route, major, interaction, at));
    case _ =>
  }

  lemma {:induction false} AlwaysExempt(s: Settings, run: Run, k: nat, i: nat)
    requires IsRun(s, run) && k < |run.states| && i < |run.states[k].objs|
    ensures Exempt(run.states[k].objs[i].client)
    decreases k
  {
    hide Possible, After, Initial, Exempt;
    if k == 0 {
      NoRequestsYet(s, run.states[0].now, i);
      assert Exempt(run.states[0].objs[i].client) by { NoneExempt(run.states[0].objs[i].client); }
    } else {
      var p := run.states[k - 1];
      forall j | 0 <= j < |p.objs|
        ensures Exempt(p.objs[j].client)
      {
        AlwaysExempt(s, run, k - 1, j);
      }
      EventExempt(s, p, run.events[k - 1]);
    }
  }

  lemma NoneExempt(c: Client)
    requires c.reqs == map[]
    ensures Exempt(c)
  {
  }

  /** In every run, no interaction takes a global permit. */
  lemma InteractionsTakeNoPermit(s: Settings, run: Run, k: nat, i: nat, r: RequestId)
    requires IsRun(s, run) && k < |run.events| && k < |run.states| && run.events[k] == Step(i, Pace(r))
    ensures i < |run.states[k].objs| && r in run.states[k].objs[i].client.reqs
    ensures !run.states[k].objs[i].client.reqs[r].spec.interaction
  {
    hide After, Initial, Answered;
    assert Possible(s, run.states[k], run.events[k]);
    AlwaysExempt(s, run, k, i);
  }
}
