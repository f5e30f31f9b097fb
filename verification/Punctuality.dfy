/** How old requests get when they raise the global cooldown or are granted a permit. The queue timeout bounds it, up to
    the delays between the steps of one request.

So whether an eviction can lose a cooldown or break the pace can be read off the configuration.
 */
module Punctuality {
  import opened Base
  import opened Protocol
  import opened ProxyMachine
  import opened Theorems
  import GlobalCooldown
  import Paced = IdentityPacing
  import Structure
  import GateTable
  import Pacer
  import RateLimit

  /** Past the check of a context, and not yet past the step that it guards. */
  predicate Guarded(pc: PC) {
    pc.Own? && (pc.stage.PaceTry? || pc.stage.Got? || pc.stage.Marked?)
  }

  /** The deadline of a request is at most `span` after its admission, and whoever has passed a check passed it before
      the deadline. */
  predicate Dated(q: Request, span: int) {
    q.t.deadline <= q.spec.began + span && (Guarded(q.pc) ==> q.t.checked < q.t.deadline)
  }

  ghost predicate AllDated(c: Client, span: int) {
    forall r :: r in c.reqs ==> Dated(c.reqs[r], span)
  }

  /** The request opens its queue context at most `opening` after its admission, and acts on the outcome of a check at
      most `reaction` later. */
  predicate Prompt(c: Client, now: int, l: Label, opening: nat, reaction: nat) {
    && (l.Open? && l.r in c.reqs ==> now - c.reqs[l.r].spec.began <= opening)
    && ((l.BlockGlobal? || l.Pace?) && l.r in c.reqs ==> now - c.reqs[l.r].t.checked <= reaction)
  }

  // ----- one client -----

  lemma LocalDated(cfg: Config, c: Client, now: int, q: Request, pc: PC, span: int)
    requires Dated(q, span) && LocalStep(cfg, c, now, q, pc)
    ensures Dated(LocalNext(q, pc, now), span)
  {
    hide KnownDelay, TooLate, Pacer.CanGrant;
  }

  lemma MovedDated(c: Client, now: int, l: Label, q: Request, n: Request, span: int)
    requires Dated(q, span) && Structure.Moved(c, now, l, q, n) && !l.Local?
    requires l.Open? ==> l.deadline <= q.spec.began + span
    ensures Dated(n, span)
  {
    hide LocalNext, LookTarget, RateLimit.Observe;
  }

  lemma MoveDated(cfg: Config, c: Client, now: int, l: Label, opening: nat, reaction: nat)
    requires AllDated(c, opening + cfg.queueTimeout) && Enabled(cfg, c, now, l) && Structure.Moves(l)
    requires Prompt(c, now, l, opening, reaction)
    ensures AllDated(Apply(cfg, c, now, l), opening + cfg.queueTimeout)
  {
    hide Apply, Structure.Moved, LocalNext, LocalStep, Dated, Wants, Drops;
    Structure.MoveFrame(cfg, c, now, l);
    Structure.MoveRequest(cfg, c, now, l);
    var q, n := c.reqs[l.r], Structure.Mover(cfg, c, now, l);
    if l.Local? {
      assert n == LocalNext(q, l.pc, now) by { MovedLocally(c, now, l, q, n); }
      LocalDated(cfg, c, now, q, l.pc, opening + cfg.queueTimeout);
    } else {
      MovedDated(c, now, l, q, n, opening + cfg.queueTimeout);
    }
  }

  lemma MovedLocally(c: Client, now: int, l: Label, q: Request, n: Request)
    requires Structure.Moved(c, now, l, q, n) && l.Local?
    ensures n == LocalNext(q, l.pc, now)
  {
  }

  lemma StepDated(cfg: Config, c: Client, now: int, l: Label, opening: nat, reaction: nat)
    requires AllDated(c, opening + cfg.queueTimeout) && Enabled(cfg, c, now, l) && cfg.queueTimeout > 0
    requires Prompt(c, now, l, opening, reaction)
    ensures AllDated(Apply(cfg, c, now, l), opening + cfg.queueTimeout)
  {
    if Structure.Moves(l) {
      MoveDated(cfg, c, now, l, opening, reaction);
    } else {
      hide LocalStep, Wants, Drops, DoLook, DoLearn, DoEnter, DoCount, DoUncount, DoMark, DoSend, DoBlockGlobal,
        DoBlockBucket, DoVerdict, GateTable.Release, LocalNext, OnGot, OnFail, AfterDrop;
    }
  }

  /** The age at which a request raises the cooldown or is granted a permit. */
  lemma AgeBound(cfg: Config, c: Client, now: int, l: Label, opening: nat, reaction: nat)
    requires AllDated(c, opening + cfg.queueTimeout) && Enabled(cfg, c, now, l) && (l.BlockGlobal? || l.Pace?)
    requires Prompt(c, now, l, opening, reaction)
    ensures now - c.reqs[l.r].spec.began <= opening + cfg.queueTimeout + reaction
  {
    hide LocalStep, Wants, Drops;
    assert Dated(c.reqs[l.r], opening + cfg.queueTimeout);
  }

  // ----- the whole proxy -----

  ghost predicate Inv(p: Proxy, span: int) {
    forall i :: 0 <= i < |p.objs| ==> AllDated(p.objs[i].client, span)
  }

  predicate PromptEvent(p: Proxy, e: Event, opening: nat, reaction: nat) {
    e.Step? && e.i < |p.objs| ==> Prompt(p.objs[e.i].client, p.now, e.l, opening, reaction)
  }

  /** Every request opens its queue context at most `opening` after its admission, and acts on the outcome of a check at
      most `reaction` later. */
  ghost predicate Punctual(run: Run, opening: nat, reaction: nat) {
    |run.states| == |run.events| + 1 &&
    forall k :: 0 <= k < |run.events| ==> PromptEvent(run.states[k], run.events[k], opening, reaction)
  }

  lemma StepInv(s: Settings, p: Proxy, i: nat, l: Label, opening: nat, reaction: nat)
    requires Inv(p, opening + s.proto.queueTimeout) && i < |p.objs| && Accepted(s)
    requires Enabled(s.proto, p.objs[i].client, p.now, l) && Prompt(p.objs[i].client, p.now, l, opening, reaction)
    ensures Inv(DoStep(s, p, i, l), opening + s.proto.queueTimeout)
  {
    hide Apply, Enabled, Charge, Record, AllDated, Prompt;
    StepDated(s.proto, p.objs[i].client, p.now, l, opening, reaction);
  }

  lemma EventInv(s: Settings, p: Proxy, e: Event, opening: nat, reaction: nat)
    requires Inv(p, opening + s.proto.queueTimeout) && Possible(s, p, e) && Accepted(s)
    requires PromptEvent(p, e, opening, reaction)
    ensures Inv(After(s, p, e), opening + s.proto.queueTimeout)
  {
    hide Enabled, DoStep, Answered, BucketsQuiet, Pacer.New;
    match e
    case Admit(id, r, route, major, interaction, at) =>
      StepInv(s, p, p.states[id], Begin(r, route, major, interaction, at), opening, reaction);
    case Step(i, l) => StepInv(s, p, i, l, opening, reaction);
    case _ =>
  }

  lemma InitialInv(s: Settings, now: int, span: int)
    ensures Inv(Initial(s, now), span)
  {
    hide Pacer.New;
  }

  lemma {:induction false} AlwaysInv(s: Settings, run: Run, k: nat, opening: nat, reaction: nat)
    requires IsRun(s, run) && Punctual(run, opening, reaction) && Accepted(s) && k < |run.states|
    ensures Inv(run.states[k], opening + s.proto.queueTimeout)
  {
    hide Possible, After, Initial, Inv, PromptEvent;
    if k == 0 {
      InitialInv(s, run.states[0].now, opening + s.proto.queueTimeout);
    } else {
      AlwaysInv(s, run, k - 1, opening, reaction);
      EventInv(s, run.states[k - 1], run.events[k - 1], opening, reaction);
    }
  }

  lemma EventAge(s: Settings, p: Proxy, e: Event, opening: nat, reaction: nat)
    requires Inv(p, opening + s.proto.queueTimeout) && Possible(s, p, e) && PromptEvent(p, e, opening, reaction)
    ensures GlobalCooldown.Prompt(p, e, opening + s.proto.queueTimeout + reaction)
    ensures Paced.Prompt(p, e, opening + s.proto.queueTimeout + reaction)
  {
    hide Enabled, Answered, AllDated, Prompt;
    if e.Step? && (e.l.BlockGlobal? || e.l.Pace?) {
      AgeBound(s.proto, p.objs[e.i].client, p.now, e.l, opening, reaction);
    }
  }

  /** In every run whose requests are punctual, no request raises the cooldown or is granted a permit at an age beyond
      the queue timeout plus the two delays. */
  lemma AgesBounded(s: Settings, run: Run, opening: nat, reaction: nat)
    requires IsRun(s, run) && Punctual(run, opening, reaction) && Accepted(s)
    ensures GlobalCooldown.PromptBlocks(run, opening + s.proto.queueTimeout + reaction)
    ensures Paced.PromptGrants(run, opening + s.proto.queueTimeout + reaction)
  {
    hide Possible, After, Initial, Inv, PromptEvent, GlobalCooldown.Prompt, Paced.Prompt, Accepted;
    forall k | 0 <= k < |run.events|
      ensures GlobalCooldown.Prompt(run.states[k], run.events[k], opening + s.proto.queueTimeout + reaction)
      ensures Paced.Prompt(run.states[k], run.events[k], opening + s.proto.queueTimeout + reaction)
    {
      AlwaysInv(s, run, k, opening, reaction);
      EventAge(s, run.states[k], run.events[k], opening, reaction);
    }
  }

  // ----- what the configuration decides -----

  /** With a queue timeout that, together with all delays, is within the idle timeout, no global cooldown is lost. */
  lemma QueueTimeoutKeepsCooldown(s: Settings, run: Run, j: nat, k: nat, id: Identity, until: int,
                                  opening: nat, reaction: nat, stale: nat)
    requires IsRun(s, run) && Accepted(s) && Punctual(run, opening, reaction) && GlobalCooldown.PromptStores(run, stale)
    requires opening + s.proto.queueTimeout + reaction + stale <= IDLE_TIMEOUT && j < k < |run.events|
    requires GlobalCooldown.BlocksAll(s, run.states[j], run.events[j], id, until)
    requires GlobalCooldown.Paces(s, run.states[k], run.events[k], id)
    ensures run.states[k].now >= until
  {
    hide IsRun, Punctual, GlobalCooldown.PromptStores, GlobalCooldown.PromptBlocks, GlobalCooldown.BlocksAll,
      GlobalCooldown.Paces, Paced.PromptGrants;
    AgesBounded(s, run, opening, reaction);
    GlobalCooldown.GlobalCooldownNeverLost(s, run, j, k, id, until, opening + s.proto.queueTimeout + reaction, stale);
  }

  /** With a queue timeout that, together with all delays, is a second below the idle timeout, no identity exceeds its
      global limit. */
  lemma QueueTimeoutKeepsPace(s: Settings, run: Run, k: nat, id: Identity, from: int,
                              opening: nat, reaction: nat, stale: nat)
    requires IsRun(s, run) && Accepted(s) && Punctual(run, opening, reaction) && GlobalCooldown.PromptStores(run, stale)
    requires opening + s.proto.queueTimeout + reaction + stale <= Paced.GRANT_AGE && k < |run.states|
    ensures |Paced.InSecond(run.states[k], id, from)| <= Paced.Limit(s, id)
  {
    hide IsRun, Punctual, GlobalCooldown.PromptStores, GlobalCooldown.PromptBlocks, Paced.PromptGrants, Paced.InSecond;
    AgesBounded(s, run, opening, reaction);
    Paced.IdentityPacedAlways(s, run, k, id, from, opening + s.proto.queueTimeout + reaction, stale);
  }
}
