/** Deadlock freedom: gates are waited for in the order bucket, validation, pacer. */
module Deadlock {
  import opened Base
  import opened GateTable
  import opened Protocol
  import Structure
  import Pacer
  import RateLimit

  function Level(g: GateId): nat {
    match g
    case BucketGate(_) => 0
    case ValidationGate => 1
    case PacerGate => 2
  }

  predicate InQueue(c: Client, r: RequestId) {
    r in c.table.agents && c.table.agents[r].wait.Queued?
  }

  /** `r` sits in the queue of a gate whose permit `s` has, or was handed without having noticed. */
  ghost predicate WaitsFor(c: Client, r: RequestId, s: RequestId) {
    InQueue(c, r) && s in c.table.agents && Owns(c.table.agents[s], c.table.agents[r].wait.gate)
  }

  function Rank(c: Client, r: RequestId): nat {
    if InQueue(c, r) then Level(c.table.agents[r].wait.gate) else 3
  }

  /** Whoever wants a gate holds only gates that come earlier in the order; nobody wants a bucket gate while holding
      anything. */
  lemma WantsInOrder(q: Request, n: nat)
    requires Structure.Shaped(q, n) && Wants(q).Some?
    ensures forall h :: h in HoldsOf(q) ==> Level(h) < Level(Wants(q).value)
    ensures Wants(q).value.BucketGate? ==> HoldsOf(q) == {}
  {
  }

  lemma WaitClimbs(c: Client, r: RequestId, s: RequestId)
    requires Structure.Inv(c) && WaitsFor(c, r, s)
    ensures Rank(c, r) < Rank(c, s)
  {
    hide GateTable.Inv, HoldsOf, Wants, Structure.Counters, Structure.Gates, Structure.Shaped;
    assert r in c.reqs && s in c.reqs;
    if InQueue(c, s) {
      Structure.LinkOf(c, s);
      WantsInOrder(c.reqs[s], |c.pool|);
    }
  }

  /** Every queue has somebody in front of it who owns the permit. */
  lemma QueueHasOwner(c: Client, r: RequestId) returns (s: RequestId)
    requires Structure.Inv(c) && InQueue(c, r)
    ensures s in c.reqs && WaitsFor(c, r, s)
  {
    hide Structure.Counters, Structure.Pointers, Structure.Shaped, Structure.Linked;
    var g := c.table.agents[r].wait.gate;
    assert g in c.table.gates && r in c.table.gates[g].waiters;
    s := c.table.owner[g];
    assert Owns(c.table.agents[s], g);
  }

  ghost predicate WaitPath(c: Client, p: seq<RequestId>) {
    forall i :: 0 < i < |p| ==> WaitsFor(c, p[i - 1], p[i])
  }

  lemma {:induction false} PathClimbs(c: Client, p: seq<RequestId>, i: nat, j: nat)
    requires Structure.Inv(c) && WaitPath(c, p) && i <= j < |p|
    ensures Rank(c, p[i]) + (j - i) <= Rank(c, p[j])
    decreases j - i
  {
    hide Structure.Inv, Rank, WaitsFor;
    if i < j {
      PathClimbs(c, p, i, j - 1);
      WaitClimbs(c, p[j - 1], p[j]);
    }
  }

  lemma RankBound(c: Client, r: RequestId)
    ensures Rank(c, r) <= 3
  {
  }

  /** The wait-for graph has no cycle: every path in it is simple and has at most four requests. */
  lemma NoCycle(c: Client, p: seq<RequestId>)
    requires Structure.Inv(c) && WaitPath(c, p)
    ensures |p| <= 4
    ensures forall i, j :: 0 <= i < j < |p| ==> p[i] != p[j]
  {
    hide Structure.Inv, Rank, WaitPath;
    if |p| > 0 {
      PathClimbs(c, p, 0, |p| - 1);
      RankBound(c, p[|p| - 1]);
    }
    forall i, j | 0 <= i < j < |p|
      ensures p[i] != p[j]
    {
      PathClimbs(c, p, i, j);
    }
  }

  /** Following the owners from any request leads in at most three hops to one that sits in no queue. */
  lemma {:induction false} LeadsToRunnable(c: Client, r: RequestId) returns (p: seq<RequestId>)
    requires Structure.Inv(c) && r in c.reqs
    ensures 1 <= |p| <= 4 && p[0] == r && WaitPath(c, p)
    ensures p[|p| - 1] in c.reqs && !InQueue(c, p[|p| - 1])
    decreases 3 - Rank(c, r)
  {
    hide Structure.Inv, Rank, WaitsFor;
    RankBound(c, r);
    if InQueue(c, r) {
      var s := QueueHasOwner(c, r);
      WaitClimbs(c, r, s);
      RankBound(c, s);
      var rest := LeadsToRunnable(c, s);
      p := [r] + rest;
      assert WaitPath(c, p);
      NoCycle(c, p);
    } else {
      p := [r];
    }
  }

  // ----- a request outside the queues can take its next step -----

  /** The step the program takes next when nothing fails: what its next statement is. `granted` is the budget's answer
      if it is asked. */
  function NextStage(cfg: Config, c: Client, now: int, r: RequestId, q: Request, b: nat, s: Stage, granted: bool): Label
    requires b < |c.pool|
  {
    match s
    case Fresh => Local(r, Own(b, if !q.spec.interaction && c.validity == Unknown then ValEnter else ValidityGate))
    case ValAcquired => Local(r, Own(b, ValRecheck))
    case ValRecheck => Local(r, Own(b, if c.validity != Unknown then ValDrop(true) else ValidityGate))
    case ValidityGate => Local(r, Own(b, if c.validity == Invalid then Exiting else LoopTop))
    case LoopTop => Local(r, Own(b, if TooLate(cfg, q, KnownDelay(c, q, b, now), now) then Exiting else WaitCtx))
    case WaitCtx => Local(r, Own(b, if now < q.t.deadline then WaitRead else Exiting))
    case WaitRead => Local(r, Own(b, WaitEval(c.pool[b].readyAt)))
    case WaitEval(seen) =>
      Local(r, Own(b, if seen > now then if TooLate(cfg, q, seen - now, now) then Exiting else WaitCtx
                      else if q.spec.interaction then Ready else PaceEnter))
    case PaceAcquired => Local(r, Own(b, PaceLoop))
    case PaceLoop => Local(r, Own(b, if now < q.t.deadline then PaceTry else PaceDrop(false)))
    case PaceTry =>
      if Pacer.CanGrant(c.pacer, now) then Pace(r)
      else Local(r, Own(b, if TooLate(cfg, q, c.pacer.blockedUntil - now, now) then PaceDrop(false) else PaceLoop))
    case Ready => Send(r)
    case InFlight => Local(r, Own(b, if InTime(cfg, q, now) then Got(RateLimit.Response(200, None)) else Exiting))
    case Got(_) => Mark(r)
    case Marked(_) => BlockGlobal(r, now)
    case GlobalDone(_) => BlockBucket(r, now)
    case BucketDone(_) => Protocol.Learn(r, granted)
    case Learned(plan, t) => if q.validating then Verdict(r) else Local(r, Own(b, Decided(plan, t)))
    case Decided(_, _) => Local(r, Uncounting(b, Finish))
    case Exiting => if q.validating then Drop(r) else Local(r, Uncounting(b, Finish))
    case ValEnter => Protocol.Enter(r)
    case PaceEnter => Protocol.Enter(r)
    case ValDrop(_) => Drop(r)
    case PaceDrop(_) => Drop(r)
    case ValStored(_, _) => Drop(r)
  }

  function NextLabel(cfg: Config, c: Client, now: int, r: RequestId, granted: bool): Label
    requires r in c.reqs && (c.reqs[r].pc.Own? ==> c.reqs[r].pc.b < |c.pool|)
  {
    var q := c.reqs[r];
    match q.pc
    case Admitted => Open(r, now + cfg.queueTimeout)
    case Start => Look(r, granted)
    case Resolved(_) => Count(r)
    case Entering(_) => Protocol.Enter(r)
    case Acquired(b) => Local(r, Rechecking(b))
    case Rechecking(_) => Look(r, granted)
    case Own(b, s) => NextStage(cfg, c, now, r, q, b, s, granted)
    case Uncounting(_, _) => Uncount(r)
    case Unlocking(_, _) => Drop(r)
    case AbortRelease(_) => Drop(r)
    case AbortCount(_) => Uncount(r)
    case Finished => End(r)
  }

  /** Nothing was sent or observed in the future. */
  ghost predicate SentBefore(c: Client, now: int) {
    forall r :: r in c.reqs ==> c.reqs[r].t.lastSent <= now && c.reqs[r].t.observed <= now
  }

  lemma MovedSent(c: Client, now: int, l: Label, q: Request, n: Request)
    requires Structure.Moved(c, now, l, q, n) && q.t.lastSent <= now && q.t.observed <= now
    ensures n.t.lastSent <= now && n.t.observed <= now
  {
    hide LookTarget, RateLimit.Observe;
  }

  lemma SentKept(cfg: Config, c: Client, now: int, l: Label)
    requires SentBefore(c, now) && Enabled(cfg, c, now, l)
    ensures SentBefore(Apply(cfg, c, now, l), now)
  {
    if Structure.Moves(l) {
      MoveSent(cfg, c, now, l);
    } else {
      hide LocalStep, Wants, Drops, DoLook, DoLearn, DoEnter, DoCount, DoUncount, DoMark, DoSend, DoBlockGlobal,
        DoBlockBucket, DoVerdict, GateTable.Release, LocalNext, OnGot, OnFail, AfterDrop;
    }
  }

  lemma MoveSent(cfg: Config, c: Client, now: int, l: Label)
    requires SentBefore(c, now) && Enabled(cfg, c, now, l) && Structure.Moves(l)
    ensures SentBefore(Apply(cfg, c, now, l), now)
  {
    hide Apply, Enabled, Structure.Moved;
    Structure.MoveFrame(cfg, c, now, l);
    Structure.MoveRequest(cfg, c, now, l);
    MovedSent(c, now, l, c.reqs[l.r], Structure.Mover(cfg, c, now, l));
  }

  lemma StageCanStep(cfg: Config, c: Client, now: int, r: RequestId, granted: bool)
    requires r in c.reqs && r in c.table.agents && Structure.Gates(c)
    requires Structure.Shaped(c.reqs[r], |c.pool|) && c.reqs[r].pc.Own? && c.reqs[r].t.observed <= now
    requires c.table.agents[r].wait == NotWaiting
    ensures c.reqs[r].pc.b < |c.pool|
    ensures Enabled(cfg, c, now, NextStage(cfg, c, now, r, c.reqs[r], c.reqs[r].pc.b, c.reqs[r].pc.stage, granted))
  {
    hide KnownDelay, TooLate, Pacer.CanGrant;
  }

  /** A request that sits in no queue is never stuck: its next statement, or noticing a grant, is enabled, whatever the
      budget answers. */
  lemma RunnableCanStep(cfg: Config, c: Client, now: int, r: RequestId, granted: bool)
    requires Structure.Inv(c) && r in c.reqs && !InQueue(c, r) && c.reqs[r].t.observed <= now
    ensures r in c.table.agents && (c.reqs[r].pc.Own? ==> c.reqs[r].pc.b < |c.pool|)
    ensures Enabled(cfg, c, now,
                    if c.table.agents[r].wait.Granted? then Protocol.Wake(r) else NextLabel(cfg, c, now, r, granted))
  {
    hide GateTable.Inv, Structure.Counters, Structure.Links, Structure.Pointers, NextStage;
    Structure.LinkOf(c, r);
    var q := c.reqs[r];
    if c.table.agents[r].wait == NotWaiting && q.pc.Own? {
      StageCanStep(cfg, c, now, r, granted);
    }
  }

  /** The step that a request which sits in no queue takes next. */
  ghost function Progress(cfg: Config, c: Client, now: int, r: RequestId, granted: bool): Label
    requires r in c.reqs && r in c.table.agents && (c.reqs[r].pc.Own? ==> c.reqs[r].pc.b < |c.pool|)
  {
    if c.table.agents[r].wait.Granted? then Protocol.Wake(r) else NextLabel(cfg, c, now, r, granted)
  }

  /** In every state that satisfies the invariant, if any request is left then some request can step, whatever the
      budget answers. */
  lemma NeverStuck(cfg: Config, c: Client, now: int, r: RequestId) returns (s: RequestId)
    requires Structure.Inv(c) && r in c.reqs
    requires SentBefore(c, now)
    ensures s in c.reqs && s in c.table.agents && (c.reqs[s].pc.Own? ==> c.reqs[s].pc.b < |c.pool|)
    ensures forall granted :: Enabled(cfg, c, now, Progress(cfg, c, now, s, granted))
    ensures forall granted :: var l := Progress(cfg, c, now, s, granted);
                              !l.Begin? && !l.Sweep? && !l.Touch? && !l.Cancel?
  {
    hide Structure.Inv, Enabled, InQueue, WaitPath, NextStage;
    var p := LeadsToRunnable(c, r);
    s := p[|p| - 1];
    RunnableCanStep(cfg, c, now, s, true);
    forall granted: bool
      ensures Enabled(cfg, c, now, Progress(cfg, c, now, s, granted))
      ensures var l := Progress(cfg, c, now, s, granted); !l.Begin? && !l.Sweep? && !l.Touch? && !l.Cancel?
    {
      RunnableCanStep(cfg, c, now, s, granted);
      NextLabelKind(cfg, c, now, s, granted);
    }
  }

  lemma NextLabelKind(cfg: Config, c: Client, now: int, r: RequestId, granted: bool)
    requires r in c.reqs && (c.reqs[r].pc.Own? ==> c.reqs[r].pc.b < |c.pool|)
    ensures var l := NextLabel(cfg, c, now, r, granted);
            && !l.Begin? && !l.Sweep? && !l.Touch? && !l.Cancel?
            && (l.Look? || l.Learn? ==> l.granted == granted)
  {
    hide KnownDelay, TooLate, Pacer.CanGrant;
  }
}
