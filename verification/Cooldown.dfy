/** A route's cooldown is never lost, whatever happens to the maps, as long as no learning step drops an entry that
    another route, still cooling down, is aliased to. */
module Cooldown {
  import opened Base
  import opened ClientMaps
  import opened Protocol
  import Structure
  import SingleFlight
  import Pacer
  import RateLimit
  import GateTable

  /** The cooldown of a route, if it has one, ends no later than `t`. */
  predicate Over(cooldown: map<Key, int>, route: Key, t: int) {
    route in cooldown ==> cooldown[route] <= t
  }

  /** Either the cooldown of the route is over, or the bucket the route resolves to stays blocked at least as long. */
  ghost predicate Guarded(c: Client, now: int, route: Key) {
    Over(c.cooldown, route, now) ||
    (Resolve(c.maps, route).Some? && Resolve(c.maps, route).value < |c.pool| &&
     c.cooldown[route] <= c.pool[Resolve(c.maps, route).value].readyAt)
  }

  /** A request that has waited for its bucket, up to the point where it records a new cooldown. */
  ghost predicate Waited(cooldown: map<Key, int>, now: int, q: Request) {
    q.pc.Own? ==>
      match q.pc.stage
      case WaitEval(seen) => Over(cooldown, q.spec.route, Max(seen, now))
      case PaceEnter => Over(cooldown, q.spec.route, now)
      case PaceAcquired => Over(cooldown, q.spec.route, now)
      case PaceLoop => Over(cooldown, q.spec.route, now)
      case PaceTry => Over(cooldown, q.spec.route, now)
      case PaceDrop(_) => Over(cooldown, q.spec.route, now)
      case Ready => Over(cooldown, q.spec.route, now)
      case InFlight => Over(cooldown, q.spec.route, now)
      case Got(_) => Over(cooldown, q.spec.route, now)
      case Marked(_) => Over(cooldown, q.spec.route, now)
      case GlobalDone(_) => Over(cooldown, q.spec.route, now)
      case _ => true
  }

  ghost predicate AllGuarded(c: Client, now: int) {
    forall route :: route in c.cooldown ==> Guarded(c, now, route)
  }

  ghost predicate AllWaited(c: Client, now: int) {
    forall r :: r in c.reqs ==> Waited(c.cooldown, now, c.reqs[r])
  }

  ghost predicate Inv(c: Client, now: int) {
    SingleFlight.Inv(c) && AllGuarded(c, now) && AllWaited(c, now)
  }

  /** The entry that this learning request drops is the one that some other route is aliased to, and that route is
      still cooling down. It takes a route hash that is also the hash of a bucket name. */
  ghost predicate Orphans(cfg: Config, c: Client, now: int, q: Request)
    requires q.pc.Own? && q.pc.stage.BucketDone?
  {
    DropsRoute(c.maps, q.spec.route, Canonical(cfg, q), q.pc.b) &&
    exists route :: route in c.cooldown && c.cooldown[route] > now && route != q.spec.route
                    && route in c.maps.aliases && c.maps.aliases[route] == q.spec.route
  }

  /** No cooldown is orphaned by this step. */
  ghost predicate Spares(cfg: Config, c: Client, now: int, l: Label) {
    l.Learn? && AtStage(c, l.r) && c.reqs[l.r].pc.stage.BucketDone? && LearnApplies(cfg, c, c.reqs[l.r], l.granted) ==>
      !Orphans(cfg, c, now, c.reqs[l.r])
  }

  lemma TimePasses(c: Client, now: int, later: int)
    requires Inv(c, now) && now <= later
    ensures Inv(c, later)
  {
    hide SingleFlight.Inv, Resolve;
  }

  // ----- moves that change neither maps, cooldowns nor buckets' readiness -----

  ghost predicate SameBuckets(c: Client, d: Client) {
    && d.maps == c.maps && d.cooldown == c.cooldown && |d.pool| == |c.pool|
    && forall b: nat :: b < |c.pool| ==> d.pool[b].readyAt == c.pool[b].readyAt
  }

  lemma GuardedFrame(c: Client, d: Client, now: int)
    requires AllGuarded(c, now) && SameBuckets(c, d)
    ensures AllGuarded(d, now)
  {
    hide Resolve;
  }

  lemma LocalWaited(cfg: Config, c: Client, now: int, q: Request, n: PC)
    requires LocalStep(cfg, c, now, q, n) && Waited(c.cooldown, now, q)
    requires q.spec.route in c.cooldown ==> Guarded(c, now, q.spec.route)
    requires InWindow(q) ==> Resolve(c.maps, q.spec.route) == Some(q.pc.b)
    ensures Waited(c.cooldown, now, LocalNext(q, n, now))
  {
    hide KnownDelay, TooLate, Pacer.CanGrant, Resolve;
  }

  lemma GateWaited(cooldown: map<Key, int>, now: int, q: Request)
    requires Waited(cooldown, now, q)
    ensures Waited(cooldown, now, OnGot(q)) && Waited(cooldown, now, OnFail(q)) && Waited(cooldown, now, AfterDrop(q))
  {
    hide Over;
  }

  lemma PlainWaited(c: Client, now: int, l: Label, q: Request, n: Request)
    requires Structure.Moved(c, now, l, q, n) && Waited(c.cooldown, now, q)
    requires l.Open? || l.Look? || l.Count? || l.Uncount? || l.Pace? || l.Send? || l.Mark? || l.BlockGlobal? || l.Learn?
             || l.Verdict?
    ensures Waited(c.cooldown, now, n)
  {
    hide LocalNext, OnGot, OnFail, AfterDrop, LookTarget, RateLimit.Observe, Over;
  }

  lemma MovedWaited(cfg: Config, c: Client, now: int, l: Label, q: Request, n: Request)
    requires Structure.Moved(c, now, l, q, n) && Waited(c.cooldown, now, q) && !l.BlockBucket?
    requires l.Local? ==> LocalStep(cfg, c, now, q, l.pc)
    requires q.spec.route in c.cooldown ==> Guarded(c, now, q.spec.route)
    requires InWindow(q) ==> Resolve(c.maps, q.spec.route) == Some(q.pc.b)
    ensures Waited(c.cooldown, now, n)
  {
    hide LocalStep, LocalNext, OnGot, OnFail, AfterDrop, AfterLook, LookTarget, RateLimit.Observe, Resolve, Waited,
      Opened, Guarded;
    if l.Local? {
      LocalWaited(cfg, c, now, q, l.pc);
    } else if l.Enter? || l.Wake? || l.Cancel? || l.Drop? {
      GateWaited(c.cooldown, now, q);
    } else {
      PlainWaited(c, now, l, q, n);
    }
  }

  lemma WaitedFrame(c: Client, d: Client, now: int, r: RequestId, n: Request)
    requires AllWaited(c, now) && r in c.reqs && d.reqs == c.reqs[r := n] && d.cooldown == c.cooldown
    requires Waited(c.cooldown, now, n)
    ensures AllWaited(d, now)
  {
    hide Waited;
  }

  /** The part of the invariant about the moving request. */
  lemma MoveWaited(cfg: Config, c: Client, now: int, l: Label)
    requires Inv(c, now) && Enabled(cfg, c, now, l) && Structure.Moves(l) && !l.BlockBucket?
    ensures AllWaited(Apply(cfg, c, now, l), now)
  {
    hide Structure.Inv, Apply, Structure.Moved, LocalStep, Wants, Drops, Waited, Guarded, Resolve;
    var d := Apply(cfg, c, now, l);
    Structure.MoveFrame(cfg, c, now, l);
    Structure.MoveRequest(cfg, c, now, l);
    MovedWaited(cfg, c, now, l, c.reqs[l.r], d.reqs[l.r]);
    WaitedFrame(c, d, now, l.r, d.reqs[l.r]);
  }

  /** Labels that touch nothing the cooldowns depend on. */
  lemma MoveBuckets(cfg: Config, c: Client, now: int, l: Label)
    requires Enabled(cfg, c, now, l) && Structure.Moves(l) && !l.BlockBucket? && !l.Look? && !l.Learn?
    ensures SameBuckets(c, Apply(cfg, c, now, l))
  {
    hide LocalStep, LocalNext, OnGot, OnFail, AfterDrop, Wants, Drops, GateTable.Release, GateTable.Wake,
      GateTable.Cancel, GateTable.Enter, GateTable.Entry, DoLook, DoLearn, DoBlockBucket, RateLimit.Observe,
      Pacer.BlockFor, Pacer.Grant, Opened;
  }

  lemma PlainKeeps(cfg: Config, c: Client, now: int, l: Label)
    requires Inv(c, now) && Enabled(cfg, c, now, l) && Structure.Moves(l)
    requires !l.BlockBucket? && !l.Look? && !l.Learn?
    ensures AllGuarded(Apply(cfg, c, now, l), now)
    ensures AllWaited(Apply(cfg, c, now, l), now)
  {
    hide SingleFlight.Inv, Apply, Enabled, AllGuarded, AllWaited;
    MoveWaited(cfg, c, now, l);
    MoveBuckets(cfg, c, now, l);
    GuardedFrame(c, Apply(cfg, c, now, l), now);
  }

  // ----- lookups -----

  lemma LookGuarded(c: Client, r: RequestId, granted: bool, now: int)
    requires Structure.Inv(c) && AllGuarded(c, now) && r in c.reqs
    ensures AllGuarded(DoLook(c, r, granted), now)
  {
    hide Structure.Inv, Resolve, Create, AfterLook, GateTable.AddGate;
    var route := c.reqs[r].spec.route;
    if LookCreates(c, route, granted) {
      CreateResolves(c.maps, route, |c.pool|);
    }
  }

  // ----- a new cooldown -----

  lemma BlockGuarded(c: Client, r: RequestId, at: int, now: int)
    requires SingleFlight.Inv(c) && AllGuarded(c, now) && AtStage(c, r) && c.reqs[r].pc.stage.GlobalDone?
    ensures AllGuarded(DoBlockBucket(c, r, at), now)
  {
    hide Structure.Inv, Resolve;
    var q := c.reqs[r];
    assert Resolve(c.maps, q.spec.route) == Some(q.pc.b);
    var d := DoBlockBucket(c, r, at);
    forall route | route in d.cooldown
      ensures Guarded(d, now, route)
    {
      if route != q.spec.route {
        assert Guarded(c, now, route);
      } else if route in c.cooldown {
        assert Guarded(c, now, route);
      }
    }
  }

  /** No other request that has waited is on the same route, so raising this route's cooldown contradicts nobody. */
  lemma BlockWaited(c: Client, r: RequestId, at: int, now: int)
    requires SingleFlight.Inv(c) && AllWaited(c, now) && AtStage(c, r) && c.reqs[r].pc.stage.GlobalDone?
    ensures AllWaited(DoBlockBucket(c, r, at), now)
  {
    hide Structure.Inv, Resolve, Blocked, Over, SingleFlight.Windows;
    var d := DoBlockBucket(c, r, at);
    forall s | s in d.reqs
      ensures Waited(d.cooldown, now, d.reqs[s])
    {
      assert s != r ==> d.reqs[s] == c.reqs[s];
      if s != r && InWindow(c.reqs[s]) {
        SingleFlight.NoSharedFlight(c, r, s);
        OverElsewhere(c, d, c.reqs[s].spec.route, now);
        OverElsewhere(c, d, c.reqs[s].spec.route,
                      if c.reqs[s].pc.stage.WaitEval? then Max(c.reqs[s].pc.stage.seen, now) else now);
      }
    }
  }

  lemma OverElsewhere(c: Client, d: Client, route: Key, t: int)
    requires route in d.cooldown ==> route in c.cooldown && d.cooldown[route] == c.cooldown[route]
    ensures Over(c.cooldown, route, t) ==> Over(d.cooldown, route, t)
  {
  }

  // ----- learning -----

  /** The learning route carries its cooldown over to the target by the merge; every other route keeps its bucket.
      Learning keeps every running cooldown guarded if and only if it orphans none. */
  lemma LearnGuardsIff(cfg: Config, c: Client, r: RequestId, granted: bool, now: int)
    requires SingleFlight.Inv(c) && AllGuarded(c, now)
    requires AtStage(c, r) && c.reqs[r].pc.stage.BucketDone?
    ensures AllGuarded(DoLearn(cfg, c, r, granted), now) <==> Spares(cfg, c, now, Protocol.Learn(r, granted))
  {
    hide Structure.Inv, Resolve, ClientMaps.Learn, LearnTarget, Net, Canonical, DropsRoute;
    var q := c.reqs[r];
    var d := DoLearn(cfg, c, r, granted);
    if LearnApplies(cfg, c, q, granted) {
      LearnedGuardsIff(cfg, c, r, granted, now);
    } else {
      assert SameBuckets(c, d);
      GuardedFrame(c, d, now);
    }
  }

  lemma LearnedGuardsIff(cfg: Config, c: Client, r: RequestId, granted: bool, now: int)
    requires SingleFlight.Inv(c) && AllGuarded(c, now)
    requires AtStage(c, r) && c.reqs[r].pc.stage.BucketDone? && LearnApplies(cfg, c, c.reqs[r], granted)
    ensures AllGuarded(DoLearn(cfg, c, r, granted), now) <==> !Orphans(cfg, c, now, c.reqs[r])
  {
    hide Structure.Inv, Resolve, ClientMaps.Learn, LearnTarget, Net, Canonical, DropsRoute;
    var q := c.reqs[r];
    var b := q.pc.b;
    var k := Canonical(cfg, q);
    var d := DoLearn(cfg, c, r, granted);
    assert Resolve(c.maps, q.spec.route) == Some(b);
    TargetInPool(c, k, b);
    LearnResolves(c.maps, q.spec.route, k, b);
    forall route | route in c.cooldown && c.cooldown[route] > now && route != q.spec.route
      ensures Guarded(d, now, route) <==>
              !(DropsRoute(c.maps, q.spec.route, k, b) && route in c.maps.aliases &&
                c.maps.aliases[route] == q.spec.route)
    {
      assert Guarded(c, now, route);
      LearnKeepsOther(c.maps, q.spec.route, k, b, route);
      if DropsRoute(c.maps, q.spec.route, k, b) && route in c.maps.aliases && c.maps.aliases[route] == q.spec.route {
        CollisionLosesBucket(c.maps, q.spec.route, k, b, route);
      }
    }
    forall route | route in c.cooldown && (c.cooldown[route] <= now || route == q.spec.route)
      ensures Guarded(d, now, route)
    {
      assert Guarded(c, now, route);
    }
  }

  lemma TargetInPool(c: Client, k: Key, b: nat)
    requires Structure.Inv(c) && b < |c.pool|
    ensures LearnTarget(c.maps, k, b) < |c.pool|
  {
    hide GateTable.Inv, Structure.Links, Structure.Counters, Structure.Gates;
  }

  // ----- sweeping -----

  lemma SweepGuarded(c: Client, at: int, unused: set<nat>, now: int)
    requires AllGuarded(c, now) && at <= now
    ensures AllGuarded(DoSweep(c, at, unused), now)
  {
    hide Resolve, Swept;
    SweptResolves(c.maps, IdleBuckets(c.pool, at, unused));
  }

  lemma AdmitKeeps(cfg: Config, c: Client, now: int, l: Label)
    requires Inv(c, now) && Enabled(cfg, c, now, l) && !Structure.Moves(l)
    ensures AllGuarded(Apply(cfg, c, now, l), now)
    ensures AllWaited(Apply(cfg, c, now, l), now)
  {
    hide SingleFlight.Inv, LocalStep, Wants, Drops, DoLook, DoLearn, DoEnter, DoCount, DoUncount, DoMark, DoSend,
      DoBlockGlobal, DoBlockBucket, DoVerdict, GateTable.Release, Resolve, Swept, Over, AllGuarded;
    match l
    case Begin(r, _, _, _, _) => GuardedFrame(c, Apply(cfg, c, now, l), now);
    case End(r) => GuardedFrame(c, Apply(cfg, c, now, l), now);
    case Touch(x, at) => GuardedFrame(c, Apply(cfg, c, now, l), now);
    case Sweep(at, unused) => SweepGuarded(c, at, unused, now);
  }

  lemma StepKeeps(cfg: Config, c: Client, now: int, l: Label)
    requires Inv(c, now) && Enabled(cfg, c, now, l) && Spares(cfg, c, now, l)
    ensures Inv(Apply(cfg, c, now, l), now)
  {
    hide SingleFlight.Inv, Structure.Inv, AllGuarded, AllWaited, LocalStep, Wants, Drops, DoBegin, DoEnd, DoSweep,
      DoLook, DoLearn, DoEnter, DoCount, DoUncount, DoMark, DoSend, DoBlockGlobal, DoBlockBucket, DoVerdict,
      GateTable.Release, LocalNext, OnGot, OnFail, AfterDrop;
    SingleFlight.StepKeeps(cfg, c, now, l);
    StepCooldown(cfg, c, now, l);
  }

  lemma StepCooldown(cfg: Config, c: Client, now: int, l: Label)
    requires Inv(c, now) && Enabled(cfg, c, now, l) && Spares(cfg, c, now, l)
    ensures var d := Apply(cfg, c, now, l); AllGuarded(d, now) && AllWaited(d, now)
  {
    hide Structure.Inv, SingleFlight.Windows, AllGuarded, AllWaited, LocalStep, Wants, Drops, DoBegin, DoEnd,
      DoSweep, DoLook, DoLearn, DoEnter, DoCount, DoUncount, DoMark, DoSend, DoBlockGlobal, DoBlockBucket, DoVerdict,
      GateTable.Release, LocalNext, OnGot, OnFail, AfterDrop;
    match l
    case Look(r, granted) =>
      LookGuarded(c, r, granted, now);
      MoveWaited(cfg, c, now, l);
    case Learn(r, granted) =>
      LearnGuardsIff(cfg, c, r, granted, now);
      MoveWaited(cfg, c, now, l);
    case BlockBucket(r, at) =>
      BlockGuarded(c, r, at, now);
      BlockWaited(c, r, at, now);
    case _ =>
      if Structure.Moves(l) {
        PlainKeeps(cfg, c, now, l);
      } else {
        AdmitKeeps(cfg, c, now, l);
      }
  }

  /** A request is sent only after every cooldown that a response to its route ever recorded. */
  lemma SendAfterCooldown(cfg: Config, c: Client, now: int, r: RequestId)
    requires Inv(c, now) && Enabled(cfg, c, now, Send(r))
    ensures Over(c.cooldown, c.reqs[r].spec.route, now)
  {
    hide SingleFlight.Inv;
    assert Waited(c.cooldown, now, c.reqs[r]);
  }

  /** The recorded cooldown of a route is the maximum of what its responses asked for: it never goes down, and each
      response raises it to at least its own. */
  lemma CooldownRecorded(cfg: Config, c: Client, now: int, l: Label)
    requires Enabled(cfg, c, now, l)
    ensures forall route :: route in c.cooldown ==>
                              route in Apply(cfg, c, now, l).cooldown
                              && c.cooldown[route] <= Apply(cfg, c, now, l).cooldown[route]
    ensures l.BlockBucket? && c.reqs[l.r].pc.stage.plan.bucket.Some? ==>
              var route := c.reqs[l.r].spec.route;
              && route in Apply(cfg, c, now, l).cooldown
              && Apply(cfg, c, now, l).cooldown[route] >= l.at + c.reqs[l.r].pc.stage.plan.bucket.value
  {
    hide LocalStep, Wants, Drops, DoLook, DoLearn, DoEnter, DoCount, DoUncount, DoMark, DoSend, DoBlockGlobal,
      DoVerdict, GateTable.Release, LocalNext, OnGot, OnFail, AfterDrop, Blocked;
    if Structure.Moves(l) {
      Structure.MoveFrame(cfg, c, now, l);
    }
  }
}
