/** Building runs of the proxy step by step, by following one client object at one instant. */
module Scenario {
  import opened Base
  import opened ClientMaps
  import opened Protocol
  import opened ProxyMachine
  import opened Theorems
  import GlobalCooldown
  import Structure
  import SingleFlight
  import Credential
  import Deadlock
  import GateTable
  import FifoGate
  import Pacer
  import RateLimit

  ghost function Last(run: Run): Proxy
    requires |run.states| > 0
  {
    run.states[|run.states| - 1]
  }

  /** The run leads to this instant, and to a proxy whose object `i` has come to this client state. */
  ghost predicate Reaches(s: Settings, run: Run, i: nat, c: Client, now: int) {
    && IsRun(s, run) && |run.states| == |run.events| + 1
    && var p := Last(run); p.now == now && i < |p.objs| && p.objs[i].client == c
  }

  ghost predicate Extends(run: Run, next: Run) {
    run.states <= next.states && run.events <= next.events && |run.states| > 0
  }

  /** Nothing but object `i` and the count of slots differs. */
  ghost predicate OnlyObject(p: Proxy, q: Proxy, i: nat) {
    && q.now == p.now && q.closed == p.closed && q.evictor == p.evictor && q.states == p.states
    && i < |p.objs| && |q.objs| == |p.objs| && q.objs == p.objs[i := q.objs[i]] && q.objs[i].id == p.objs[i].id
  }

  /** Every time of last use that is stored from then on was read at most `stale` before. */
  ghost predicate Stores(run: Run, next: Run, stale: nat) {
    && |run.states| == |run.events| + 1 && |next.states| == |next.events| + 1
    && forall k :: |run.events| <= k < |next.events| ==>
                     GlobalCooldown.FreshEvent(next.states[k], next.events[k], stale)
  }

  lemma StoresTwice(a: Run, b: Run, c: Run, x: nat, y: nat)
    requires Stores(a, b, x) && Stores(b, c, y) && Extends(b, c)
    ensures Stores(a, c, Max(x, y))
  {
    hide GlobalCooldown.FreshEvent;
    forall k | |a.events| <= k < |c.events|
      ensures GlobalCooldown.FreshEvent(c.states[k], c.events[k], Max(x, y))
    {
      Fresher(c.states[k], c.events[k], if k < |b.events| then x else y, Max(x, y));
    }
  }

  lemma Fresher(p: Proxy, e: Event, x: nat, y: nat)
    requires GlobalCooldown.FreshEvent(p, e, x) && x <= y
    ensures GlobalCooldown.FreshEvent(p, e, y)
  {
  }

  /** The run is continued by steps of object `i`, which take at most `slots` more slots and store no time of last use
      later than `stale` after it was read. */
  ghost predicate GoesLate(run: Run, next: Run, i: nat, slots: nat, stale: nat) {
    && Extends(run, next) && OnlyObject(Last(run), Last(next), i) && Last(next).used <= Last(run).used + slots
    && Stores(run, next, stale)
  }

  ghost predicate Goes(run: Run, next: Run, i: nat, slots: nat) {
    GoesLate(run, next, i, slots, 0)
  }

  lemma GoesTwice(a: Run, b: Run, c: Run, i: nat, x: nat, y: nat)
    requires Goes(a, b, i, x) && Goes(b, c, i, y)
    ensures Goes(a, c, i, x + y)
  {
    hide Stores;
    StoresTwice(a, b, c, 0, 0);
  }

  lemma GoesOn(a: Run, b: Run, c: Run, i: nat, x: nat, y: nat, stale: nat)
    requires GoesLate(a, b, i, x, stale) && Goes(b, c, i, y)
    ensures GoesLate(a, c, i, x + y, stale)
  {
    hide Stores;
    StoresTwice(a, b, c, stale, 0);
  }

  /** The budget has room for `n` more entries. */
  ghost predicate Room(s: Settings, run: Run, n: nat) {
    |run.states| > 0 && Last(run).used + n <= s.maxSlots
  }

  lemma RoomLeft(s: Settings, run: Run, next: Run, i: nat, x: nat, n: nat)
    requires Goes(run, next, i, x) && Room(s, run, x + n)
    ensures Room(s, next, n)
  {
    hide Stores;
  }

  lemma Append(s: Settings, run: Run, e: Event) returns (next: Run)
    requires IsRun(s, run) && Possible(s, Last(run), e)
    ensures IsRun(s, next) && Extends(run, next) && |next.states| == |next.events| + 1 == |run.events| + 2
    ensures next.events[|run.events|] == e && Last(next) == After(s, Last(run), e)
    ensures next.states[|run.events|] == Last(run)
  {
    hide Possible, After, Initial;
    next := Run(run.states + [After(s, Last(run), e)], run.events + [e]);
  }

  lemma ClientIsSound(s: Settings, run: Run, i: nat, c: Client, now: int)
    requires Reaches(s, run, i, c, now)
    ensures Structure.Inv(c) && Deadlock.SentBefore(c, now)
  {
    hide IsRun, Structure.Inv, SingleFlight.Windows, Credential.Inv, Pacer.Inv, Deadlock.SentBefore;
    ClientAlways(s, run, |run.states| - 1, i);
  }

  // ----- single steps -----

  /** The last event of `next` is this step, taken from the end of `run`. */
  ghost predicate Stepped(s: Settings, run: Run, next: Run, i: nat, l: Label) {
    && |run.states| == |run.events| + 1 && |next.states| == |next.events| + 1 == |run.events| + 2
    && next.events[|run.events|] == Step(i, l) && next.states[|run.events|] == Last(run)
    && Possible(s, Last(run), Step(i, l))
  }

  lemma Take(s: Settings, run: Run, i: nat, c: Client, now: int, l: Label) returns (next: Run, d: Client)
    requires Reaches(s, run, i, c, now) && Enabled(s.proto, c, now, l) && !l.Begin? && Answered(s, Last(run), c, l)
    ensures d == Apply(s.proto, c, now, l) && Reaches(s, next, i, d, now) && Stepped(s, run, next, i, l)
    ensures Extends(run, next) && OnlyObject(Last(run), Last(next), i) 
    ensures Stores(run, next, if l.Touch? then now - l.at else 0)
    ensures Last(next).used == Last(run).used + Charge(s.proto, c, l)
  {
    hide IsRun, Apply, Enabled, Answered, Charge, Record;
    d := Apply(s.proto, c, now, l);
    next := Append(s, run, Step(i, l));
  }

  /** A step that does not ask the budget. */
  lemma TakePlain(s: Settings, run: Run, i: nat, c: Client, now: int, l: Label) returns (next: Run, d: Client)
    requires Reaches(s, run, i, c, now) && Enabled(s.proto, c, now, l)
    requires !l.Begin? && !l.Look? && !l.Learn? && !l.Sweep? && !l.Touch?
    ensures d == Apply(s.proto, c, now, l)
    ensures Reaches(s, next, i, d, now) && Stepped(s, run, next, i, l) && Goes(run, next, i, 0)
  {
    hide Reaches, Apply, Enabled, Stepped, Stores;
    next, d := Take(s, run, i, c, now, l);
  }

  /** A lookup while the budget has room. */
  lemma TakeLook(s: Settings, run: Run, i: nat, c: Client, now: int, r: RequestId) returns (next: Run, d: Client)
    requires Reaches(s, run, i, c, now) && r in c.reqs && (c.reqs[r].pc.Start? || c.reqs[r].pc.Rechecking?)
    requires Room(s, run, 1)
    ensures d == DoLook(c, r, true)
    ensures Reaches(s, next, i, d, now)
    ensures Goes(run, next, i, if Resolve(c.maps, c.reqs[r].spec.route).None? then 1 else 0)
  {
    hide Stepped, DoLook, Resolve, Stores;
    next, d := Take(s, run, i, c, now, Look(r, true));
  }

  /** Learning while the budget has room. */
  lemma TakeLearn(s: Settings, run: Run, i: nat, c: Client, now: int, r: RequestId) returns (next: Run, d: Client)
    requires Reaches(s, run, i, c, now) && AtStage(c, r) && c.reqs[r].pc.stage.BucketDone? && Room(s, run, 2)
    ensures d == DoLearn(s.proto, c, r, true)
    ensures Reaches(s, next, i, d, now) && Goes(run, next, i, 2)
  {
    hide Stepped, DoLearn, Canonical, DropsRoute, Stores;
    next, d := Take(s, run, i, c, now, Protocol.Learn(r, true));
  }

  lemma TakeLocal(s: Settings, run: Run, i: nat, c: Client, now: int, r: RequestId, pc: PC)
    returns (next: Run, d: Client)
    requires Reaches(s, run, i, c, now) && r in c.reqs && LocalStep(s.proto, c, now, c.reqs[r], pc)
    ensures d == WithReq(c, r, LocalNext(c.reqs[r], pc, now))
    ensures Reaches(s, next, i, d, now) && Goes(run, next, i, 0)
  {
    hide Reaches, Stepped, LocalStep, LocalNext, Goes;
    next, d := TakePlain(s, run, i, c, now, Local(r, pc));
  }

  /** A request that has ended stores what it read of the clock. */
  lemma TakeTouch(s: Settings, run: Run, i: nat, c: Client, now: int, x: nat, at: int) returns (next: Run, d: Client)
    requires Reaches(s, run, i, c, now) && x < |c.ending| && c.ending[x] <= at <= now
    ensures d == DoTouch(c, x, at)
    ensures Reaches(s, next, i, d, now) && GoesLate(run, next, i, 0, now - at)
  {
    hide Reaches, Stepped, Stores;
    next, d := Take(s, run, i, c, now, Touch(x, at));
  }

  // ----- arriving -----

  lemma AgentsOf(c: Client)
    requires Structure.Inv(c)
    ensures c.table.agents.Keys == c.reqs.Keys
  {
    hide GateTable.Inv, Structure.Gates, Structure.Pointers, Structure.Counters;
  }

  /** A request arrives at the client of an identity. */
  lemma TakeBegin(s: Settings, run: Run, i: nat, c: Client, now: int, id: Identity, r: RequestId, route: Key,
                  interaction: bool)
    returns (next: Run, d: Client)
    requires Reaches(s, run, i, c, now) && r !in c.reqs
    requires var p := Last(run); !p.closed && p.evictor == Away && id in p.states && p.states[id] == i
    ensures d == DoBegin(c, r, route, "", interaction, now, now)
    ensures Reaches(s, next, i, d, now) && Goes(run, next, i, 0)
    ensures |next.events| == |run.events| + 1 && next.events[|run.events|].Admit?
  {
    hide IsRun, Structure.Inv, Deadlock.SentBefore, DoBegin, Record;
    ClientIsSound(s, run, i, c, now);
    AgentsOf(c);
    d := DoBegin(c, r, route, "", interaction, now, now);
    next := Append(s, run, Admit(id, r, route, "", interaction, now));
  }

  /** What the steps below leave alone. */
  ghost predicate Same(c: Client, d: Client) {
    d.validity == c.validity && d.anonymous == c.anonymous && d.cooldown == c.cooldown && d.pacer == c.pacer
    && d.lastUsed == c.lastUsed && d.ending == c.ending
  }

  /** A request arrives and its queue context is opened. */
  lemma Arrive(s: Settings, run: Run, i: nat, c: Client, now: int, id: Identity, r: RequestId, route: Key,
               interaction: bool)
    returns (next: Run, d: Client)
    requires Reaches(s, run, i, c, now) && r !in c.reqs
    requires var p := Last(run); !p.closed && p.evictor == Away && id in p.states && p.states[id] == i
    ensures Reaches(s, next, i, d, now) && Goes(run, next, i, 0)
    ensures d.reqs == c.reqs[r := Request(Spec(route, "", interaction, now), Start, false,
                                          Timing(now, now + s.proto.queueTimeout, now, 0, now, now, now, false))]
    ensures Same(c.(lastUsed := now), d) && d.pool == c.pool && d.maps == c.maps && d.active == c.active + 1
  {
    hide Reaches, GateTable.AddAgent, Goes, Stepped;
    var mid, m := TakeBegin(s, run, i, c, now, id, r, route, interaction);
    next, d := TakePlain(s, mid, i, m, now, Open(r, now + s.proto.queueTimeout));
    GoesTwice(run, mid, next, i, 0, 0);
    assert m.reqs[r := d.reqs[r]] == c.reqs[r := d.reqs[r]];
  }

  // ----- acquiring a bucket that does not exist yet -----

  lemma NotWaiting(c: Client, r: RequestId)
    requires Structure.Inv(c) && r in c.reqs && Wants(c.reqs[r]).None?
    ensures r in c.table.agents && c.table.agents[r].wait == GateTable.NotWaiting
  {
    hide GateTable.Inv, Structure.Gates, Structure.Pointers, Structure.Counters, HoldsOf, Structure.Shaped;
    Structure.LinkOf(c, r);
  }

  /** The first lookup, which makes the bucket, and the entry into its active count. */
  lemma LookAndCount(s: Settings, run: Run, i: nat, c: Client, now: int, r: RequestId) returns (next: Run, d: Client)
    requires Reaches(s, run, i, c, now) && r in c.reqs && c.reqs[r].pc.Start? && Room(s, run, 1)
    requires Resolve(c.maps, c.reqs[r].spec.route).None?
    ensures Reaches(s, next, i, d, now) && Goes(run, next, i, 1)
    ensures d == WithReq(Made(c, c.reqs[r].spec.route), r, c.reqs[r].(pc := Entering(|c.pool|)))
                   .(pool := c.pool + [Bucket(ZERO_TIME, 1)])
  {
    hide Reaches, Stepped, Goes, Room, Resolve, Create, GateTable.AddGate;
    var mid, m := TakeLook(s, run, i, c, now, r);
    assert m.reqs[r] == c.reqs[r].(pc := Resolved(|c.pool|)) && m.pool == c.pool + [Bucket(ZERO_TIME, 0)];
    next, d := TakePlain(s, mid, i, m, now, Count(r));
    GoesTwice(run, mid, next, i, 1, 0);
    assert m.reqs[r := d.reqs[r]] == c.reqs[r := d.reqs[r]];
    assert d.pool == c.pool + [Bucket(ZERO_TIME, 1)];
  }

  /** A free gate is taken at once. */
  lemma EnterFree(s: Settings, run: Run, i: nat, c: Client, now: int, r: RequestId) returns (next: Run, d: Client)
    requires Reaches(s, run, i, c, now) && r in c.reqs && Wants(c.reqs[r]).Some? && r in c.table.agents
    requires c.table.agents[r].wait == GateTable.NotWaiting
    requires Wants(c.reqs[r]).value in c.table.gates && c.table.gates[Wants(c.reqs[r]).value] == FifoGate.Free()
    ensures Reaches(s, next, i, d, now) && Goes(run, next, i, 0)
    ensures d.reqs == c.reqs[r := OnGot(c.reqs[r])] && d.maps == c.maps && d.pool == c.pool && Same(c, d)
    ensures d.active == c.active
    ensures forall g :: g != Wants(c.reqs[r]).value ==> (g in d.table.gates <==> g in c.table.gates)
                                                        && (g in c.table.gates ==> d.table.gates[g] == c.table.gates[g])
    ensures r in d.table.agents && d.table.agents[r].wait == GateTable.NotWaiting
  {
    hide Reaches, Stepped, Goes, OnGot, Wants;
    next, d := TakePlain(s, run, i, c, now, Protocol.Enter(r));
  }

  /** The lookup after the gate is taken finds the same bucket. */
  lemma Confirm(s: Settings, run: Run, i: nat, c: Client, now: int, r: RequestId, b: nat) returns (next: Run, d: Client)
    requires Reaches(s, run, i, c, now) && r in c.reqs && c.reqs[r].pc == Acquired(b) && Room(s, run, 1)
    requires Resolve(c.maps, c.reqs[r].spec.route) == Some(b)
    ensures Reaches(s, next, i, d, now) && Goes(run, next, i, 0)
    ensures d == WithReq(c, r, At(c.reqs[r], b, if c.reqs[r].t.attempts == 0 then Fresh else LoopTop))
  {
    hide Reaches, Stepped, Goes, Room, Resolve;
    var mid, m := TakeLocal(s, run, i, c, now, r, Rechecking(b));
    assert m.reqs[r] == c.reqs[r].(pc := Rechecking(b));
    RoomLeft(s, run, mid, i, 0, 1);
    next, d := TakeLook(s, mid, i, m, now, r);
    GoesTwice(run, mid, next, i, 0, 0);
    assert m.reqs[r := d.reqs[r]] == c.reqs[r := d.reqs[r]];
  }

  /** From `acquireBucket` to holding the gate of a bucket that was made on the way. */
  lemma EnterNew(s: Settings, run: Run, i: nat, c: Client, now: int, r: RequestId) returns (next: Run, d: Client)
    requires Reaches(s, run, i, c, now) && r in c.reqs && c.reqs[r].pc.Start? && Room(s, run, 1)
    requires Resolve(c.maps, c.reqs[r].spec.route).None?
    ensures Reaches(s, next, i, d, now) && Goes(run, next, i, 1) && Same(c, d) && d.active == c.active
    ensures d.maps == Create(c.maps, c.reqs[r].spec.route, |c.pool|) && d.pool == c.pool + [Bucket(ZERO_TIME, 1)]
    ensures d.reqs == c.reqs[r := c.reqs[r].(pc := Acquired(|c.pool|))]
    ensures forall g :: g in c.table.gates && !g.BucketGate? ==>
                          g in d.table.gates && d.table.gates[g] == c.table.gates[g]
    ensures r in d.table.agents && d.table.agents[r].wait == GateTable.NotWaiting
  {
    hide Reaches, Resolve, Create, Structure.Inv, Deadlock.SentBefore, Stepped, Goes, Room;
    ClientIsSound(s, run, i, c, now);
    NotWaiting(c, r);
    var mid, m := LookAndCount(s, run, i, c, now, r);
    next, d := EnterFree(s, mid, i, m, now, r);
    GoesTwice(run, mid, next, i, 1, 0);
    assert m.reqs[r := d.reqs[r]] == c.reqs[r := d.reqs[r]];
  }

  /** From `acquireBucket` to a confirmed bucket that was made on the way. */
  lemma AcquireNew(s: Settings, run: Run, i: nat, c: Client, now: int, r: RequestId) returns (next: Run, d: Client)
    requires Reaches(s, run, i, c, now) && r in c.reqs && c.reqs[r].pc.Start? && Room(s, run, 2)
    requires Resolve(c.maps, c.reqs[r].spec.route).None?
    ensures Reaches(s, next, i, d, now) && Goes(run, next, i, 1) && Same(c, d) && d.active == c.active
    ensures d.maps == Create(c.maps, c.reqs[r].spec.route, |c.pool|) && d.pool == c.pool + [Bucket(ZERO_TIME, 1)]
    ensures d.reqs == c.reqs[r := At(c.reqs[r], |c.pool|, if c.reqs[r].t.attempts == 0 then Fresh else LoopTop)]
    ensures forall g :: g in c.table.gates && !g.BucketGate? ==>
                          g in d.table.gates && d.table.gates[g] == c.table.gates[g]
    ensures r in d.table.agents && d.table.agents[r].wait == GateTable.NotWaiting
  {
    hide Reaches, Resolve, Create, Goes;
    var mid, m := EnterNew(s, run, i, c, now, r);
    CreateResolves(c.maps, c.reqs[r].spec.route, |c.pool|);
    RoomLeft(s, run, mid, i, 1, 1);
    next, d := Confirm(s, mid, i, m, now, r, |c.pool|);
    GoesTwice(run, mid, next, i, 1, 0);
    assert m.reqs[r := d.reqs[r]] == c.reqs[r := d.reqs[r]];
  }

  // ----- one attempt -----

  /** The validity gate, where the credential need not be validated. */
  lemma PassGate(s: Settings, run: Run, i: nat, c: Client, now: int, r: RequestId) returns (next: Run, d: Client)
    requires Reaches(s, run, i, c, now) && AtStage(c, r) && c.reqs[r].pc.stage.Fresh?
    requires c.validity == Valid || (c.validity == Unknown && c.reqs[r].spec.interaction)
    ensures Reaches(s, next, i, d, now) && Goes(run, next, i, 0)
    ensures d == WithReq(c, r, At(c.reqs[r], c.reqs[r].pc.b, LoopTop))
  {
    hide Reaches, Stepped, Goes, KnownDelay, TooLate, Pacer.CanGrant;
    var q, b := c.reqs[r], c.reqs[r].pc.b;
    var mid, m := TakeLocal(s, run, i, c, now, r, Own(b, ValidityGate));
    assert m.reqs[r] == At(q, b, ValidityGate);
    next, d := TakeLocal(s, mid, i, m, now, r, Own(b, LoopTop));
    GoesTwice(run, mid, next, i, 0, 0);
    assert m.reqs[r := d.reqs[r]] == c.reqs[r := d.reqs[r]];
  }

  /** From the top of the attempt loop past the deadline check of a bucket wait, where no cooldown is known. */
  lemma WaitFree(s: Settings, run: Run, i: nat, c: Client, now: int, r: RequestId) returns (next: Run, d: Client)
    requires Reaches(s, run, i, c, now) && AtStage(c, r) && c.reqs[r].pc.stage.LoopTop?
    requires c.pool[c.reqs[r].pc.b].readyAt <= now < c.reqs[r].t.deadline
    requires c.reqs[r].spec.interaction || c.pacer.blockedUntil <= now
    ensures Reaches(s, next, i, d, now) && Goes(run, next, i, 0)
    ensures d == WithReq(c, r, At(c.reqs[r], c.reqs[r].pc.b, WaitRead).(t := c.reqs[r].t.(checked := now)))
  {
    hide Reaches, Stepped, Goes, Pacer.CanGrant;
    var q, b := c.reqs[r], c.reqs[r].pc.b;
    assert KnownDelay(c, q, b, now) == 0;
    var mid, m := TakeLocal(s, run, i, c, now, r, Own(b, WaitCtx));
    assert m.reqs[r] == At(q, b, WaitCtx);
    next, d := TakeLocal(s, mid, i, m, now, r, Own(b, WaitRead));
    GoesTwice(run, mid, next, i, 0, 0);
    assert m.reqs[r := d.reqs[r]] == c.reqs[r := d.reqs[r]];
  }

  lemma WaitDone(s: Settings, run: Run, i: nat, c: Client, now: int, r: RequestId) returns (next: Run, d: Client)
    requires Reaches(s, run, i, c, now) && AtStage(c, r) && c.reqs[r].pc.stage.WaitRead?
    requires c.pool[c.reqs[r].pc.b].readyAt <= now
    ensures Reaches(s, next, i, d, now) && Goes(run, next, i, 0)
    ensures d == WithReq(c, r, At(c.reqs[r], c.reqs[r].pc.b, if c.reqs[r].spec.interaction then Ready else PaceEnter))
  {
    hide Reaches, Stepped, Goes, KnownDelay, TooLate, Pacer.CanGrant;
    var q, b := c.reqs[r], c.reqs[r].pc.b;
    var mid, m := TakeLocal(s, run, i, c, now, r, Own(b, WaitEval(c.pool[b].readyAt)));
    assert m.reqs[r] == At(q, b, WaitEval(c.pool[b].readyAt));
    next, d := TakeLocal(s, mid, i, m, now, r, Own(b, if q.spec.interaction then Ready else PaceEnter));
    GoesTwice(run, mid, next, i, 0, 0);
    assert m.reqs[r := d.reqs[r]] == c.reqs[r := d.reqs[r]];
  }

  /** The whole bucket wait. */
  lemma WaitThrough(s: Settings, run: Run, i: nat, c: Client, now: int, r: RequestId) returns (next: Run, d: Client)
    requires Reaches(s, run, i, c, now) && AtStage(c, r) && c.reqs[r].pc.stage.LoopTop?
    requires c.pool[c.reqs[r].pc.b].readyAt <= now < c.reqs[r].t.deadline
    requires c.reqs[r].spec.interaction || c.pacer.blockedUntil <= now
    ensures Reaches(s, next, i, d, now) && Goes(run, next, i, 0)
    ensures d == WithReq(c, r, At(c.reqs[r], c.reqs[r].pc.b, if c.reqs[r].spec.interaction then Ready else PaceEnter)
                                 .(t := c.reqs[r].t.(checked := now)))
  {
    hide Reaches, Goes;
    var mid, m := WaitFree(s, run, i, c, now, r);
    next, d := WaitDone(s, mid, i, m, now, r);
    GoesTwice(run, mid, next, i, 0, 0);
    assert m.reqs[r := d.reqs[r]] == c.reqs[r := d.reqs[r]];
  }

  lemma SendNow(s: Settings, run: Run, i: nat, c: Client, now: int, r: RequestId) returns (next: Run, d: Client)
    requires Reaches(s, run, i, c, now) && AtStage(c, r) && c.reqs[r].pc.stage.Ready?
    ensures Reaches(s, next, i, d, now) && Goes(run, next, i, 0) && Stepped(s, run, next, i, Send(r))
    ensures d == DoSend(c, r, now)
  {
    hide Reaches, Stepped, Goes;
    next, d := TakePlain(s, run, i, c, now, Send(r));
  }

  // ----- one response -----

  lemma Receive(s: Settings, run: Run, i: nat, c: Client, now: int, r: RequestId, response: RateLimit.Response)
    returns (next: Run, d: Client)
    requires Reaches(s, run, i, c, now) && AtStage(c, r) && c.reqs[r].pc.stage.InFlight? && response.status != 401
    requires InTime(s.proto, c.reqs[r], now)
    ensures Reaches(s, next, i, d, now) && Goes(run, next, i, 0)
    ensures d == WithReq(c, r, At(c.reqs[r], c.reqs[r].pc.b,
                                  Marked(RateLimit.Observe(response, c.reqs[r].spec.interaction, now)))
                                 .(t := c.reqs[r].t.(checked := now, observed := now)))
  {
    hide Reaches, Stepped, Goes, KnownDelay, TooLate, Pacer.CanGrant, RateLimit.Observe;
    var q, b := c.reqs[r], c.reqs[r].pc.b;
    var mid, m := TakeLocal(s, run, i, c, now, r, Own(b, Got(response)));
    assert m.reqs[r] == At(q, b, Got(response)).(t := q.t.(checked := now));
    next, d := TakePlain(s, mid, i, m, now, Mark(r));
    GoesTwice(run, mid, next, i, 0, 0);
    assert m.reqs[r := d.reqs[r]] == c.reqs[r := d.reqs[r]];
  }

  /** The global part of a response, whatever it is. */
  lemma BlockAll(s: Settings, run: Run, i: nat, c: Client, now: int, r: RequestId) returns (next: Run, d: Client)
    requires Reaches(s, run, i, c, now) && AtStage(c, r) && c.reqs[r].pc.stage.Marked? && c.reqs[r].t.observed <= now
    ensures Reaches(s, next, i, d, now) && Goes(run, next, i, 0) && Stepped(s, run, next, i, BlockGlobal(r, now))
    ensures d == DoBlockGlobal(c, r, now)
  {
    hide Reaches, Stepped, Goes;
    next, d := TakePlain(s, run, i, c, now, BlockGlobal(r, now));
  }

  lemma BlockOne(s: Settings, run: Run, i: nat, c: Client, now: int, r: RequestId) returns (next: Run, d: Client)
    requires Reaches(s, run, i, c, now) && AtStage(c, r) && c.reqs[r].pc.stage.GlobalDone?
    requires c.reqs[r].t.observed <= now
    ensures Reaches(s, next, i, d, now) && Goes(run, next, i, 0) && Stepped(s, run, next, i, BlockBucket(r, now))
    ensures d == DoBlockBucket(c, r, now)
  {
    hide Reaches, Stepped, Goes, DoBlockBucket;
    next, d := TakePlain(s, run, i, c, now, BlockBucket(r, now));
  }

  // ----- leaving -----

  lemma DropEnabled(s: Settings, run: Run, i: nat, c: Client, now: int, r: RequestId)
    requires Reaches(s, run, i, c, now) && r in c.reqs && Wants(c.reqs[r]).None? && Drops(c.reqs[r]).Some?
    ensures Enabled(s.proto, c, now, Drop(r))
  {
    hide Reaches, Structure.Inv, Enabled, Deadlock.NextStage, Deadlock.SentBefore, Drops, Wants;
    ClientIsSound(s, run, i, c, now);
    NotWaiting(c, r);
    HeldGate(s, c, now, r);
  }

  lemma HeldGate(s: Settings, c: Client, now: int, r: RequestId)
    requires Structure.Inv(c) && r in c.reqs && r in c.table.agents && Drops(c.reqs[r]).Some?
    ensures Enabled(s.proto, c, now, Drop(r))
  {
    hide GateTable.Inv, Structure.Counters, Structure.Links;
    Structure.LinkOf(c, r);
  }

  /** A gate is given back. */
  lemma GiveBack(s: Settings, run: Run, i: nat, c: Client, now: int, r: RequestId) returns (next: Run, d: Client)
    requires Reaches(s, run, i, c, now) && r in c.reqs && Wants(c.reqs[r]).None? && Drops(c.reqs[r]).Some?
    ensures Reaches(s, next, i, d, now) && Goes(run, next, i, 0) && Same(c, d) && d.maps == c.maps && d.pool == c.pool
    ensures d.reqs == c.reqs[r := AfterDrop(c.reqs[r])] && d.active == c.active
  {
    hide Reaches, Stepped, Goes, GateTable.Release, Enabled, Drops, Wants, AfterDrop;
    DropEnabled(s, run, i, c, now, r);
    next, d := TakePlain(s, run, i, c, now, Drop(r));
  }

  /** `release` of the bucket, on the way to `next`. */
  lemma LetGo(s: Settings, run: Run, i: nat, c: Client, now: int, r: RequestId) returns (next: Run, d: Client)
    requires Reaches(s, run, i, c, now) && r in c.reqs && c.reqs[r].pc.Uncounting? && !c.reqs[r].pc.next.Migrate?
    requires c.reqs[r].pc.b < |c.pool|
    ensures Reaches(s, next, i, d, now) && Goes(run, next, i, 0) && Same(c, d) && d.maps == c.maps
    ensures d.active == c.active
    ensures d.reqs == c.reqs[r := c.reqs[r].(pc := if c.reqs[r].pc.next.Again? then Start else Finished)]
    ensures var b := c.reqs[r].pc.b;
            d.pool == c.pool[b := c.pool[b].(active := c.pool[b].active - 1)]
  {
    hide Reaches, Stepped, Goes;
    var b := c.reqs[r].pc.b;
    var mid, m := TakePlain(s, run, i, c, now, Uncount(r));
    assert m.reqs[r] == c.reqs[r].(pc := Unlocking(b, c.reqs[r].pc.next));
    next, d := GiveBack(s, mid, i, m, now, r);
    GoesTwice(run, mid, next, i, 0, 0);
    assert m.reqs[r := d.reqs[r]] == c.reqs[r := d.reqs[r]];
  }

  // ----- the pacer -----

  /** An ordinary request whose client has yet to be validated becomes the validator. */
  lemma Validate(s: Settings, run: Run, i: nat, c: Client, now: int, r: RequestId) returns (next: Run, d: Client)
    requires Reaches(s, run, i, c, now) && AtStage(c, r) && c.reqs[r].pc.stage.Fresh? && !c.reqs[r].spec.interaction
    requires c.validity == Unknown && r in c.table.agents && c.table.agents[r].wait == GateTable.NotWaiting
    requires GateTable.ValidationGate in c.table.gates && c.table.gates[GateTable.ValidationGate] == FifoGate.Free()
    ensures Reaches(s, next, i, d, now) && Goes(run, next, i, 0)
    ensures d.reqs == c.reqs[r := At(c.reqs[r], c.reqs[r].pc.b, ValAcquired)]
    ensures d.maps == c.maps && d.pool == c.pool && Same(c, d) && d.active == c.active
    ensures r in d.table.agents && d.table.agents[r].wait == GateTable.NotWaiting
    ensures GateTable.PacerGate in c.table.gates ==>
              GateTable.PacerGate in d.table.gates
              && d.table.gates[GateTable.PacerGate] == c.table.gates[GateTable.PacerGate]
  {
    hide Reaches, Goes, KnownDelay, TooLate, Pacer.CanGrant;
    var q, b := c.reqs[r], c.reqs[r].pc.b;
    var mid, m := TakeLocal(s, run, i, c, now, r, Own(b, ValEnter));
    assert m.reqs[r] == At(q, b, ValEnter);
    next, d := EnterFree(s, mid, i, m, now, r);
    GoesTwice(run, mid, next, i, 0, 0);
    assert m.reqs[r := d.reqs[r]] == c.reqs[r := d.reqs[r]];
  }

  /** The validity is still unknown once the gate is taken, so the request goes on as the validator. */
  lemma BecomeValidator(s: Settings, run: Run, i: nat, c: Client, now: int, r: RequestId) returns (next: Run, d: Client)
    requires Reaches(s, run, i, c, now) && AtStage(c, r) && c.reqs[r].pc.stage.ValAcquired? && c.validity == Unknown
    ensures Reaches(s, next, i, d, now) && Goes(run, next, i, 0)
    ensures d == WithReq(c, r, At(c.reqs[r], c.reqs[r].pc.b, LoopTop).(validating := true))
  {
    hide Reaches, Goes, KnownDelay, TooLate, Pacer.CanGrant;
    var q, b := c.reqs[r], c.reqs[r].pc.b;
    var run1, c1 := TakeLocal(s, run, i, c, now, r, Own(b, ValRecheck));
    assert c1.reqs[r] == At(q, b, ValRecheck);
    var run2, c2 := TakeLocal(s, run1, i, c1, now, r, Own(b, ValidityGate));
    GoesTwice(run, run1, run2, i, 0, 0);
    assert c2.reqs[r] == At(q, b, ValidityGate).(validating := true);
    next, d := TakeLocal(s, run2, i, c2, now, r, Own(b, LoopTop));
    GoesTwice(run, run2, next, i, 0, 0);
    assert d.reqs == c.reqs[r := d.reqs[r]];
  }

  /** The pacer's gate is free. */
  lemma ReachPacer(s: Settings, run: Run, i: nat, c: Client, now: int, r: RequestId) returns (next: Run, d: Client)
    requires Reaches(s, run, i, c, now) && AtStage(c, r) && c.reqs[r].pc.stage.PaceEnter? && now < c.reqs[r].t.deadline
    requires r in c.table.agents && c.table.agents[r].wait == GateTable.NotWaiting
    requires GateTable.PacerGate in c.table.gates && c.table.gates[GateTable.PacerGate] == FifoGate.Free()
    ensures Reaches(s, next, i, d, now) && Goes(run, next, i, 0)
    ensures d.reqs == c.reqs[r := At(c.reqs[r], c.reqs[r].pc.b, PaceTry).(t := c.reqs[r].t.(checked := now))]
    ensures d.maps == c.maps && d.pool == c.pool && Same(c, d) && d.active == c.active
  {
    hide Reaches, Goes, KnownDelay, TooLate, Pacer.CanGrant;
    var q, b := c.reqs[r], c.reqs[r].pc.b;
    var mid, m := EnterFree(s, run, i, c, now, r);
    assert m.reqs[r] == At(q, b, PaceAcquired);
    next, d := CheckPacer(s, mid, i, m, now, r);
    GoesTwice(run, mid, next, i, 0, 0);
    assert d.reqs == c.reqs[r := d.reqs[r]];
  }

  /** The deadline check before a look at the pacer's schedule. */
  lemma CheckPacer(s: Settings, run: Run, i: nat, c: Client, now: int, r: RequestId) returns (next: Run, d: Client)
    requires Reaches(s, run, i, c, now) && AtStage(c, r) && c.reqs[r].pc.stage.PaceAcquired?
    requires now < c.reqs[r].t.deadline
    ensures Reaches(s, next, i, d, now) && Goes(run, next, i, 0)
    ensures d == WithReq(c, r, At(c.reqs[r], c.reqs[r].pc.b, PaceTry).(t := c.reqs[r].t.(checked := now)))
  {
    hide Reaches, Goes, KnownDelay, TooLate, Pacer.CanGrant;
    var q, b := c.reqs[r], c.reqs[r].pc.b;
    var mid, m := TakeLocal(s, run, i, c, now, r, Own(b, PaceLoop));
    assert m.reqs[r] == At(q, b, PaceLoop);
    next, d := TakeLocal(s, mid, i, m, now, r, Own(b, PaceTry));
    GoesTwice(run, mid, next, i, 0, 0);
    assert m.reqs[r := d.reqs[r]] == c.reqs[r := d.reqs[r]];
  }

  /** The request looks at the schedule while it allows a grant. */
  lemma PaceNow(s: Settings, run: Run, i: nat, c: Client, now: int, r: RequestId) returns (next: Run, d: Client)
    requires Reaches(s, run, i, c, now) && AtStage(c, r) && c.reqs[r].pc.stage.PaceTry? && Pacer.CanGrant(c.pacer, now)
    ensures Reaches(s, next, i, d, now) && Goes(run, next, i, 0) && Stepped(s, run, next, i, Pace(r))
    ensures d == WithReq(c, r, At(c.reqs[r], c.reqs[r].pc.b, PaceDrop(true))).(pacer := Pacer.Grant(c.pacer, now))
  {
    hide Reaches, Stepped, Goes;
    next, d := TakePlain(s, run, i, c, now, Pace(r));
  }
}
