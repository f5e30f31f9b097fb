/** What happens when a request raises the global cooldown while an evictor tests its client, and the time of last use
    reads as more than the idle timeout ago: a run in which the cooldown is lost. It shows that the hypothesis of
    `GlobalCooldownNeverLost` is exact.

A bot's first request ends at instant zero and reads the clock. The second is admitted at instant `stale`; only then
does the first store what it has read. The second is answered by a global 429 `bound` later. Just before the cooldown is
recorded an evictor finds the client without one. The request ends, the evictor finds no active request and a time of
last use that is more than the idle timeout ago, and evicts the client. The bot's next request gets a new client and is
granted a global permit at once.
 */
module LateBlock {
  import opened Base
  import opened ClientMaps
  import opened Protocol
  import opened ProxyMachine
  import opened Theorems
  import opened Scenario
  import opened GlobalCooldown
  import GateTable
  import FifoGate
  import Pacer
  import RateLimit
  import Structure

  const BOT: Identity := Identity(Bot, 0)

  /** Requests may take a minute longer than `bound`; `limit` is the global limit of every identity. */
  function Demo(bound: nat, limit: nat): Settings {
    Settings(Config(bound + MINUTE, bound + MINUTE, false, (x: string) => |x|), 1, 1, 10, 1, (id: Identity) => limit)
  }

  /** A global 429 that names no delay. */
  const GLOBAL_LIMIT: RateLimit.Response := RateLimit.Response(429, Some(
    RateLimit.Headers("", RateLimit.GlobalScope, RateLimit.NoFlag, RateLimit.NoCount, RateLimit.Missing,
                      RateLimit.Missing, RateLimit.Missing)))

  const GLOBAL_PLAN: RateLimit.Plan := RateLimit.Plan(false, true, Some(0), None, "")

  lemma GlobalPlan(now: int)
    ensures RateLimit.Observe(GLOBAL_LIMIT, false, now) == GLOBAL_PLAN
  {
  }

  function OneBucket(): Maps<nat> {
    Maps(map[0 := 0], map[])
  }

  /** The bot's client is object `i`, and nobody is testing. */
  ghost predicate Serves(run: Run, i: nat) {
    |run.states| > 0 &&
    var p := Last(run); !p.closed && BOT in p.states && p.states[BOT] == i && i < |p.objs| && p.objs[i].id == BOT
  }

  lemma ServesOn(run: Run, next: Run, i: nat, slots: nat, stale: nat)
    requires Serves(run, i) && GoesLate(run, next, i, slots, stale)
    ensures Serves(next, i)
  {
  }

  // ----- a request of a client that has no bucket yet, up to the pacer -----

  /** The bot's client has one request, the validator, which is about to look at the pacer's schedule. */
  ghost predicate AtPacer(c: Client, limit: nat, used: int, now: int, deadline: int) {
    && c.reqs.Keys == {0} && c.maps == OneBucket() && c.pool == [Bucket(ZERO_TIME, 1)]
    && c.validity == Unknown && !c.anonymous && c.pacer == Pacer.New(limit, ZERO_TIME)
    && c.lastUsed == used && c.active == 1
    && var q := c.reqs[0];
       && q.pc == Own(0, PaceTry) && q.spec == Spec(0, "", false, now) && q.validating && q.t.deadline == deadline
       && q.t.observed <= now
  }

  /** A client that has done nothing but see requests off. */
  function Unbusy(limit: nat, made: int, ending: seq<int>): Client {
    NewClient(false, limit, 1, made).(ending := ending)
  }

  lemma FirstBucket(s: Settings, run: Run, i: nat, made: int, ending: seq<int>, now: int) returns (next: Run, d: Client)
    requires Reaches(s, run, i, Unbusy(s.limitOf(BOT), made, ending), now) && Serves(run, i)
    requires Last(run).evictor == Away
    requires Room(s, run, 2)
    ensures Reaches(s, next, i, d, now) && Goes(run, next, i, 1) && d.ending == ending
    ensures d.maps == OneBucket() && d.pool == [Bucket(ZERO_TIME, 1)] && d.active == 1
    ensures d.reqs == map[0 := Request(Spec(0, "", false, now), Own(0, Fresh), false,
                                       Timing(now, now + s.proto.queueTimeout, now, 0, now, now, now, false))]
    ensures d.validity == Unknown && !d.anonymous && d.pacer == Pacer.New(s.limitOf(BOT), ZERO_TIME)
    ensures d.lastUsed == now
    ensures 0 in d.table.agents && d.table.agents[0].wait == GateTable.NotWaiting
  {
    hide Reaches, Goes, Room, Pacer.New;
    var c := Unbusy(s.limitOf(BOT), made, ending);
    var run1, c1 := Arrive(s, run, i, c, now, BOT, 0, 0, false);
    RoomLeft(s, run, run1, i, 0, 2);
    assert |c1.pool| == 0 && c1.maps == Empty() && c1.reqs[0].spec.route == 0;
    next, d := AcquireNew(s, run1, i, c1, now, 0);
    GoesTwice(run, run1, next, i, 0, 1);
  }

  /** Whoever is the only one to have come so far finds the validation gate and the pacer's gate free. */
  lemma GatesFree(s: Settings, run: Run, i: nat, c: Client, now: int)
    requires Reaches(s, run, i, c, now) && c.reqs.Keys == {0}
    requires c.reqs[0].pc.Own? && !HoldsValidation(c.reqs[0]) && !HoldsPacer(c.reqs[0].pc)
    requires 0 in c.table.agents && c.table.agents[0].wait == GateTable.NotWaiting
    ensures GateTable.ValidationGate in c.table.gates && c.table.gates[GateTable.ValidationGate] == FifoGate.Free()
    ensures GateTable.PacerGate in c.table.gates && c.table.gates[GateTable.PacerGate] == FifoGate.Free()
  {
    hide Reaches, Structure.Inv;
    ClientIsSound(s, run, i, c, now);
    GateFree(c, GateTable.ValidationGate);
    GateFree(c, GateTable.PacerGate);
  }

  lemma GateFree(c: Client, g: GateTable.GateId)
    requires Structure.Inv(c) && c.reqs.Keys == {0} && g !in HoldsOf(c.reqs[0]) && !g.BucketGate?
    requires 0 in c.table.agents && c.table.agents[0].wait == GateTable.NotWaiting
    ensures g in c.table.gates && c.table.gates[g] == FifoGate.Free()
  {
    hide Structure.Counters, Structure.Pointers, HoldsOf, Structure.Shaped;
    assert !GateTable.Owns(c.table.agents[0], g);
    assert c.table.agents.Keys == {0};
    GateTable.HeldIffOneOwner(c.table, g);
  }

  lemma ToPacer(s: Settings, run: Run, i: nat, c: Client, now: int) returns (next: Run, d: Client)
    requires Reaches(s, run, i, c, now) && c.reqs.Keys == {0} && |c.pool| == 1 && c.pool[0].readyAt <= now
    requires c.reqs[0].pc == Own(0, Fresh) && !c.reqs[0].spec.interaction && !c.reqs[0].validating
    requires c.validity == Unknown && c.pacer.blockedUntil <= now < c.reqs[0].t.deadline
    requires 0 in c.table.agents && c.table.agents[0].wait == GateTable.NotWaiting
    ensures Reaches(s, next, i, d, now) && Goes(run, next, i, 0)
    ensures d.reqs.Keys == {0} && d.maps == c.maps && d.pool == c.pool && Same(c, d) && d.active == c.active
    ensures var q, n := c.reqs[0], d.reqs[0];
            n.pc == Own(0, PaceTry) && n.spec == q.spec && n.validating && n.t == q.t.(checked := now)
  {
    hide Reaches, Goes;
    GatesFree(s, run, i, c, now);
    var run1, c1 := Validate(s, run, i, c, now, 0);
    var run2, c2 := BecomeValidator(s, run1, i, c1, now, 0);
    GoesTwice(run, run1, run2, i, 0, 0);
    var run3, c3 := WaitThrough(s, run2, i, c2, now, 0);
    GoesTwice(run, run2, run3, i, 0, 0);
    next, d := ReachPacer(s, run3, i, c3, now, 0);
    GoesTwice(run, run3, next, i, 0, 0);
  }

  lemma FirstRequest(s: Settings, run: Run, i: nat, made: int, ending: seq<int>, now: int)
    returns (next: Run, d: Client)
    requires Reaches(s, run, i, Unbusy(s.limitOf(BOT), made, ending), now) && Serves(run, i)
    requires Last(run).evictor == Away
    requires Room(s, run, 2) && s.proto.queueTimeout > 0 && now >= 0
    ensures Reaches(s, next, i, d, now) && Goes(run, next, i, 1) && d.ending == ending
    ensures AtPacer(d, s.limitOf(BOT), now, now, now + s.proto.queueTimeout)
  {
    hide Reaches, Goes, Room;
    var mid, m := FirstBucket(s, run, i, made, ending, now);
    next, d := ToPacer(s, mid, i, m, now);
    GoesTwice(run, mid, next, i, 1, 0);
  }

  /** The same, and then the request that ended at instant zero stores its reading. */
  lemma SecondRequest(s: Settings, run: Run, i: nat, now: int) returns (next: Run, d: Client)
    requires Reaches(s, run, i, Unbusy(s.limitOf(BOT), 0, [0]), now) && Serves(run, i) && Last(run).evictor == Away
    requires Room(s, run, 2) && s.proto.queueTimeout > 0 && now >= 0
    ensures Reaches(s, next, i, d, now) && GoesLate(run, next, i, 1, now)
    ensures AtPacer(d, s.limitOf(BOT), 0, now, now + s.proto.queueTimeout)
  {
    hide Reaches, GoesLate, Goes, Room;
    var mid, m := FirstRequest(s, run, i, 0, [0], now);
    next, d := TakeTouch(s, mid, i, m, now, 0, 0);
    GoesThenLate(run, mid, next, i, 1, now);
  }

  lemma GoesThenLate(a: Run, b: Run, c: Run, i: nat, x: nat, stale: nat)
    requires Goes(a, b, i, x) && GoesLate(b, c, i, 0, stale)
    ensures GoesLate(a, c, i, x, stale)
  {
    hide Stores;
    StoresTwice(a, b, c, 0, stale);
  }

  // ----- the attempt -----

  /** The request is with Discord. */
  ghost predicate Away1(c: Client, sent: int, deadline: int) {
    && c.reqs.Keys == {0} && c.maps == OneBucket() && c.pool == [Bucket(ZERO_TIME, 1)]
    && c.validity == Unknown && !c.anonymous && c.pacer.blockedUntil == ZERO_TIME && c.lastUsed == 0 && c.active == 1
    && var q := c.reqs[0];
       && q.pc == Own(0, InFlight) && q.spec == Spec(0, "", false, sent) && q.validating && q.t.deadline == deadline
       && q.t.lastSent == sent
  }

  lemma SendIt(s: Settings, run: Run, i: nat, c: Client, now: int, deadline: int) returns (next: Run, d: Client)
    requires Reaches(s, run, i, c, now) && AtPacer(c, s.limitOf(BOT), 0, now, deadline) && now >= 0
    ensures Reaches(s, next, i, d, now) && Goes(run, next, i, 0) && Away1(d, now, deadline)
  {
    hide Reaches, Goes, Stepped;
    var run1, c1 := PaceNow(s, run, i, c, now, 0);
    var run2, c2 := GiveBack(s, run1, i, c1, now, 0);
    GoesTwice(run, run1, run2, i, 0, 0);
    next, d := SendNow(s, run2, i, c2, now, 0);
    GoesTwice(run, run2, next, i, 0, 0);
  }

  /** The request has taken note of the global 429 and is about to record it. */
  ghost predicate Noticed(c: Client, now: int) {
    && c.reqs.Keys == {0} && c.maps == OneBucket() && c.pool == [Bucket(ZERO_TIME, 1)]
    && !c.anonymous && c.pacer.blockedUntil == ZERO_TIME && c.lastUsed == 0 && c.active == 1
    && var q := c.reqs[0];
       && q.pc == Own(0, Marked(GLOBAL_PLAN)) && !q.spec.interaction && q.validating && q.t.observed == now
  }

  lemma NoticeIt(s: Settings, run: Run, i: nat, c: Client, sent: int, now: int, deadline: int)
    returns (next: Run, d: Client)
    requires Reaches(s, run, i, c, now) && Away1(c, sent, deadline)
    requires now < deadline && now < sent + s.proto.upstreamTimeout
    ensures Reaches(s, next, i, d, now) && Goes(run, next, i, 0) && Noticed(d, now)
  {
    hide Reaches, Goes, RateLimit.Observe;
    GlobalPlan(now);
    next, d := Receive(s, run, i, c, now, 0, GLOBAL_LIMIT);
  }

  /** The cooldown is recorded. */
  lemma RecordIt(s: Settings, run: Run, i: nat, c: Client, now: int) returns (next: Run, d: Client)
    requires Reaches(s, run, i, c, now) && Serves(run, i) && Noticed(c, now)
    ensures Reaches(s, next, i, d, now) && Goes(run, next, i, 0)
    ensures |next.events| == |run.events| + 1 && |next.states| > |run.events|
    ensures BlocksAll(s, next.states[|run.events|], next.events[|run.events|], BOT, now + RateLimit.MINIMUM_RETRY_DELAY)
    ensures d.reqs.Keys == {0} && d.maps == c.maps && d.pool == c.pool && d.lastUsed == 0 && d.active == 1
    ensures d.reqs[0].pc == Own(0, GlobalDone(GLOBAL_PLAN)) && d.reqs[0].validating && d.reqs[0].t.observed == now
  {
    hide IsRun, Possible;
    next, d := BlockAll(s, run, i, c, now, 0);
  }

  /** The response blocks no bucket and teaches no name. */
  lemma LearnNothing(s: Settings, run: Run, i: nat, c: Client, now: int) returns (next: Run, d: Client)
    requires Reaches(s, run, i, c, now) && Room(s, run, 2)
    requires c.reqs.Keys == {0} && |c.pool| == 1
    requires c.reqs[0].pc == Own(0, GlobalDone(GLOBAL_PLAN)) && c.reqs[0].t.observed == now
    ensures Reaches(s, next, i, d, now) && Goes(run, next, i, 2)
    ensures d == WithReq(c, 0, At(c.reqs[0], 0, Learned(GLOBAL_PLAN, 0)))
  {
    hide Reaches, Goes, Room, Stepped, Net, Canonical;
    var run1, c1 := BlockOne(s, run, i, c, now, 0);
    RoomLeft(s, run, run1, i, 0, 2);
    assert c1 == WithReq(c, 0, At(c.reqs[0], 0, BucketDone(GLOBAL_PLAN)));
    next, d := TakeLearn(s, run1, i, c1, now, 0);
    GoesTwice(run, run1, next, i, 0, 2);
    assert c1.reqs[0 := d.reqs[0]] == c.reqs[0 := d.reqs[0]];
  }

  /** The validator publishes its verdict. */
  lemma PublishIt(s: Settings, run: Run, i: nat, c: Client, now: int) returns (next: Run, d: Client)
    requires Reaches(s, run, i, c, now) && c.reqs.Keys == {0} && |c.pool| == 1
    requires c.reqs[0].pc == Own(0, Learned(GLOBAL_PLAN, 0)) && c.reqs[0].validating
    ensures Reaches(s, next, i, d, now) && Goes(run, next, i, 0)
    ensures d.reqs == map[0 := At(c.reqs[0], 0, Decided(GLOBAL_PLAN, 0)).(validating := false)]
    ensures d.maps == c.maps && d.lastUsed == c.lastUsed && d.active == c.active && d.pool == c.pool
  {
    hide Reaches, Goes;
    var mid, m := StoreVerdict(s, run, i, c, now);
    next, d := GiveBack(s, mid, i, m, now, 0);
    GoesTwice(run, mid, next, i, 0, 0);
  }

  lemma StoreVerdict(s: Settings, run: Run, i: nat, c: Client, now: int) returns (next: Run, d: Client)
    requires Reaches(s, run, i, c, now) && c.reqs.Keys == {0} && |c.pool| == 1
    requires c.reqs[0].pc == Own(0, Learned(GLOBAL_PLAN, 0)) && c.reqs[0].validating
    ensures Reaches(s, next, i, d, now) && Goes(run, next, i, 0)
    ensures d.reqs == map[0 := At(c.reqs[0], 0, ValStored(GLOBAL_PLAN, 0))]
    ensures d.maps == c.maps && d.lastUsed == c.lastUsed && d.active == c.active && d.pool == c.pool
  {
    hide Reaches, Goes, Stepped, LocalStep, Drops, Wants;
    next, d := TakePlain(s, run, i, c, now, Verdict(0));
  }

  /** The request lets its bucket go and leaves. */
  lemma EndIt(s: Settings, run: Run, i: nat, c: Client, now: int) returns (next: Run, d: Client)
    requires Reaches(s, run, i, c, now) && c.reqs.Keys == {0} && |c.pool| == 1
    requires c.reqs[0].pc == Own(0, Decided(GLOBAL_PLAN, 0)) && !c.reqs[0].validating
    ensures Reaches(s, next, i, d, now) && Goes(run, next, i, 0)
    ensures d.reqs == map[] && d.maps == c.maps && d.lastUsed == c.lastUsed && d.active == c.active - 1
    ensures d.pool == [c.pool[0].(active := c.pool[0].active - 1)]
  {
    hide Reaches, Goes, Stepped, KnownDelay, TooLate, Pacer.CanGrant;
    var run1, c1 := TakeLocal(s, run, i, c, now, 0, Uncounting(0, Finish));
    assert c1.reqs[0].pc == Uncounting(0, Finish) && c1.reqs.Keys == {0};
    var run2, c2 := LetGo(s, run1, i, c1, now, 0);
    GoesTwice(run, run1, run2, i, 0, 0);
    next, d := Leave(s, run2, i, c2, now);
    GoesTwice(run, run2, next, i, 0, 0);
  }

  /** From the recorded cooldown to the end of the request. */
  lemma Over(s: Settings, run: Run, i: nat, c: Client, now: int) returns (next: Run, d: Client)
    requires Reaches(s, run, i, c, now) && Room(s, run, 2) && c.reqs.Keys == {0} && |c.pool| == 1
    requires c.reqs[0].pc == Own(0, GlobalDone(GLOBAL_PLAN)) && c.reqs[0].t.observed == now && c.reqs[0].validating
    ensures Reaches(s, next, i, d, now) && Goes(run, next, i, 2)
    ensures d.reqs == map[] && d.maps == c.maps && d.lastUsed == c.lastUsed && d.active == c.active - 1
    ensures d.pool == [c.pool[0].(active := c.pool[0].active - 1)]
  {
    hide Reaches, Goes, Room;
    var run1, c1 := LearnNothing(s, run, i, c, now);
    var run2, c2 := PublishIt(s, run1, i, c1, now);
    GoesTwice(run, run1, run2, i, 2, 0);
    next, d := EndIt(s, run2, i, c2, now);
    GoesTwice(run, run2, next, i, 2, 0);
  }

  lemma Leave(s: Settings, run: Run, i: nat, c: Client, now: int) returns (next: Run, d: Client)
    requires Reaches(s, run, i, c, now) && c.reqs.Keys == {0} && c.reqs[0].pc.Finished?
    ensures Reaches(s, next, i, d, now) && Goes(run, next, i, 0)
    ensures d.reqs == map[] && d.maps == c.maps && d.lastUsed == c.lastUsed && d.active == c.active - 1
    ensures d.pool == c.pool
    ensures d.pacer == c.pacer
  {
    hide Reaches, Goes, Stepped;
    next, d := TakePlain(s, run, i, c, now, End(0));
  }

  // ----- the evictor -----

  /** An event that is not a step of a client. */
  lemma TakeEvent(s: Settings, run: Run, e: Event) returns (next: Run)
    requires IsRun(s, run) && |run.states| == |run.events| + 1 && Possible(s, Last(run), e) && !e.Admit? && !e.Step?
    ensures IsRun(s, next) && Extends(run, next) && Stores(run, next, 0) && Last(next) == After(s, Last(run), e)
    ensures |next.states| == |next.events| + 1 == |run.events| + 2 && next.events[|run.events|] == e
  {
    hide IsRun, Possible, After;
    next := Append(s, run, e);
  }

  /** The evictor has started on the bot's client, at this instant, and found no cooldown. */
  lemma LookForCooldown(s: Settings, run: Run, i: nat, c: Client, now: int) returns (next: Run)
    requires Reaches(s, run, i, c, now) && Serves(run, i) && Last(run).evictor == Away && c.pacer.blockedUntil <= now
    ensures Reaches(s, next, i, c, now) && Extends(run, next) && Stores(run, next, 0)
    ensures Last(next) == Last(run).(evictor := Testing(BOT, now, Unblocked))
  {
    hide IsRun, DoEvict;
    var mid := TakeEvent(s, run, Test(BOT, now));
    next := TakeEvent(s, mid, Probe);
    StoresTwice(run, mid, next, 0, 0);
  }

  /** It finds the client inactive, unused and quiet, and evicts it. */
  lemma EvictIt(s: Settings, run: Run, i: nat, c: Client, now: int) returns (next: Run)
    requires Reaches(s, run, i, c, now) && Serves(run, i) && Last(run).evictor == Testing(BOT, now, Unblocked)
    requires c.active == 0 && now - c.lastUsed > IDLE_TIMEOUT && BucketsQuiet(c, now)
    ensures IsRun(s, next) && |next.states| == |next.events| + 1 && Extends(run, next) && Stores(run, next, 0)
    ensures Last(next) == DoEvict(Last(run), BOT).(evictor := Away)
  {
    hide IsRun, DoEvict, BucketsQuiet, GlobalCooldown.FreshEvent;
    var run1 := TakeEvent(s, run, Probe);
    assert Last(run1) == Last(run).(evictor := Testing(BOT, now, Inactive));
    var run2 := TakeEvent(s, run1, Probe);
    StoresTwice(run, run1, run2, 0, 0);
    assert Last(run2) == Last(run).(evictor := Testing(BOT, now, Unused));
    var run3 := TakeEvent(s, run2, Probe);
    StoresTwice(run, run2, run3, 0, 0);
    assert Last(run3) == Last(run).(evictor := Testing(BOT, now, Quiet));
    next := TakeEvent(s, run3, Probe);
    StoresTwice(run, run3, next, 0, 0);
    assert Last(next) == DoEvict(Last(run3), BOT).(evictor := Away);
    EvictIgnoresEvictor(Last(run), Last(run3).evictor);
  }

  lemma EvictIgnoresEvictor(p: Proxy, e: Evictor)
    requires BOT in p.states && p.states[BOT] < |p.objs|
    ensures DoEvict(p.(evictor := e), BOT).(evictor := Away) == DoEvict(p, BOT).(evictor := Away)
  {
  }

  // ----- the requests of a run and their ages -----

  /** No request was admitted before `start`. */
  ghost predicate Since(p: Proxy, start: int) {
    && start <= p.now
    && forall i, r :: 0 <= i < |p.objs| && r in p.objs[i].client.reqs ==> p.objs[i].client.reqs[r].spec.began >= start
  }

  lemma StepBegan(cfg: Config, c: Client, now: int, l: Label, r: RequestId)
    requires Enabled(cfg, c, now, l) && r in Apply(cfg, c, now, l).reqs
    ensures var n := Apply(cfg, c, now, l).reqs[r];
            if r in c.reqs then n.spec.began == c.reqs[r].spec.began else n.spec.began == now
  {
    if Structure.Moves(l) {
      hide Apply, Enabled, Structure.Moved;
      Structure.MoveFrame(cfg, c, now, l);
      Structure.MoveRequest(cfg, c, now, l);
      MovedBegan(c, now, l, c.reqs[l.r], Structure.Mover(cfg, c, now, l));
    } else {
      hide LocalStep, Wants, Drops, DoLook, DoLearn, DoEnter, DoCount, DoUncount, DoMark, DoSend, DoBlockGlobal,
        DoBlockBucket, DoVerdict, GateTable.Release, LocalNext, OnGot, OnFail, AfterDrop;
    }
  }

  lemma StepSince(s: Settings, p: Proxy, i: nat, l: Label, start: int)
    requires Since(p, start) && i < |p.objs| && Enabled(s.proto, p.objs[i].client, p.now, l)
    ensures Since(DoStep(s, p, i, l), start)
  {
    hide Enabled, Apply, Charge, Record;
    var q := DoStep(s, p, i, l);
    forall j, r | 0 <= j < |q.objs| && r in q.objs[j].client.reqs
      ensures q.objs[j].client.reqs[r].spec.began >= start
    {
      if j == i {
        StepBegan(s.proto, p.objs[i].client, p.now, l, r);
      }
    }
  }

  lemma EventSince(s: Settings, p: Proxy, e: Event, start: int)
    requires Since(p, start) && Possible(s, p, e)
    ensures Since(After(s, p, e), start) && p.now <= After(s, p, e).now
  {
    hide Enabled, DoStep, Answered, BucketsQuiet, Pacer.New;
    match e
    case Admit(id, r, route, major, interaction, at) =>
      StepSince(s, p, p.states[id], Begin(r, route, major, interaction, at), start);
      SameClock(s, p, p.states[id], Begin(r, route, major, interaction, at));
    case Step(i, l) =>
      StepSince(s, p, i, l, start);
      SameClock(s, p, i, l);
    case _ =>
  }

  lemma SameClock(s: Settings, p: Proxy, i: nat, l: Label)
    requires i < |p.objs| && Enabled(s.proto, p.objs[i].client, p.now, l)
    ensures DoStep(s, p, i, l).now == p.now
  {
    hide Enabled, Apply, Charge, Record;
  }

  lemma {:induction false} AlwaysSince(s: Settings, run: Run, j: nat, k: nat, start: int)
    requires IsRun(s, run) && j <= k < |run.states| && Since(run.states[j], start)
    ensures Since(run.states[k], start) && run.states[j].now <= run.states[k].now
    decreases k - j
  {
    hide Possible, After, Since, Initial;
    if j < k {
      AlwaysSince(s, run, j, k - 1, start);
      EventSince(s, run.states[k - 1], run.events[k - 1], start);
    }
  }

  // ----- the whole story -----

  /** The number of events in the prologue. */
  const PROLOGUE: nat := 5

  predicate Mild(e: Event) {
    e.Step? ==> !e.l.BlockGlobal? && !e.l.Pace?
  }

  /** The run starts with a prologue in which no cooldown is raised and no permit granted, and after which every request
      is gone. */
  ghost predicate Opens(run: Run, stale: nat) {
    && |run.states| == |run.events| + 1 && |run.events| >= PROLOGUE && Since(run.states[PROLOGUE], stale)
    && forall k :: 0 <= k < PROLOGUE ==> Mild(run.events[k])
  }

  /** The run opens like that, and no time of last use is stored more than `stale` late. */
  ghost predicate Starts(run: Run, stale: nat) {
    Opens(run, stale) && PromptStores(run, stale)
  }

  lemma StartsOn(run: Run, next: Run, late: nat, stale: nat)
    requires Starts(run, stale) && Extends(run, next) && Stores(run, next, late) && late <= stale
    ensures Starts(next, stale)
  {
    hide FreshEvent, Since, Mild;
    forall k | 0 <= k < |next.events|
      ensures FreshEvent(next.states[k], next.events[k], stale)
    {
      if k >= |run.events| {
        Fresher(next.states[k], next.events[k], late, stale);
      }
    }
  }

  lemma StartsAlong(run: Run, next: Run, i: nat, slots: nat, stale: nat)
    requires Starts(run, stale) && GoesLate(run, next, i, slots, stale)
    ensures Starts(next, stale)
  {
    hide Stores, OnlyObject, Starts;
    StartsOn(run, next, stale, stale);
  }

  lemma NoneAdmitted(p: Proxy)
    requires forall i :: 0 <= i < |p.objs| ==> p.objs[i].client.reqs == map[]
    ensures Since(p, p.now)
  {
  }

  /** The proxy is open, nobody is testing, the bot has no client and there is room. */
  ghost predicate Vacant(s: Settings, run: Run, now: int, used: int) {
    && IsRun(s, run) && |run.states| == |run.events| + 1
    && var p := Last(run);
       p.now == now && !p.closed && p.evictor == Away && p.states.Keys == {ANONYMOUS} && p.used <= used
  }

  lemma CanMake(s: Settings, run: Run, now: int, used: int)
    requires Vacant(s, run, now, used) && s.maxClients > 0
    ensures Possible(s, Last(run), Make(BOT))
  {
    hide IsRun;
    assert Named(Last(run).states) == {};
  }

  lemma MakeBot(bound: nat, limit: nat, run: Run, now: int, used: int) returns (next: Run, i: nat)
    requires Vacant(Demo(bound, limit), run, now, used)
    ensures Reaches(Demo(bound, limit), next, i, Unbusy(limit, now, []), now) && Serves(next, i)
    ensures Extends(run, next) && Stores(run, next, 0)
    ensures Last(next).evictor == Away && Last(next).used <= used && Last(next).states.Keys == {ANONYMOUS, BOT}
  {
    hide IsRun, Pacer.New;
    CanMake(Demo(bound, limit), run, now, used);
    i := |Last(run).objs|;
    next := TakeEvent(Demo(bound, limit), run, Make(BOT));
  }

  /** A request comes to a new client and leaves it at once. */
  lemma ComeAndGo(s: Settings, run: Run, limit: nat, now: int) returns (next: Run)
    requires Reaches(s, run, 1, Unbusy(limit, now, []), now) && Serves(run, 1) && Last(run).evictor == Away
    ensures Reaches(s, next, 1, Unbusy(limit, now, [now]), now) && Goes(run, next, 1, 0)
    ensures |next.events| == |run.events| + 3
    ensures forall k :: |run.events| <= k < |next.events| ==> Mild(next.events[k])
  {
    hide IsRun, Possible, OnlyObject, Stores, Pacer.New;
    var c := Unbusy(limit, now, []);
    var run1, c1 := TakeBegin(s, run, 1, c, now, BOT, 1, 0, false);
    var run2, c2 := TakePlain(s, run1, 1, c1, now, Local(1, Finished));
    GoesTwice(run, run1, run2, 1, 0, 0);
    var d;
    next, d := TakePlain(s, run2, 1, c2, now, End(1));
    GoesTwice(run, run2, next, 1, 0, 0);
    assert d.reqs == map[] && d.table.agents == map[];
    assert d == Unbusy(limit, now, [now]);
  }

  lemma MadeFirst(bound: nat, limit: nat) returns (run: Run)
    ensures Reaches(Demo(bound, limit), run, 1, Unbusy(limit, 0, []), 0) && Serves(run, 1)
    ensures |run.events| == 1 && run.events[0] == Make(BOT) && PromptStores(run, 0)
    ensures Last(run).evictor == Away && Last(run).used == 0 && Last(run).states.Keys == {ANONYMOUS, BOT}
    ensures |Last(run).objs| == 2 && Last(run).objs[0].client == NewClient(true, limit, 1, 0)
  {
    hide Pacer.New;
    var s := Demo(bound, limit);
    var run0 := Run([Initial(s, 0)], []);
    assert Vacant(s, run0, 0, 0);
    CanMake(s, run0, 0, 0);
    run := TakeEvent(s, run0, Make(BOT));
  }

  /** The bot's client has seen a request off at instant zero, and it is instant `stale` now. */
  lemma Prologue(bound: nat, limit: nat, stale: nat) returns (run: Run)
    ensures Reaches(Demo(bound, limit), run, 1, Unbusy(limit, 0, [0]), stale) && Serves(run, 1) && Starts(run, stale)
    ensures Last(run).evictor == Away && Last(run).used <= 0 && Last(run).states.Keys == {ANONYMOUS, BOT}
    ensures |Last(run).objs| == 2 && Last(run).objs[0].client.pacer.grants == []
  {
    hide IsRun, Pacer.New, FreshEvent;
    var s := Demo(bound, limit);
    var run1 := MadeFirst(bound, limit);
    var run2 := ComeAndGo(s, run1, limit, 0);
    run := TakeEvent(s, run2, Tick(stale));
    NoneAdmitted(Last(run));
    StoresTwice(run1, run2, run, 0, 0);
    StoresAll(run1, run, stale);
    assert NewClient(true, limit, 1, 0).pacer.grants == [] by { NoGrants(limit); }
    forall k | 0 <= k < PROLOGUE
      ensures Mild(run.events[k])
    {
      assert run.events[k] == if k < 4 then run2.events[k] else Tick(stale);
    }
  }

  lemma StoresAll(run: Run, next: Run, stale: nat)
    requires PromptStores(run, 0) && Stores(run, next, 0) && Extends(run, next)
    ensures PromptStores(next, stale)
  {
    hide FreshEvent;
    forall k | 0 <= k < |next.events|
      ensures FreshEvent(next.states[k], next.events[k], stale)
    {
      Fresher(next.states[k], next.events[k], 0, stale);
    }
  }

  lemma NoGrants(limit: nat)
    ensures Pacer.New(limit, ZERO_TIME).grants == []
  {
  }

  /** The bot's second request is at Discord. */
  lemma FirstLife(bound: nat, stale: nat) returns (run: Run, c: Client)
    ensures Reaches(Demo(bound, 0), run, 1, c, stale) && Serves(run, 1) && Away1(c, stale, stale + bound + MINUTE)
    ensures Last(run).evictor == Away && Last(run).used <= 1 && Last(run).states.Keys == {ANONYMOUS, BOT}
    ensures Starts(run, stale)
  {
    hide Away1, AtPacer, OnlyObject, IsRun, Starts, Stores, Unbusy;
    var s := Demo(bound, 0);
    var run0 := Prologue(bound, 0, stale);
    var run1, c1 := SecondRequest(s, run0, 1, stale);
    run, c := SendIt(s, run1, 1, c1, stale, stale + bound + MINUTE);
    GoesOn(run0, run1, run, 1, 1, 0, stale);
    ServesOn(run0, run, 1, 1, stale);
    SameRegistry(run0, run, 1, 1, stale);
    StartsAlong(run0, run, 1, 1, stale);
  }

  lemma SameRegistry(run: Run, next: Run, i: nat, slots: nat, stale: nat)
    requires GoesLate(run, next, i, slots, stale)
    ensures Last(next).states == Last(run).states && Last(next).evictor == Last(run).evictor
    ensures Last(next).used <= Last(run).used + slots
  {
  }

  /** The response is noticed, the evictor finds no cooldown, and the cooldown is recorded. */
  lemma JustMissed(bound: nat, stale: nat) returns (run: Run, c: Client, j: nat)
    ensures var now := stale + bound;
            && Reaches(Demo(bound, 0), run, 1, c, now) && Serves(run, 1)
            && Last(run).evictor == Testing(BOT, now, Unblocked)
            && j < |run.events| && j < |run.states|
            && BlocksAll(Demo(bound, 0), run.states[j], run.events[j], BOT, now + RateLimit.MINIMUM_RETRY_DELAY)
            && c.reqs.Keys == {0} && c.reqs[0].pc == Own(0, GlobalDone(GLOBAL_PLAN)) && c.reqs[0].validating
            && c.reqs[0].t.observed == now
    ensures Last(run).used <= 1 && Last(run).states.Keys == {ANONYMOUS, BOT} && Starts(run, stale)
    ensures c.maps == OneBucket() && c.pool == [Bucket(ZERO_TIME, 1)] && c.lastUsed == 0 && c.active == 1
  {
    hide IsRun, Away1, Noticed, OnlyObject, BlocksAll, Stores, Starts, OneBucket;
    var s, now := Demo(bound, 0), stale + bound;
    var run0, c0 := FirstLife(bound, stale);
    var run1 := TakeEvent(s, run0, Tick(now));
    StartsOn(run0, run1, 0, stale);
    var run2, c2 := NoticeIt(s, run1, 1, c0, stale, now, stale + bound + MINUTE);
    ServesOn(run1, run2, 1, 0, 0);
    SameRegistry(run1, run2, 1, 0, 0);
    StartsOn(run1, run2, 0, stale);
    NoticedFree(c2, now);
    var run3 := LookForCooldown(s, run2, 1, c2, now);
    StartsOn(run2, run3, 0, stale);
    run, c := RecordIt(s, run3, 1, c2, now);
    j := |run3.events|;
    ServesOn(run3, run, 1, 0, 0);
    SameRegistry(run3, run, 1, 0, 0);
    StartsOn(run3, run, 0, stale);
  }

  lemma NoticedFree(c: Client, now: int)
    requires Noticed(c, now)
    ensures c.pacer.blockedUntil == ZERO_TIME && c.maps == OneBucket() && c.pool == [Bucket(ZERO_TIME, 1)]
  {
  }

  /** The request ends without renewing the time of last use, and the client is evicted. */
  lemma Forgotten(bound: nat, stale: nat) returns (run: Run, j: nat)
    requires bound + stale > IDLE_TIMEOUT
    ensures Vacant(Demo(bound, 0), run, stale + bound, 3) && j < |run.events| && j < |run.states|
    ensures BlocksAll(Demo(bound, 0), run.states[j], run.events[j], BOT, stale + bound + RateLimit.MINIMUM_RETRY_DELAY)
    ensures Starts(run, stale)
  {
    hide IsRun, BlocksAll, OnlyObject, OneBucket, Stores, Starts;
    var s, now := Demo(bound, 0), stale + bound;
    var run0, c0;
    run0, c0, j := JustMissed(bound, stale);
    var mid, m := Over(s, run0, 1, c0, now);
    ServesOn(run0, mid, 1, 2, 0);
    SameRegistry(run0, mid, 1, 2, 0);
    StartsOn(run0, mid, 0, stale);
    QuietBucket(m, now);
    run := EvictIt(s, mid, 1, m, now);
    Evicted(Last(mid));
    StartsOn(mid, run, 0, stale);
  }

  lemma QuietBucket(c: Client, now: int)
    requires c.maps == OneBucket() && |c.pool| == 1 && c.pool[0].active == 0 && c.pool[0].readyAt <= now
    ensures BucketsQuiet(c, now)
  {
  }

  lemma Evicted(p: Proxy)
    requires p.states.Keys == {ANONYMOUS, BOT} && p.states[BOT] < |p.objs|
    ensures var q := DoEvict(p, BOT);
            q.states.Keys == {ANONYMOUS} && q.used <= p.used && q.now == p.now && q.closed == p.closed
  {
  }

  /** In a run that opens like that and ends `bound` later, no request gets older. */
  lemma AgesWithin(s: Settings, run: Run, stale: nat, bound: nat)
    requires IsRun(s, run) && Opens(run, stale) && Last(run).now <= stale + bound
    ensures PromptBlocks(run, bound)
  {
    hide Possible, After, Initial;
    forall k | 0 <= k < |run.events|
      ensures Prompt(run.states[k], run.events[k], bound)
    {
      if k < PROLOGUE {
        assert Mild(run.events[k]);
      } else {
        AlwaysSince(s, run, PROLOGUE, k, stale);
        AlwaysSince(s, run, k, |run.events|, stale);
      }
    }
  }

  /** For every age and staleness that make up more than the idle timeout: a run in which a response blocks the bot
      globally and the bot's next request is granted a global permit before that cooldown is over. */
  lemma LateBlockLosesCooldown(bound: nat, stale: nat) returns (run: Run, j: nat, k: nat)
    requires bound + stale > IDLE_TIMEOUT
    ensures Accepted(Demo(bound, 0)) && IsRun(Demo(bound, 0), run) && |run.states| == |run.events| + 1
    ensures j < k < |run.events| && PromptBlocks(run, bound) && PromptStores(run, stale)
    ensures BlocksAll(Demo(bound, 0), run.states[j], run.events[j], BOT, stale + bound + RateLimit.MINIMUM_RETRY_DELAY)
    ensures Paces(Demo(bound, 0), run.states[k], run.events[k], BOT) && run.states[k].now == stale + bound
  {
    hide BlocksAll, OnlyObject, Possible, Unbusy, Stores, Starts, Prompt, FreshEvent;
    var s, now := Demo(bound, 0), stale + bound;
    var run0;
    run0, j := Forgotten(bound, stale);
    var run1, i := MakeBot(bound, 0, run0, now, 3);
    StartsOn(run0, run1, 0, stale);
    var run2, c2 := FirstRequest(s, run1, i, now, [], now);
    ServesOn(run1, run2, i, 1, 0);
    StartsOn(run1, run2, 0, stale);
    var c;
    run, c := PaceNow(s, run2, i, c2, now, 0);
    StartsOn(run2, run, 0, stale);
    k := |run2.events|;
    assert run.states[j] == run0.states[j] && run.events[j] == run0.events[j];
    StartedWith(run, stale);
    AgesWithin(s, run, stale, bound);
  }

  lemma StartedWith(run: Run, stale: nat)
    requires Starts(run, stale)
    ensures Opens(run, stale) && PromptStores(run, stale)
  {
  }

  // ----- the exact condition -----

  /** A global cooldown is lost in this run of an accepted proxy, whose requests raise cooldowns at an age of at most
      `bound` and whose times of last use are stored at most `stale` late. */
  ghost predicate Loses(s: Settings, run: Run, j: nat, k: nat, id: Identity, until: int, bound: nat, stale: nat) {
    && Accepted(s) && IsRun(s, run) && PromptBlocks(run, bound) && PromptStores(run, stale) && j < k < |run.events|
    && BlocksAll(s, run.states[j], run.events[j], id, until) && Paces(s, run.states[k], run.events[k], id)
    && run.states[k].now < until
  }

  /** A global cooldown can be lost if and only if the age at which requests may raise it and the staleness of the times
      of last use may make up more than the idle timeout. */
  lemma CooldownLostIff(bound: nat, stale: nat)
    ensures (exists s, run, j, k, id, until :: Loses(s, run, j, k, id, until, bound, stale))
            <==> bound + stale > IDLE_TIMEOUT
  {
    hide IsRun, BlocksAll, Paces, Prompt, PromptBlocks, PromptStores, Accepted;
    if bound + stale > IDLE_TIMEOUT {
      var run, j, k := LateBlockLosesCooldown(bound, stale);
      assert Loses(Demo(bound, 0), run, j, k, BOT, stale + bound + RateLimit.MINIMUM_RETRY_DELAY, bound, stale);
    } else if exists s, run, j, k, id, until :: Loses(s, run, j, k, id, until, bound, stale) {
      var s, run, j, k, id, until :| Loses(s, run, j, k, id, until, bound, stale);
      GlobalCooldownNeverLost(s, run, j, k, id, until, bound, stale);
      assert false;
    }
  }
}
