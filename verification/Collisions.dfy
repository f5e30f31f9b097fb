/** What happens when a route's hash is also the hash of a bucket name: a run in which a cooldown is orphaned and the
    retry that should wait for it is sent at once, as often as one likes.

Request 0 is retried on route 0. In each round a new request takes a fresh route; request 0 is answered by a 429 whose
bucket name hashes to that route, so that it merges into the other's bucket; the other is answered and learns its own
name, which drops the entry; and request 0, aliased to nothing, makes a new bucket without a cooldown.
 */
module Collisions {
  import opened Base
  import opened ClientMaps
  import opened Protocol
  import opened ProxyMachine
  import opened Theorems
  import opened Scenario
  import RateLimit
  import Retry
  import Pacer

  /** Strings hash to their length; requests may stay for a second. */
  function Demo(slots: nat): Settings {
    Settings(Config(SECOND, 100 * MILLISECOND, false, (x: string) => |x|), 1, 1, slots, 1, (id: Identity) => 0)
  }

  function Name(k: nat): string {
    seq(k, (i: nat) => 'a')
  }

  /** A response that carries nothing but a bucket name which hashes to `k`. */
  function Named(status: int, k: nat): RateLimit.Response
    requires k > 1
  {
    RateLimit.Response(status,
                       Some(RateLimit.Headers(Name(k - 1), RateLimit.NoScope, RateLimit.NoFlag, RateLimit.NoCount,
                                              RateLimit.Missing, RateLimit.Missing, RateLimit.Missing)))
  }

  lemma LimitedPlan(k: nat)
    requires k > 1
    ensures RateLimit.Observe(Named(429, k), true, 0)
            == RateLimit.Plan(false, true, None, Some(Retry.PAUSE), Name(k - 1))
  {
    assert Name(k - 1)[0] == 'a';
  }

  lemma FinePlan(k: nat)
    requires k > 1
    ensures RateLimit.Observe(Named(200, k), true, 0) == RateLimit.Plan(false, false, None, None, Name(k - 1))
  {
    assert Name(k - 1)[0] == 'a';
  }

  lemma NameHash(slots: nat, q: Request, k: nat)
    requires k > 1 && q.pc.Own? && q.pc.stage.BucketDone? && q.pc.stage.plan.name == Name(k - 1) && q.spec.major == ""
    ensures Canonical(Demo(slots).proto, q) == k && q.pc.stage.plan.name != ""
  {
    assert |Name(k - 1) + "\0" + ""| == k;
  }

  // ----- the maps over one round -----

  /** All keys are below `k`. */
  predicate Below(m: Maps<nat>, k: Key) {
    && (forall x :: x in m.buckets ==> x < k)
    && (forall x :: x in m.aliases ==> x < k && m.aliases[x] < k)
  }

  /** A fresh route is unknown, and its bucket goes under its own key. */
  lemma FreshRoute(m: Maps<nat>, k: Key, b: nat)
    requires Below(m, k)
    ensures Resolve(m, k).None? && Create(m, k, b).buckets == m.buckets[k := b] && Create(m, k, b).aliases == m.aliases
  {
  }

  /** Route 0 learns the fresh route's key and merges. */
  lemma FirstLesson(m: Maps<nat>, k: Key, b: nat, c: nat)
    requires Below(m, k) && k > 1
    ensures var made := Create(m, k, c);
            var merged := ClientMaps.Learn(made, 0, k, b);
            && LearnTarget(made, k, b) == c
            && Below(merged, k + 1) && merged.buckets == merged.buckets[k := c] && k in merged.buckets
            && 0 in merged.aliases && merged.aliases[0] == k
  {
    FreshRoute(m, k, c);
  }

  /** Then the fresh route learns another key and drops its entry. Route 0 is left without a bucket. */
  lemma SecondLesson(m: Maps<nat>, k: Key, c: nat)
    requires Below(m, k + 1) && k > 1 && k in m.buckets && m.buckets[k] == c && 0 in m.aliases && m.aliases[0] == k
    ensures var moved := ClientMaps.Learn(m, k, k + 1, c);
            && LearnTarget(m, k + 1, c) == c && Resolve(moved, 0).None? && KeyOf(moved, 0) == k
            && Below(moved, k + 2)
  {
    assert DropsRoute(m, k, k + 1, c);
  }

  lemma Remake(m: Maps<nat>, k: Key, c: nat)
    requires Below(m, k + 2) && Resolve(m, 0).None? && KeyOf(m, 0) == k
    ensures Below(Create(m, 0, c), k + 2)
  {
  }

  // ----- what a request does, at instant zero and for the anonymous client -----

  /** The proxy is open and serves the anonymous client by its first object. */
  ghost predicate Home(run: Run) {
    |run.states| > 0 &&
    var p := Last(run);
    && !p.closed && p.evictor == Away && ANONYMOUS in p.states && p.states[ANONYMOUS] == 0
    && |p.objs| > 0 && p.objs[0].id == ANONYMOUS
  }

  lemma HomeKept(run: Run, next: Run, slots: nat)
    requires Home(run) && Goes(run, next, 0, slots)
    ensures Home(next)
  {
  }

  /** The request after one more attempt was sent. */
  function Launched(q: Request): Request
    requires q.pc.Own?
  {
    At(q, q.pc.b, InFlight).(t := q.t.(checked := 0, attempts := q.t.attempts + 1, lastSent := 0))
  }

  /** The last event of the run sends a request on this route, at instant zero. */
  ghost predicate JustSent(s: Settings, run: Run, route: Key) {
    |run.events| > 0 && |run.states| == |run.events| + 1 && run.states[|run.events| - 1].now == 0 &&
    Sends(s, run.states[|run.events| - 1], run.events[|run.events| - 1], ANONYMOUS, route)
  }

  /** From the top of the attempt loop to Discord. */
  lemma Launch(s: Settings, run: Run, c: Client, r: RequestId) returns (next: Run, d: Client)
    requires Reaches(s, run, 0, c, 0) && Home(run) && AtStage(c, r) && c.reqs[r].pc.stage.LoopTop?
    requires c.reqs[r].spec.interaction && c.pool[c.reqs[r].pc.b].readyAt <= 0 < c.reqs[r].t.deadline
    ensures Reaches(s, next, 0, d, 0) && Goes(run, next, 0, 0) && JustSent(s, next, c.reqs[r].spec.route)
    ensures d == WithReq(c, r, Launched(c.reqs[r]))
  {
    hide IsRun, Possible;
    var mid, m := WaitThrough(s, run, 0, c, 0, r);
    next, d := SendNow(s, mid, 0, m, 0, r);
    GoesTwice(run, mid, next, 0, 0, 0);
    SentIt(s, mid, next, m, r);
    assert m.reqs[r := d.reqs[r]] == c.reqs[r := d.reqs[r]];
  }

  lemma SentIt(s: Settings, run: Run, next: Run, c: Client, r: RequestId)
    requires Reaches(s, run, 0, c, 0) && Home(run) && Stepped(s, run, next, 0, Send(r)) && r in c.reqs
    ensures JustSent(s, next, c.reqs[r].spec.route)
  {
    hide IsRun, Possible;
  }

  /** Some event of the run, before the end, blocks the route until `until`. */
  ghost predicate WasBlocked(s: Settings, run: Run, route: Key, until: int) {
    exists j :: 0 <= j < |run.events| && j < |run.states|
                && Blocks(s, run.states[j], run.events[j], ANONYMOUS, route, until)
  }

  lemma StillBlocked(s: Settings, run: Run, next: Run, route: Key, until: int)
    requires WasBlocked(s, run, route, until) && Extends(run, next)
    ensures WasBlocked(s, next, route, until)
  {
    hide Blocks;
    var j :| 0 <= j < |run.events| && j < |run.states|
             && Blocks(s, run.states[j], run.events[j], ANONYMOUS, route, until);
    assert next.states[j] == run.states[j] && next.events[j] == run.events[j];
  }

  lemma BlockedIt(s: Settings, run: Run, next: Run, c: Client, r: RequestId)
    requires Reaches(s, run, 0, c, 0) && Home(run) && Stepped(s, run, next, 0, BlockBucket(r, 0))
    requires AtStage(c, r) && c.reqs[r].pc.stage.GlobalDone? && c.reqs[r].pc.stage.plan.bucket.Some?
    ensures WasBlocked(s, next, c.reqs[r].spec.route, c.reqs[r].pc.stage.plan.bucket.value)
  {
    hide IsRun, Possible;
    assert Blocks(s, next.states[|run.events|], next.events[|run.events|], ANONYMOUS, c.reqs[r].spec.route,
                  c.reqs[r].pc.stage.plan.bucket.value);
  }

  /** The request once a response has been dealt with, up to learning its bucket name. */
  ghost predicate Observed(q: Request, n: Request, plan: RateLimit.Plan) {
    && q.pc.Own? && n.pc == Own(q.pc.b, BucketDone(plan)) && n.spec == q.spec && n.validating == q.validating
    && n.t.attempts == q.t.attempts && n.t.deadline == q.t.deadline
  }

  /** A response without a global part, up to learning. */
  lemma Answer(s: Settings, run: Run, c: Client, r: RequestId, response: RateLimit.Response)
    returns (next: Run, d: Client)
    requires Reaches(s, run, 0, c, 0) && Home(run) && AtStage(c, r) && c.reqs[r].pc.stage.InFlight?
    requires c.reqs[r].spec.interaction && RateLimit.Observe(response, true, 0).global.None? && response.status != 401
    requires InTime(s.proto, c.reqs[r], 0)
    ensures var plan := RateLimit.Observe(response, true, 0);
            var q := c.reqs[r];
            && Reaches(s, next, 0, d, 0) && Goes(run, next, 0, 0) && r in d.reqs
            && d.reqs == c.reqs[r := d.reqs[r]] && Observed(q, d.reqs[r], plan)
            && d.maps == c.maps && d.validity == c.validity && d.anonymous == c.anonymous
            && d.pool == (if plan.bucket.Some? then c.pool[q.pc.b := Blocked(c.pool[q.pc.b], plan.bucket.value)]
                          else c.pool)
            && (plan.bucket.Some? ==> WasBlocked(s, next, q.spec.route, plan.bucket.value))
  {
    hide Reaches, Stepped, Goes, RateLimit.Observe, WasBlocked, Blocked, Home;
    var run1, c1 := Receive(s, run, 0, c, 0, r, response);
    HomeKept(run, run1, 0);
    var run2, c2 := BlockAll(s, run1, 0, c1, 0, r);
    GoesTwice(run, run1, run2, 0, 0, 0);
    HomeKept(run, run2, 0);
    next, d := BlockOne(s, run2, 0, c2, 0, r);
    GoesTwice(run, run2, next, 0, 0, 0);
    if c2.reqs[r].pc.stage.plan.bucket.Some? {
      BlockedIt(s, run2, next, c2, r);
    }
    assert c2.reqs == c.reqs[r := c2.reqs[r]];
    assert d.reqs == c.reqs[r := d.reqs[r]];
  }

  lemma LearnNow(s: Settings, run: Run, c: Client, r: RequestId, k: Key) returns (next: Run, d: Client)
    requires Reaches(s, run, 0, c, 0) && AtStage(c, r) && c.reqs[r].pc.stage.BucketDone? && Room(s, run, 2)
    requires c.reqs[r].pc.stage.plan.name != "" && Canonical(s.proto, c.reqs[r]) == k
    ensures var q := c.reqs[r];
            var b := q.pc.b;
            var t := LearnTarget(c.maps, k, b);
            && Reaches(s, next, 0, d, 0) && Goes(run, next, 0, 2)
            && d.maps == ClientMaps.Learn(c.maps, q.spec.route, k, b)
            && d.reqs == c.reqs[r := At(q, b, Learned(q.pc.stage.plan, t))]
            && d.pool == (if t != b && t < |c.pool| then c.pool[t := Blocked(c.pool[t], c.pool[b].readyAt)] else c.pool)
            && Same(c, d)
  {
    hide Reaches, Goes, Canonical, ClientMaps.Learn, Blocked;
    next, d := TakeLearn(s, run, 0, c, 0, r);
  }

  /** From a 429 that has been learned from back to `acquireBucket`. */
  lemma GoAgain(s: Settings, run: Run, c: Client, r: RequestId) returns (next: Run, d: Client)
    requires Reaches(s, run, 0, c, 0) && AtStage(c, r) && c.reqs[r].pc.stage.Learned? && !c.reqs[r].validating
    requires c.reqs[r].pc.stage.plan.limited && c.reqs[r].pc.stage.seenBucket < |c.pool| && c.reqs[r].spec.interaction
    requires Max(0, c.pool[c.reqs[r].pc.stage.seenBucket].readyAt) + s.proto.upstreamTimeout < c.reqs[r].t.deadline
    ensures Reaches(s, next, 0, d, 0) && Goes(run, next, 0, 0)
    ensures d == WithReq(c, r, c.reqs[r].(pc := Uncounting(c.reqs[r].pc.b, Again)))
  {
    hide Reaches, Goes, Pacer.CanGrant, Pacer.RetryAfter;
    var q, b := c.reqs[r], c.reqs[r].pc.b;
    var plan, t := q.pc.stage.plan, q.pc.stage.seenBucket;
    var mid, m := TakeLocal(s, run, 0, c, 0, r, Own(b, Decided(plan, t)));
    assert m.reqs[r] == At(q, b, Decided(plan, t));
    assert KnownDelay(m, m.reqs[r], t, 0) == Max(0, c.pool[t].readyAt);
    next, d := TakeLocal(s, mid, 0, m, 0, r, Uncounting(b, Again));
    GoesTwice(run, mid, next, 0, 0, 0);
    assert m.reqs[r := d.reqs[r]] == c.reqs[r := d.reqs[r]];
  }

  // ----- the requests over one round -----

  /** Request 0 is with Discord for the `n`-th time, in bucket `b`. */
  ghost predicate Flying(c: Client, b: nat, n: nat) {
    && 0 in c.reqs && b < |c.pool| && c.pool[b].readyAt <= 0
    && var q := c.reqs[0];
       && q.pc == Own(b, InFlight) && q.spec == Spec(0, "", true, 0) && !q.validating
       && q.t.attempts == n && q.t.deadline == SECOND && q.t.lastSent == 0
  }

  ghost predicate Racing(c: Client, n: nat) {
    && c.validity == Valid && n > 0
    && (exists b: nat :: Flying(c, b, n))
    && (forall r :: r in c.reqs ==> r < n)
    && Below(c.maps, 2 * n)
  }

  /** A request on a fresh route is sent. */
  lemma SendFresh(slots: nat, run: Run, c: Client, r: RequestId, k: Key) returns (next: Run, d: Client)
    requires Reaches(Demo(slots), run, 0, c, 0) && Home(run) && r !in c.reqs && c.validity == Valid
    requires Resolve(c.maps, k).None? && Room(Demo(slots), run, 2)
    ensures Reaches(Demo(slots), next, 0, d, 0) && Goes(run, next, 0, 1) && d.validity == Valid
    ensures d.maps == Create(c.maps, k, |c.pool|) && d.pool == c.pool + [Bucket(ZERO_TIME, 1)]
    ensures r in d.reqs && d.reqs == c.reqs[r := d.reqs[r]]
    ensures var q := d.reqs[r];
            && q.pc == Own(|c.pool|, InFlight) && q.spec == Spec(k, "", true, 0) && !q.validating
            && q.t.attempts == 1 && q.t.deadline == SECOND && q.t.lastSent == 0
  {
    hide Reaches, Goes, Room, Resolve, Create, JustSent;
    var s := Demo(slots);
    var run1, c1 := Arrive(s, run, 0, c, 0, ANONYMOUS, r, k, true);
    RoomLeft(s, run, run1, 0, 0, 2);
    HomeKept(run, run1, 0);
    var run2, c2 := AcquireNew(s, run1, 0, c1, 0, r);
    GoesTwice(run, run1, run2, 0, 0, 1);
    var run3, c3 := PassGate(s, run2, 0, c2, 0, r);
    GoesTwice(run, run2, run3, 0, 1, 0);
    HomeKept(run, run3, 1);
    next, d := Launch(s, run3, c3, r);
    GoesTwice(run, run3, next, 0, 1, 0);
    assert d.reqs == c.reqs[r := d.reqs[r]];
  }

  /** Request 0 gets a 429 that names the fresh route's key, merges into its bucket and starts over. */
  lemma TurnAround(slots: nat, run: Run, c: Client, b: nat, k: Key, n: nat) returns (next: Run, d: Client)
    requires Reaches(Demo(slots), run, 0, c, 0) && Home(run) && Flying(c, b, n) && k > 1 && Room(Demo(slots), run, 2)
    requires k in c.maps.buckets && c.maps.buckets[k] != b && c.maps.buckets[k] < |c.pool|
    requires c.pool[c.maps.buckets[k]].readyAt <= 0
    ensures Reaches(Demo(slots), next, 0, d, 0) && Goes(run, next, 0, 2) && d.validity == c.validity
    ensures WasBlocked(Demo(slots), next, 0, Retry.PAUSE)
    ensures d.maps == ClientMaps.Learn(c.maps, 0, k, b) && |d.pool| == |c.pool|
    ensures 0 in d.reqs && d.reqs == c.reqs[0 := d.reqs[0]]
    ensures var q := d.reqs[0];
            && q.pc == Start && q.spec == Spec(0, "", true, 0) && !q.validating
            && q.t.attempts == n && q.t.deadline == SECOND
  {
    hide Reaches, Room, OnlyObject, ClientMaps.Learn, Canonical, RateLimit.Observe, WasBlocked, Name, Home;
    var s := Demo(slots);
    LimitedPlan(k);
    var run1, c1 := Answer(s, run, c, 0, Named(429, k));
    NameHash(slots, c1.reqs[0], k);
    RoomLeft(s, run, run1, 0, 0, 2);
    var run2, c2 := LearnNow(s, run1, c1, 0, k);
    GoesTwice(run, run1, run2, 0, 0, 2);
    var run3, c3 := GoAgain(s, run2, c2, 0);
    GoesTwice(run, run2, run3, 0, 2, 0);
    next, d := LetGo(s, run3, 0, c3, 0, 0);
    GoesTwice(run, run3, next, 0, 2, 0);
    GoesTwice(run1, run2, run3, 0, 2, 0);
    GoesTwice(run1, run3, next, 0, 2, 0);
    StillBlocked(s, run1, next, 0, Retry.PAUSE);
    assert d.reqs == c.reqs[0 := d.reqs[0]];
  }

  /** The fresh request is answered and learns another key. */
  lemma MoveOn(slots: nat, run: Run, c: Client, r: RequestId, b: nat, k: Key) returns (next: Run, d: Client)
    requires Reaches(Demo(slots), run, 0, c, 0) && Home(run) && r in c.reqs && c.reqs[r].pc == Own(b, InFlight)
    requires b < |c.pool|
    requires c.reqs[r].spec.interaction && c.reqs[r].spec.major == "" && k > 1 && Room(Demo(slots), run, 2)
    requires InTime(Demo(slots).proto, c.reqs[r], 0)
    ensures Reaches(Demo(slots), next, 0, d, 0) && Goes(run, next, 0, 2) && d.validity == c.validity
    ensures d.maps == ClientMaps.Learn(c.maps, c.reqs[r].spec.route, k, b)
    ensures r in d.reqs && d.reqs == c.reqs[r := d.reqs[r]]
    ensures LearnTarget(c.maps, k, b) == b ==> d.pool == c.pool
  {
    hide Reaches, Room, Goes, ClientMaps.Learn, Canonical, RateLimit.Observe, WasBlocked, Name, LearnTarget, Home;
    var s := Demo(slots);
    FinePlan(k);
    var run1, c1 := Answer(s, run, c, r, Named(200, k));
    NameHash(slots, c1.reqs[r], k);
    RoomLeft(s, run, run1, 0, 0, 2);
    next, d := LearnNow(s, run1, c1, r, k);
    GoesTwice(run, run1, next, 0, 0, 2);
    assert d.reqs == c.reqs[r := d.reqs[r]];
  }

  /** Request 0 makes itself a new bucket and is sent again. */
  lemma SendAgain(slots: nat, run: Run, c: Client, n: nat) returns (next: Run, d: Client)
    requires Reaches(Demo(slots), run, 0, c, 0) && Home(run) && 0 in c.reqs && n > 0
    requires var q := c.reqs[0];
             && q.pc == Start && q.spec == Spec(0, "", true, 0) && !q.validating
             && q.t.attempts == n && q.t.deadline == SECOND
    requires Resolve(c.maps, 0).None? && Room(Demo(slots), run, 2)
    ensures Reaches(Demo(slots), next, 0, d, 0) && Goes(run, next, 0, 1) && d.validity == c.validity
    ensures JustSent(Demo(slots), next, 0) && Flying(d, |c.pool|, n + 1)
    ensures d.maps == Create(c.maps, 0, |c.pool|) && d.reqs == c.reqs[0 := d.reqs[0]]
  {
    hide Reaches, Goes, Room, Resolve, Create, JustSent, Home;
    var s := Demo(slots);
    var run1, c1 := AcquireNew(s, run, 0, c, 0, 0);
    HomeKept(run, run1, 1);
    next, d := Launch(s, run1, c1, 0);
    GoesTwice(run, run1, next, 0, 1, 0);
    assert d.reqs == c.reqs[0 := d.reqs[0]];
  }

  // ----- rounds -----

  /** The fresh request has come and request 0 has been turned around. */
  ghost predicate Turned(c: Client, b: nat, n: nat) {
    && c.validity == Valid && n > 0 && |c.pool| == b + 1
    && 0 in c.reqs && n in c.reqs && (forall r :: r in c.reqs ==> r <= n)
    && (var q := c.reqs[0];
        q.pc == Start && q.spec == Spec(0, "", true, 0) && !q.validating && q.t.attempts == n && q.t.deadline == SECOND)
    && (var q := c.reqs[n];
        q.pc == Own(b, InFlight) && q.spec == Spec(2 * n, "", true, 0) && q.t.deadline == SECOND && q.t.lastSent == 0)
    && Below(c.maps, 2 * n + 1) && 2 * n in c.maps.buckets && c.maps.buckets[2 * n] == b
    && 0 in c.maps.aliases && c.maps.aliases[0] == 2 * n
  }

  lemma HalfRound(slots: nat, run: Run, c: Client, n: nat) returns (next: Run, d: Client, b: nat)
    requires Reaches(Demo(slots), run, 0, c, 0) && Home(run) && Racing(c, n) && Room(Demo(slots), run, 3)
    ensures Reaches(Demo(slots), next, 0, d, 0) && Goes(run, next, 0, 3) && Turned(d, b, n)
    ensures WasBlocked(Demo(slots), next, 0, Retry.PAUSE)
  {
    hide Reaches, Goes, Room, Home, Resolve, Create, ClientMaps.Learn, WasBlocked, Below, LearnTarget;
    var a: nat :| Flying(c, a, n);
    b := |c.pool|;
    var k := 2 * n;
    FreshRoute(c.maps, k, b);
    RoomFor(slots, run, 3, 2);
    var run1, c1 := SendFresh(slots, run, c, n, k);
    FirstLesson(c.maps, k, a, b);
    RoomLeft(Demo(slots), run, run1, 0, 1, 2);
    HomeKept(run, run1, 1);
    next, d := TurnAround(slots, run1, c1, a, k, n);
    GoesTwice(run, run1, next, 0, 1, 2);
  }

  lemma RoomFor(slots: nat, run: Run, n: nat, m: nat)
    requires Room(Demo(slots), run, n) && m <= n
    ensures Room(Demo(slots), run, m)
  {
  }

  lemma OtherHalf(slots: nat, run: Run, c: Client, b: nat, n: nat) returns (next: Run, d: Client)
    requires Reaches(Demo(slots), run, 0, c, 0) && Home(run) && Turned(c, b, n) && Room(Demo(slots), run, 4)
    ensures Reaches(Demo(slots), next, 0, d, 0) && Goes(run, next, 0, 3) && Racing(d, n + 1)
    ensures JustSent(Demo(slots), next, 0) && Flying(d, b + 1, n + 1)
  {
    hide Reaches, Goes, Room, Home, Resolve, Create, ClientMaps.Learn, JustSent, Below, LearnTarget, KeyOf;
    SecondLesson(c.maps, 2 * n, b);
    RoomFor(slots, run, 4, 2);
    var run1, c1 := MoveOn(slots, run, c, n, b, 2 * n + 1);
    Remake(c1.maps, 2 * n, b + 1);
    RoomLeft(Demo(slots), run, run1, 0, 2, 2);
    HomeKept(run, run1, 2);
    next, d := SendAgain(slots, run1, c1, n);
    GoesTwice(run, run1, next, 0, 2, 1);
    assert Flying(d, b + 1, n + 1);
  }

  lemma Opening(slots: nat) returns (run: Run, c: Client)
    requires slots >= 2
    ensures Reaches(Demo(slots), run, 0, c, 0) && Home(run) && Racing(c, 1) && Last(run).used <= 1
  {
    hide JustSent, Pacer.New;
    var c0 := NewClient(true, 0, 1, 0);
    var run0 := Run([Initial(Demo(slots), 0)], []);
    assert Reaches(Demo(slots), run0, 0, c0, 0) && Home(run0) && Room(Demo(slots), run0, 2);
    hide Reaches, Home, Room;
    FreshRoute(c0.maps, 0, 0);
    run, c := SendFresh(slots, run0, c0, 0, 0);
    HomeKept(run0, run, 1);
    assert Flying(c, 0, 1);
  }

  lemma Round(slots: nat, run: Run, c: Client, n: nat) returns (next: Run, d: Client)
    requires Reaches(Demo(slots), run, 0, c, 0) && Home(run) && Racing(c, n) && Room(Demo(slots), run, 7)
    ensures Reaches(Demo(slots), next, 0, d, 0) && Home(next) && Goes(run, next, 0, 6) && Racing(d, n + 1)
    ensures WasBlocked(Demo(slots), next, 0, Retry.PAUSE) && JustSent(Demo(slots), next, 0)
  {
    hide Reaches, Room, OnlyObject, Home, JustSent, WasBlocked, Racing;
    RoomFor(slots, run, 7, 3);
    var mid, m, b := HalfRound(slots, run, c, n);
    HomeKept(run, mid, 3);
    RoomLeft(Demo(slots), run, mid, 0, 3, 4);
    next, d := OtherHalf(slots, mid, m, b, n);
    HomeKept(mid, next, 3);
    GoesTwice(run, mid, next, 0, 3, 3);
    StillBlocked(Demo(slots), mid, next, 0, Retry.PAUSE);
  }

  /** Where hashes collide, no number bounds the attempts of a request: for every `n` there is a run that has sent a
      request more than `n` times at one instant, although it was answered by a 429 with a cooldown of 50 ms. */
  lemma {:induction false} CollisionsRetryWithoutBound(slots: nat, n: nat) returns (run: Run, c: Client)
    requires slots >= 6 * n + 2
    ensures Accepted(Demo(slots)) && Reaches(Demo(slots), run, 0, c, 0) && Home(run) && Racing(c, n + 1)
    ensures Last(run).used <= 6 * n + 1
    ensures n > 0 ==> WasBlocked(Demo(slots), run, 0, Retry.PAUSE) && JustSent(Demo(slots), run, 0)
    ensures 0 in c.reqs && c.reqs[0].t.attempts == n + 1
    decreases n
  {
    hide IsRun, JustSent, WasBlocked, Racing, Home, OnlyObject;
    if n == 0 {
      run, c := Opening(slots);
    } else {
      var run0, c0 := CollisionsRetryWithoutBound(slots, n - 1);
      run, c := Round(slots, run0, c0, n);
    }
    FlyingAttempts(c, n + 1);
  }

  lemma FlyingAttempts(c: Client, n: nat)
    requires Racing(c, n)
    ensures 0 in c.reqs && c.reqs[0].t.attempts == n
  {
    hide Below;
  }

  /** A cooldown is lost: a run in which a response blocks a route until 50 ms, and a later attempt on that route is
      sent before. */
  lemma CollisionLosesCooldown() returns (run: Run, j: nat, k: nat)
    ensures Accepted(Demo(8)) && IsRun(Demo(8), run) && j < k < |run.events|
    ensures Blocks(Demo(8), run.states[j], run.events[j], ANONYMOUS, 0, Retry.PAUSE)
    ensures Sends(Demo(8), run.states[k], run.events[k], ANONYMOUS, 0) && run.states[k].now < Retry.PAUSE
  {
    hide IsRun, Blocks, Sends;
    var c;
    run, c := CollisionsRetryWithoutBound(8, 1);
    var i :| 0 <= i < |run.events| && i < |run.states| &&
             Blocks(Demo(8), run.states[i], run.events[i], ANONYMOUS, 0, Retry.PAUSE);
    j, k := i, |run.events| - 1;
    NotBoth(Demo(8), run.states[i], run.events[i]);
  }

  lemma NotBoth(s: Settings, p: Proxy, e: Event)
    ensures Blocks(s, p, e, ANONYMOUS, 0, Retry.PAUSE) ==> !Sends(s, p, e, ANONYMOUS, 0)
  {
    hide Possible;
  }

  /** The run breaks the bound on attempts. */
  lemma CollisionsBreakTheBound() returns (run: Run, c: Client)
    ensures Accepted(Demo(134)) && Reaches(Demo(134), run, 0, c, 0) && 0 in c.reqs
    ensures c.reqs[0].t.attempts > Demo(134).proto.queueTimeout / Retry.PAUSE + 2
  {
    hide IsRun, Racing, WasBlocked, JustSent;
    run, c := CollisionsRetryWithoutBound(134, 22);
  }
}
