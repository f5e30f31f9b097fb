/** The burst-free global pacer (`pacer`): grants are spaced evenly and never fall inside a global cooldown. */
module Pacer {
  import opened Base
  import RateLimit

  const DEFAULT_LIMIT: int := 50
  const PACING_SLACK: int := 200

  /** `grants` and `blocks` are history variables: the instants at which requests were let through, and for each
      grant the cooldown that was in force when it was given. */
  datatype Pacer = Pacer(limit: int, interval: int, next: int, blockedUntil: int, grants: seq<int>, blocks: seq<int>)

  /** The pause between two grants: the second divided by the limit, rounded up, plus half a percent. */
  function Interval(limit: nat): int {
    var effective := if limit == 0 then DEFAULT_LIMIT else limit;
    var base := (SECOND + effective - 1) / effective;
    base + base / PACING_SLACK
  }

  function New(limit: nat, origin: int): Pacer {
    Pacer(if limit == 0 then DEFAULT_LIMIT else limit, Interval(limit), origin, origin, [], [])
  }

  function ReadyAt(p: Pacer): int {
    Max(p.next, p.blockedUntil)
  }

  predicate CanGrant(p: Pacer, now: int) {
    ReadyAt(p) <= now
  }

  function Grant(p: Pacer, now: int): Pacer {
    p.(next := now + p.interval, grants := p.grants + [now], blocks := p.blocks + [p.blockedUntil])
  }

  /** `blockFor`: a cooldown of at least the minimum, which never shortens one already in force. */
  function BlockFor(p: Pacer, now: int, delay: int): Pacer {
    p.(blockedUntil := Max(p.blockedUntil, now + Max(delay, RateLimit.MINIMUM_RETRY_DELAY)))
  }

  function RetryAfter(p: Pacer, now: int): int {
    Max(0, p.blockedUntil - now)
  }

  ghost predicate Inv(p: Pacer) {
    && p.limit >= 1
    && p.interval >= 1
    && p.interval * p.limit >= SECOND
    && |p.blocks| == |p.grants|
    && (forall i :: 0 < i < |p.grants| ==> p.grants[i] - p.grants[i - 1] >= p.interval)
    && (forall i :: 0 <= i < |p.grants| ==> p.grants[i] >= p.blocks[i])
    && (forall i :: 0 < i < |p.blocks| ==> p.blocks[i] >= p.blocks[i - 1])
    && (|p.grants| > 0 ==>
        p.next >= p.grants[|p.grants| - 1] + p.interval && p.blockedUntil >= p.blocks[|p.blocks| - 1])
  }

  lemma IntervalCoversSecond(limit: nat)
    ensures Interval(limit) >= 1
    ensures Interval(limit) * (if limit == 0 then DEFAULT_LIMIT else limit) >= SECOND
  {
    var n := if limit == 0 then DEFAULT_LIMIT else limit;
    var base := (SECOND + n - 1) / n;
    var q := SECOND + n - 1;
    assert q == base * n + q % n;
    assert base * n >= SECOND;
    assert base >= 1;
    assert base / PACING_SLACK >= 0;
    assert (base + base / PACING_SLACK) * n == base * n + (base / PACING_SLACK) * n;
    assert (base / PACING_SLACK) * n >= 0;
  }

  /** The interval is no longer than the pace requires: half a percent above the second divided by the limit, rounded
      up. No limit means the default limit. */
  lemma IntervalIsTight(limit: nat)
    ensures limit > 0 ==> 200 * limit * Interval(limit) <= 201 * (SECOND + limit - 1)
    ensures Interval(0) == Interval(50)
  {
    if limit > 0 {
      var q := SECOND + limit - 1;
      var base := q / limit;
      assert base * limit <= q;
      var slack := base / PACING_SLACK;
      assert slack * 200 <= base;
      assert 200 * Interval(limit) <= 201 * base;
      MulMonotone(200 * Interval(limit), 201 * base, limit);
      assert (200 * Interval(limit)) * limit == 200 * limit * Interval(limit);
      assert (201 * base) * limit == 201 * (base * limit);
    }
  }

  lemma NewIsValid(limit: nat, origin: int)
    ensures Inv(New(limit, origin))
  {
    IntervalCoversSecond(limit);
  }

  lemma GrantKeeps(p: Pacer, now: int)
    requires Inv(p) && CanGrant(p, now)
    ensures Inv(Grant(p, now))
  {
  }

  lemma BlockKeeps(p: Pacer, now: int, delay: int)
    requires Inv(p)
    ensures Inv(BlockFor(p, now, delay))
  {
  }

  lemma {:induction false} Spacing(p: Pacer, i: nat, j: nat)
    requires Inv(p) && i <= j < |p.grants|
    ensures p.grants[j] - p.grants[i] >= (j - i) * p.interval
    decreases j - i
  {
    if i < j {
      Spacing(p, i, j - 1);
      assert (j - i) * p.interval == (j - 1 - i) * p.interval + p.interval;
    }
  }

  /** Indices of the grants inside the half-open second that starts at `from`. */
  ghost function InSecond(p: Pacer, from: int): set<int> {
    set i: int | 0 <= i < |p.grants| && from <= p.grants[i] < from + SECOND
  }

  /** Two grants of the same second are fewer than `limit` grants apart. */
  lemma SameSecond(p: Pacer, i: nat, j: nat)
    requires Inv(p) && i <= j < |p.grants|
    requires p.grants[j] - p.grants[i] < SECOND
    ensures j - i < p.limit
  {
    Spacing(p, i, j);
    if j - i >= p.limit {
      MulMonotone(p.limit, j - i, p.interval);
      assert false;
    }
  }

  lemma MulMonotone(a: int, b: int, c: int)
    requires a <= b && 0 <= c
    ensures a * c <= b * c
  {
  }

  /** No rolling one-second window contains more grants than the limit. */
  lemma WindowBound(p: Pacer, from: int)
    requires Inv(p)
    ensures |InSecond(p, from)| <= p.limit
  {
    var s := InSecond(p, from);
    if |s| > 0 {
      var first := Least(s);
      forall k | k in s
        ensures first <= k < first + p.limit
      {
        SameSecond(p, first, k);
      }
      RangeSize(s, first, first + p.limit);
    }
  }

  // ----- runs -----

  datatype Event = Asked(now: int) | Blocked(now: int, delay: int)

  /** The pacer after a sequence of lock sections: a wait that finds the pacer ready is granted, any other one is not.
      */
  function After(limit: nat, origin: int, events: seq<Event>): Pacer {
    if events == [] then New(limit, origin)
    else
      var p := After(limit, origin, events[..|events| - 1]);
      match events[|events| - 1]
      case Asked(now) => if CanGrant(p, now) then Grant(p, now) else p
      case Blocked(now, delay) => BlockFor(p, now, delay)
  }

  /** For every limit and every interleaving of waits and cooldowns: each one-second window holds at most `limit`
      grants, consecutive grants are an interval apart, and no grant precedes a cooldown set before it. */
  lemma {:induction false} EveryRunIsPaced(limit: nat, origin: int, events: seq<Event>, from: int)
    ensures var p := After(limit, origin, events);
            && Inv(p)
            && p.limit == (if limit == 0 then DEFAULT_LIMIT else limit)
            && |InSecond(p, from)| <= p.limit
    decreases |events|
  {
    if events == [] {
      NewIsValid(limit, origin);
    } else {
      var p := After(limit, origin, events[..|events| - 1]);
      EveryRunIsPaced(limit, origin, events[..|events| - 1], from);
      match events[|events| - 1]
      case Asked(now) => if CanGrant(p, now) { GrantKeeps(p, now); }
      case Blocked(now, delay) => BlockKeeps(p, now, delay);
    }
    WindowBound(After(limit, origin, events), from);
  }

  /** A cooldown set at one point of a run is respected by every grant after it. */
  lemma {:induction false} CooldownHolds(limit: nat, origin: int, events: seq<Event>, i: nat, j: nat)
    requires i < j < |events| && events[i].Blocked? && events[j].Asked?
    requires CanGrant(After(limit, origin, events[..j]), events[j].now)
    ensures events[j].now >= events[i].now + Max(events[i].delay, RateLimit.MINIMUM_RETRY_DELAY)
  {
    BlockedUntilGrows(limit, origin, events, i, j);
  }

  lemma {:induction false} BlockedUntilGrows(limit: nat, origin: int, events: seq<Event>, i: nat, j: nat)
    requires i < j <= |events| && events[i].Blocked?
    ensures After(limit, origin, events[..j]).blockedUntil
            >= events[i].now + Max(events[i].delay, RateLimit.MINIMUM_RETRY_DELAY)
    decreases j
  {
    var prefix := events[..j];
    assert prefix[..j - 1] == events[..j - 1];
    assert prefix[|prefix| - 1] == events[j - 1];
    if j - 1 > i {
      BlockedUntilGrows(limit, origin, events, i, j - 1);
    }
  }

  // ----- exactly when a request is let through -----

  /** Event `j` is a wait that is granted. */
  predicate Granted(limit: nat, origin: int, events: seq<Event>, j: nat)
    requires j < |events|
  {
    events[j].Asked? && CanGrant(After(limit, origin, events[..j]), events[j].now)
  }

  /** Every cooldown set so far is over. */
  ghost predicate Unblocked(events: seq<Event>, now: int) {
    forall i :: 0 <= i < |events| && events[i].Blocked? ==>
                  now >= events[i].now + Max(events[i].delay, RateLimit.MINIMUM_RETRY_DELAY)
  }

  /** Every grant so far is an interval ago. */
  ghost predicate Due(limit: nat, origin: int, events: seq<Event>, now: int) {
    forall j: nat :: j < |events| && Granted(limit, origin, events, j) ==> now >= events[j].now + Interval(limit)
  }

  lemma {:induction false} IntervalKept(limit: nat, origin: int, events: seq<Event>)
    ensures After(limit, origin, events).interval == Interval(limit)
  {
    if events != [] {
      IntervalKept(limit, origin, events[..|events| - 1]);
    }
  }

  lemma {:induction false} BlockedUntilIff(limit: nat, origin: int, events: seq<Event>, now: int)
    ensures After(limit, origin, events).blockedUntil <= now <==> origin <= now && Unblocked(events, now)
  {
    if events != [] {
      var n := |events| - 1;
      var before := events[..n];
      BlockedUntilIff(limit, origin, before, now);
      assert events == before + [events[n]];
      if Unblocked(before, now) {
        assert forall i :: 0 <= i < n ==> events[i] == before[i];
      } else {
        var i :| 0 <= i < |before| && before[i].Blocked? &&
                 now < before[i].now + Max(before[i].delay, RateLimit.MINIMUM_RETRY_DELAY);
        assert events[i] == before[i];
      }
    }
  }

  lemma GrantedBefore(limit: nat, origin: int, events: seq<Event>, j: nat)
    requires j < |events| - 1
    ensures Granted(limit, origin, events, j) == Granted(limit, origin, events[..|events| - 1], j)
  {
    var before := events[..|events| - 1];
    assert before[..j] == events[..j] && before[j] == events[j];
  }

  lemma DueBefore(limit: nat, origin: int, events: seq<Event>, now: int)
    requires events != []
    ensures var n := |events| - 1;
            Due(limit, origin, events, now) <==>
              && Due(limit, origin, events[..n], now)
              && (Granted(limit, origin, events, n) ==> now >= events[n].now + Interval(limit))
  {
    hide Granted, Interval;
    var n := |events| - 1;
    forall j: nat | j < n
      ensures Granted(limit, origin, events, j) == Granted(limit, origin, events[..n], j)
    {
      GrantedBefore(limit, origin, events, j);
    }
  }

  lemma {:induction false} NextIff(limit: nat, origin: int, events: seq<Event>, now: int)
    ensures After(limit, origin, events).next <= now <==> origin <= now && Due(limit, origin, events, now)
  {
    if events != [] {
      var n := |events| - 1;
      var p := After(limit, origin, events[..n]);
      NextIff(limit, origin, events[..n], now);
      DueBefore(limit, origin, events, now);
      IntervalKept(limit, origin, events[..n]);
      IntervalCoversSecond(limit);
      if Granted(limit, origin, events, n) {
        NextIff(limit, origin, events[..n], events[n].now);
        if events[n].now <= now {
          LaterIsDue(limit, origin, events[..n], events[n].now, now);
        }
      }
    }
  }

  lemma LaterIsDue(limit: nat, origin: int, events: seq<Event>, now: int, later: int)
    requires Due(limit, origin, events, now) && now <= later
    ensures Due(limit, origin, events, later)
  {
    hide Granted, Interval;
  }

  /** After every sequence of waits and cooldowns, a request is let through exactly when every cooldown announced so far
      is over and every grant so far is an interval ago: never earlier and never later. */
  lemma LetThroughIff(limit: nat, origin: int, events: seq<Event>, now: int)
    requires origin <= now
    ensures CanGrant(After(limit, origin, events), now) <==>
              Unblocked(events, now) && Due(limit, origin, events, now)
  {
    hide Unblocked, Due;
    BlockedUntilIff(limit, origin, events, now);
    NextIff(limit, origin, events, now);
  }

  /** A request every interval, `n` in all. */
  function Steady(limit: nat, start: int, n: nat): seq<Event> {
    seq(n, (i: nat) => Asked(start + i * Interval(limit)))
  }

  /** The grants of a pacer that has let `n` requests through, one every `v`. */
  ghost predicate Even(p: Pacer, start: int, v: int, n: nat) {
    |p.grants| == n && forall i :: 0 <= i < n ==> p.grants[i] == start + i * v
  }

  lemma OneMore(p: Pacer, start: int, n: nat)
    requires Even(p, start, p.interval, n) && p.blockedUntil <= start && p.interval >= 1
    requires p.next <= start + n * p.interval
    ensures var now := start + n * p.interval;
            && CanGrant(p, now) && Even(Grant(p, now), start, p.interval, n + 1)
            && Grant(p, now).next == start + (n + 1) * p.interval
  {
    MulMonotone(0, n, p.interval);
    assert (n + 1) * p.interval == n * p.interval + p.interval;
  }

  /** A pacer that is asked once every interval lets every request through. */
  lemma {:induction false} SteadyIsGranted(limit: nat, origin: int, start: int, n: nat)
    requires origin <= start
    ensures var p := After(limit, origin, Steady(limit, start, n));
            && Even(p, start, Interval(limit), n)
            && p.blockedUntil == origin && p.next <= start + n * Interval(limit)
  {
    hide Interval, Even;
    if n == 0 {
      assert Even(New(limit, origin), start, Interval(limit), 0) by { NoneYet(limit, origin, start, Interval(limit)); }
    } else {
      var events, before := Steady(limit, start, n), Steady(limit, start, n - 1);
      SteadyIsGranted(limit, origin, start, n - 1);
      IntervalKept(limit, origin, before);
      IntervalCoversSecond(limit);
      assert events[..n - 1] == before;
      OneMore(After(limit, origin, before), start, n - 1);
    }
  }

  lemma NoneYet(limit: nat, origin: int, start: int, v: int)
    ensures Even(New(limit, origin), start, v, 0)
  {
  }

  /** The grants of the first second, if one comes every `v`. */
  lemma SecondIsFull(p: Pacer, start: int, v: int, n: nat)
    requires Even(p, start, v, n) && v >= 1 && n * v >= SECOND
    ensures |InSecond(p, start)| * v >= SECOND
  {
    var m := (SECOND + v - 1) / v;
    assert m * v >= SECOND && (m - 1) * v < SECOND;
    FillsUpTo(n, m, v);
    var s := InSecond(p, start);
    forall i: int
      ensures i in s <==> 0 <= i < m
    {
      if 0 <= i < n {
        Product(i, m, v);
      }
    }
    ExactRange(s, 0, m);
  }

  /** The pacer is not slower than it must be: asked once every interval, it fills the second, so that the second holds
      the limit up to the half percent of slack and the rounding of the interval. */
  lemma SteadyFillsSecond(limit: nat, origin: int, start: int, n: nat)
    requires origin <= start && n * Interval(limit) >= SECOND && limit > 0
    ensures var m := |InSecond(After(limit, origin, Steady(limit, start, n)), start)|;
            && m * Interval(limit) >= SECOND
            && 201 * (SECOND + limit - 1) * m >= 200 * limit * SECOND
  {
    hide Interval, Even, InSecond, Steady, After;
    IntervalCoversSecond(limit);
    IntervalIsTight(limit);
    SteadyIsGranted(limit, origin, start, n);
    var p := After(limit, origin, Steady(limit, start, n));
    SecondIsFull(p, start, Interval(limit), n);
    Scaled(limit, Interval(limit), |InSecond(p, start)|);
  }

  lemma FillsUpTo(n: nat, m: nat, v: int)
    requires v >= 1 && n * v >= SECOND && (m - 1) * v < SECOND
    ensures m <= n
  {
    if m > n {
      MulMonotone(n, m - 1, v);
    }
  }

  lemma Product(i: int, m: nat, v: int)
    requires v >= 1 && 0 <= i && m * v >= SECOND && (m - 1) * v < SECOND
    ensures 0 <= i * v && (i * v < SECOND <==> i < m)
  {
    MulMonotone(0, i, v);
    if i < m {
      MulMonotone(i, m - 1, v);
    } else {
      MulMonotone(m, i, v);
    }
  }

  lemma Scaled(limit: int, v: int, m: int)
    requires limit > 0 && m >= 0 && 200 * limit * v <= 201 * (SECOND + limit - 1) && m * v >= SECOND
    ensures 201 * (SECOND + limit - 1) * m >= 200 * limit * SECOND
  {
    MulMonotone(200 * limit * v, 201 * (SECOND + limit - 1), m);
    assert (200 * limit * v) * m == (200 * limit) * (m * v);
    MulMonotone(SECOND, m * v, 200 * limit);
    assert SECOND * (200 * limit) == 200 * limit * SECOND;
    assert (m * v) * (200 * limit) == (200 * limit) * (m * v);
  }

  /** The pacer object. `Valid` ties its fields to the value above; each method is one section under `mu`. */
  class PacerState {
    const limit: nat
    const interval: int
    var next: int
    var blockedUntil: int
    ghost var grants: seq<int>
    ghost var blocks: seq<int>

    ghost function View(): Pacer
      reads this
    {
      Pacer(if limit == 0 then DEFAULT_LIMIT else limit, interval, next, blockedUntil, grants, blocks)
    }

    ghost predicate Valid()
      reads this
    {
      Inv(View())
    }

    constructor (limit: nat, origin: int)
      ensures Valid() && View() == New(limit, origin)
    {
      NewIsValid(limit, origin);
      var effective := if limit == 0 then DEFAULT_LIMIT else limit;
      var step := (SECOND + effective - 1) / effective;
      step := step + step / PACING_SLACK;
      this.limit, interval := limit, step;
      next, blockedUntil := origin, origin;
      grants, blocks := [], [];
    }

    /** One pass of the loop in `waitFor`: `granted` tells whether the request may go now. */
    method TryGrant(now: int) returns (granted: bool)
      requires Valid()
      modifies this
      ensures Valid()
      ensures granted <==> now >= old(next) && now >= old(blockedUntil)
      ensures View() == if granted then Grant(old(View()), now) else old(View())
    {
      var readyAt := next;
      if blockedUntil > readyAt {
        readyAt := blockedUntil;
      }
      granted := !(readyAt > now);
      if granted {
        GrantKeeps(View(), now);
        grants, blocks := grants + [now], blocks + [blockedUntil];
        next := now + interval;
      }
    }

    method Block(now: int, delay: int)
      requires Valid()
      modifies this
      ensures Valid()
      ensures View() == BlockFor(old(View()), now, delay)
      ensures blockedUntil == Max(old(blockedUntil), now + Max(delay, RateLimit.MINIMUM_RETRY_DELAY))
      ensures next == old(next)
    {
      BlockKeeps(View(), now, delay);
      var raised := delay;
      if raised < RateLimit.MINIMUM_RETRY_DELAY {
        raised := RateLimit.MINIMUM_RETRY_DELAY;
      }
      if now + raised > blockedUntil {
        blockedUntil := now + raised;
      }
    }
  }
}
