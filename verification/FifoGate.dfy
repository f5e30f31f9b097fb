/** The bounded, cancellation-safe FIFO semaphore of capacity one (`fifoGate`).

The value type `Gate` and its three critical sections are shared by the single-gate class below and by the
table of all gates (module GateTable). A gate does not know who holds it: it keeps a flag and a queue.
 */
module FifoGate {
  import opened Base

  datatype Gate<T> = Gate(held: bool, waiters: seq<T>)

  datatype Entry = Got | Queued | Full

  function Free<T>(): Gate<T> {
    Gate(false, [])
  }

  /** First critical section of `acquire`: take a free gate, join the queue, or fail on a full queue. */
  function Enter<T>(g: Gate<T>, w: T, maxWaiters: nat): (Gate<T>, Entry) {
    if !g.held then (g.(held := true), Got)
    else if |g.waiters| >= maxWaiters then (g, Full)
    else (g.(waiters := g.waiters + [w]), Queued)
  }

  /** Critical section of a cancelled `acquire` whose waiter is still queued. */
  function Cancel<T(==)>(g: Gate<T>, w: T): Gate<T> {
    g.(waiters := Without(g.waiters, w))
  }

  /** `release`: hand the permit to the front waiter, or free the gate. */
  function Release<T>(g: Gate<T>): (Gate<T>, Option<T>) {
    if g.waiters == [] then (g.(held := false), None)
    else (g.(waiters := g.waiters[1..]), Some(g.waiters[0]))
  }

  /** The queue with one waiter taken out of it. */
  function Without<T(==)>(s: seq<T>, w: T): seq<T> {
    if s == [] then []
    else if s[0] == w then s[1..]
    else [s[0]] + Without(s[1..], w)
  }

  ghost predicate Distinct<T>(s: seq<T>) {
    forall i, j :: 0 <= i < j < |s| ==> s[i] != s[j]
  }

  lemma {:induction false} WithoutFacts<T>(s: seq<T>, w: T)
    requires Distinct(s)
    ensures Distinct(Without(s, w))
    ensures w !in Without(s, w)
    ensures forall x :: x in Without(s, w) <==> x in s && x != w
    ensures |Without(s, w)| == if w in s then |s| - 1 else |s|
  {
    if s == [] {
    } else if s[0] == w {
      assert s == [s[0]] + s[1..];
      assert w !in s[1..];
    } else {
      var rest := Without(s[1..], w);
      WithoutFacts(s[1..], w);
      assert s == [s[0]] + s[1..];
      assert s[0] !in s[1..];
      forall x
        ensures x in [s[0]] + rest <==> x in s && x != w
      {
        assert x in [s[0]] + rest <==> x == s[0] || x in rest;
        assert x in s <==> x == s[0] || x in s[1..];
      }
      assert s[0] !in rest;
    }
  }

  // ----- history of one gate: tickets are handed out in arrival order -----

  /** What happened to one gate so far. Each queued `acquire` draws the next ticket, as each allocates its own
      waiter in the source. `grants` lists the tickets that were handed the permit, oldest first. */
  datatype History = History(gate: Gate<nat>, arrivals: nat, grants: seq<nat>, cancelled: set<nat>)

  /** The tickets below `n` that were not withdrawn, in arrival order. */
  function Standing(n: nat, cancelled: set<nat>): seq<nat> {
    if n == 0 then []
    else Standing(n - 1, cancelled) + if n - 1 in cancelled then [] else [n - 1]
  }

  /** FIFO: the permits granted so far followed by the queue are exactly the standing tickets in arrival order. */
  ghost predicate Fifo(h: History) {
    && h.grants + h.gate.waiters == Standing(h.arrivals, h.cancelled)
    && (forall t :: t in h.cancelled ==> t < h.arrivals)
    && (!h.gate.held ==> h.gate.waiters == [])
  }

  function Arrive(h: History, maxWaiters: nat): (r: (History, Entry)) {
    var (gate, entry) := Enter(h.gate, h.arrivals, maxWaiters);
    (h.(gate := gate, arrivals := if entry == Queued then h.arrivals + 1 else h.arrivals), entry)
  }

  /** A cancellation that still finds its waiter in the queue; a waiter that was already granted stays granted. */
  function Withdraw(h: History, ticket: nat): History {
    if ticket in h.gate.waiters
    then h.(gate := Cancel(h.gate, ticket), cancelled := h.cancelled + {ticket})
    else h
  }

  function PassOn(h: History): History {
    var (gate, granted) := Release(h.gate);
    h.(gate := gate, grants := if granted.Some? then h.grants + [granted.value] else h.grants)
  }

  ghost predicate Increasing(s: seq<nat>) {
    forall i, j :: 0 <= i < j < |s| ==> s[i] < s[j]
  }

  lemma StandingStep(n: nat, cancelled: set<nat>)
    ensures Standing(n + 1, cancelled)
         == if n in cancelled then Standing(n, cancelled) else Standing(n, cancelled) + [n]
  {
  }

  lemma {:induction false} StandingMembers(n: nat, cancelled: set<nat>, t: nat)
    ensures t in Standing(n, cancelled) <==> t < n && t !in cancelled
  {
    if n > 0 {
      StandingMembers(n - 1, cancelled, t);
      StandingStep(n - 1, cancelled);
    }
  }

  lemma IncreasingSnoc(s: seq<nat>, n: nat)
    requires Increasing(s) && forall i :: 0 <= i < |s| ==> s[i] < n
    ensures Increasing(s + [n])
  {
  }

  lemma {:induction false} StandingIncreasing(n: nat, cancelled: set<nat>)
    ensures Increasing(Standing(n, cancelled))
  {
    if n > 0 {
      StandingIncreasing(n - 1, cancelled);
      StandingStep(n - 1, cancelled);
      var s := Standing(n - 1, cancelled);
      forall i | 0 <= i < |s|
        ensures s[i] < n - 1
      {
        StandingMembers(n - 1, cancelled, s[i]);
        assert s[i] in s;
      }
      IncreasingSnoc(s, n - 1);
    }
  }

  lemma StandingFacts(n: nat, cancelled: set<nat>)
    ensures forall t: nat :: t in Standing(n, cancelled) <==> t < n && t !in cancelled
    ensures Increasing(Standing(n, cancelled))
  {
    forall t: nat {
      StandingMembers(n, cancelled, t);
    }
    StandingIncreasing(n, cancelled);
  }

  lemma IncreasingDistinct(a: seq<nat>, b: seq<nat>)
    requires Increasing(a + b)
    ensures Distinct(b)
    ensures forall t :: t in a ==> t !in b
    ensures forall i, k :: 0 <= i < |a| && 0 <= k < |b| ==> a[i] < b[k]
  {
    var all := a + b;
    forall i, k | 0 <= i < |a| && 0 <= k < |b|
      ensures a[i] < b[k]
    {
      assert all[i] == a[i] && all[|a| + k] == b[k];
    }
    forall i, j | 0 <= i < j < |b|
      ensures b[i] != b[j]
    {
      assert all[|a| + i] == b[i] && all[|a| + j] == b[j];
    }
  }

  lemma {:induction false} WithoutAppend(a: seq<nat>, b: seq<nat>, t: nat)
    requires t !in a
    ensures Without(a + b, t) == a + Without(b, t)
  {
    if a == [] {
      assert a + b == b;
    } else {
      assert (a + b)[1..] == a[1..] + b;
      WithoutAppend(a[1..], b, t);
    }
  }

  lemma {:induction false} WithoutAbsent(a: seq<nat>, t: nat)
    requires t !in a
    ensures Without(a, t) == a
  {
    if a != [] {
      WithoutAbsent(a[1..], t);
    }
  }

  lemma NoneStanding(cancelled: set<nat>, t: nat)
    ensures Standing(0, cancelled + {t}) == Without(Standing(0, cancelled), t) == []
  {
  }

  /** Withdrawing a ticket removes it from the standing ones and nothing else. */
  lemma {:induction false} StandingWithdraw(n: nat, cancelled: set<nat>, t: nat)
    ensures Standing(n, cancelled + {t}) == Without(Standing(n, cancelled), t)
  {
    hide Increasing, Standing, Without;
    if n == 0 {
      NoneStanding(cancelled, t);
    } else {
      var m := n - 1;
      StandingWithdraw(m, cancelled, t);
      StandingFacts(m, cancelled);
      var s, u := Standing(m, cancelled), Without(Standing(m, cancelled), t);
      StandingStep(m, cancelled);
      StandingStep(m, cancelled + {t});
      WithoutSnoc(s, m, t);
      assert u + [] == u;
    }
  }

  lemma WithoutSnoc(s: seq<nat>, last: nat, t: nat)
    requires last !in s
    ensures Without(s + [last], t) == Without(s, t) + if last == t then [] else [last]
  {
    if t in s {
      WithoutHead(s, [last], t);
    } else {
      WithoutAppend(s, [last], t);
      WithoutAbsent(s, t);
      assert [last][1..] == [];
    }
  }

  lemma {:induction false} WithoutHead(a: seq<nat>, b: seq<nat>, t: nat)
    requires t in a
    ensures Without(a + b, t) == Without(a, t) + b
  {
    assert (a + b)[1..] == a[1..] + b;
    if a[0] != t {
      WithoutHead(a[1..], b, t);
    }
  }

  lemma ArriveKeepsFifo(h: History, maxWaiters: nat)
    requires Fifo(h)
    ensures Fifo(Arrive(h, maxWaiters).0)
  {
    var n := h.arrivals;
    if Arrive(h, maxWaiters).1 == Queued {
      assert n !in h.cancelled;
      assert h.grants + (h.gate.waiters + [n]) == (h.grants + h.gate.waiters) + [n];
    }
  }

  lemma WithdrawKeepsFifo(h: History, ticket: nat)
    requires Fifo(h)
    ensures Fifo(Withdraw(h, ticket))
  {
    if ticket in h.gate.waiters {
      StandingFacts(h.arrivals, h.cancelled);
      StandingWithdraw(h.arrivals, h.cancelled, ticket);
      IncreasingDistinct(h.grants, h.gate.waiters);
      assert ticket in h.grants + h.gate.waiters;
      WithoutAppend(h.grants, h.gate.waiters, ticket);
    }
  }

  lemma PassOnKeepsFifo(h: History)
    requires Fifo(h)
    ensures Fifo(PassOn(h))
  {
    var w := h.gate.waiters;
    if w != [] {
      assert h.grants + w == (h.grants + [w[0]]) + w[1..];
    }
  }

  /** What FIFO means to the callers: permits are granted in strictly increasing ticket order, never to a withdrawn
      ticket, and never past an older ticket that is still waiting. */
  lemma GrantsFollowArrivals(h: History)
    requires Fifo(h)
    ensures Increasing(h.grants)
    ensures forall t :: t in h.grants ==> t < h.arrivals && t !in h.cancelled && t !in h.gate.waiters
    ensures forall t: nat, u: nat :: t in h.grants && u < t ==> u in h.grants || u in h.cancelled
    ensures forall t: nat :: t < h.arrivals ==> t in h.grants || t in h.gate.waiters || t in h.cancelled
  {
    var all := h.grants + h.gate.waiters;
    StandingFacts(h.arrivals, h.cancelled);
    IncreasingDistinct(h.grants, h.gate.waiters);
    assert forall t :: t in all <==> t in h.grants || t in h.gate.waiters;
    assert forall i :: 0 <= i < |h.grants| ==> all[i] == h.grants[i];
    forall t: nat, u: nat | t in h.grants && u < t
      ensures u in h.grants || u in h.cancelled
    {
      if u !in h.cancelled {
        assert t in all && u in all;
        var j :| 0 <= j < |h.grants| && h.grants[j] == t;
        assert forall k :: 0 <= k < |h.gate.waiters| ==> h.grants[j] < h.gate.waiters[k];
      }
    }
  }

  datatype Event = Arrived | Withdrawn(ticket: nat) | Released

  function After(events: seq<Event>, maxWaiters: nat): History {
    if events == [] then History(Free(), 0, [], {})
    else
      var h := After(events[..|events| - 1], maxWaiters);
      match events[|events| - 1]
      case Arrived => Arrive(h, maxWaiters).0
      case Withdrawn(ticket) => Withdraw(h, ticket)
      case Released => PassOn(h)
  }

  /** Every run of arrivals, cancellations and releases keeps FIFO order and the queue bound. */
  lemma {:induction false} EveryRunIsFifo(events: seq<Event>, maxWaiters: nat)
    ensures Fifo(After(events, maxWaiters))
    ensures |After(events, maxWaiters).gate.waiters| <= maxWaiters
  {
    if events == [] {
    } else {
      var before := events[..|events| - 1];
      var h := After(before, maxWaiters);
      EveryRunIsFifo(before, maxWaiters);
      match events[|events| - 1]
      case Arrived => ArriveKeepsFifo(h, maxWaiters);
      case Withdrawn(ticket) =>
        WithdrawKeepsFifo(h, ticket);
        StandingFacts(h.arrivals, h.cancelled);
        IncreasingDistinct(h.grants, h.gate.waiters);
        WithoutFacts(h.gate.waiters, ticket);
      case Released => PassOnKeepsFifo(h);
    }
  }

  lemma {:induction false} StandingSize(n: nat, cancelled: set<nat>)
    requires forall t :: t in cancelled ==> t < n
    ensures |Standing(n, cancelled)| + |cancelled| == n
  {
    if n == 0 {
      assert cancelled == {};
    } else {
      var m := n - 1;
      var below := cancelled - {m};
      StandingSize(m, below);
      StandingSame(m, cancelled, below);
      StandingStep(m, cancelled);
    }
  }

  lemma {:induction false} StandingSame(n: nat, a: set<nat>, b: set<nat>)
    requires forall t: nat :: t < n ==> (t in a <==> t in b)
    ensures Standing(n, a) == Standing(n, b)
  {
    if n > 0 {
      StandingSame(n - 1, a, b);
    }
  }

  /** After every run, the next arrival gets the gate exactly when it is free, and is turned away exactly when it is not
      and the earlier arrivals that were neither granted nor cancelled fill the queue. */
  lemma NextArrival(events: seq<Event>, maxWaiters: nat)
    ensures var h := After(events, maxWaiters);
            var entry := Arrive(h, maxWaiters).1;
            && (entry == Got <==> !h.gate.held)
            && (entry == Full <==> h.gate.held && h.arrivals - |h.cancelled| - |h.grants| == maxWaiters)
            && (entry == Queued ==> Arrive(h, maxWaiters).0.gate.waiters == h.gate.waiters + [h.arrivals])
  {
    EveryRunIsFifo(events, maxWaiters);
    var h := After(events, maxWaiters);
    StandingSize(h.arrivals, h.cancelled);
    assert |h.grants + h.gate.waiters| == |h.grants| + |h.gate.waiters|;
  }

  /** The gate object. Each method is one critical section under `mu`; `View` is its history. */
  class FifoGate {
    var held: bool
    var waiters: seq<nat>
    const maxWaiters: nat
    var nextTicket: nat
    ghost var grants: seq<nat>
    ghost var cancelled: set<nat>

    ghost function View(): History
      reads this
    {
      History(Gate(held, waiters), nextTicket, grants, cancelled)
    }

    ghost predicate Valid()
      reads this
    {
      Fifo(View()) && |waiters| <= maxWaiters
    }

    constructor (maxWaiters: nat)
      ensures Valid() && this.maxWaiters == maxWaiters
      ensures View() == History(Free(), 0, [], {})
    {
      held, waiters, nextTicket, this.maxWaiters := false, [], 0, maxWaiters;
      grants, cancelled := [], {};
    }

    method TryAcquire() returns (entry: Entry, ticket: nat)
      requires Valid()
      modifies this
      ensures Valid()
      ensures (View(), entry) == Arrive(old(View()), maxWaiters)
      ensures entry == Got <==> !old(held)
      ensures entry == Full <==> old(held) && |old(waiters)| >= maxWaiters
      ensures held && waiters == if entry == Queued then old(waiters) + [ticket] else old(waiters)
      ensures entry == Queued ==> ticket == old(nextTicket)
    {
      ArriveKeepsFifo(View(), maxWaiters);
      ticket := nextTicket;
      if !held {
        held := true;
        entry := Got;
      } else if |waiters| >= maxWaiters {
        entry := Full;
      } else {
        waiters := waiters + [nextTicket];
        nextTicket := nextTicket + 1;
        entry := Queued;
      }
    }

    /** `removed` is false when the permit had already been handed over: the caller must then release it. */
    method CancelWaiter(ticket: nat) returns (removed: bool)
      requires Valid()
      modifies this
      ensures Valid()
      ensures View() == Withdraw(old(View()), ticket)
      ensures removed <==> ticket in old(waiters)
      ensures ticket !in waiters
      ensures held == old(held)
    {
      WithdrawKeepsFifo(View(), ticket);
      removed := ticket in waiters;
      if removed {
        StandingFacts(nextTicket, cancelled);
        IncreasingDistinct(grants, waiters);
        WithoutFacts(waiters, ticket);
        waiters := Without(waiters, ticket);
        cancelled := cancelled + {ticket};
      }
    }

    method Release() returns (granted: Option<nat>)
      requires Valid()
      modifies this
      ensures Valid()
      ensures View() == PassOn(old(View()))
      ensures granted.Some? <==> old(waiters) != []
      ensures granted.Some? ==> granted.value == old(waiters)[0] && held == old(held)
      ensures granted.None? ==> !held
    {
      PassOnKeepsFifo(View());
      if waiters == [] {
        held := false;
        granted := None;
      } else {
        granted := Some(waiters[0]);
        grants := grants + [waiters[0]];
        waiters := waiters[1..];
      }
    }
  }
}
