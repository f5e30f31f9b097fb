/** The rolling safety budget for invalid responses (`invalidRequestGuard`).

Goroutines read the clock before they take the lock, so readings may reach the guard out of order.
 */
module InvalidGuard {
  import opened Base

  const SAFETY_LIMIT: int := 9500
  const COMPACTION: int := 4096

  datatype Guard = Guard(limit: int, window: int, timestamps: seq<int>, head: nat, reserved: int)

  ghost predicate Valid(g: Guard) {
    g.head <= |g.timestamps|
  }

  type SoundGuard = g: Guard | g.head <= |g.timestamps| witness Guard(0, 0, [], 0, 0)

  /** Entries that still count. */
  function Retained(g: Guard): seq<int>
    requires Valid(g)
  {
    g.timestamps[g.head..]
  }

  /** How many entries from the front have left the window that ends at `oldest + window`. */
  function Expired(s: seq<int>, oldest: int): nat
    ensures Expired(s, oldest) <= |s|
  {
    if s == [] || s[0] > oldest then 0 else 1 + Expired(s[1..], oldest)
  }

  function Prune(g: Guard, now: int): Guard
    requires Valid(g)
  {
    var head := g.head + Expired(Retained(g), now - g.window);
    if head > COMPACTION && head * 2 > |g.timestamps| then g.(timestamps := g.timestamps[head..], head := 0)
    else g.(head := head)
  }

  /** Whether one more attempt may go out. */
  predicate HasRoom(g: Guard) {
    |g.timestamps| - g.head + g.reserved < g.limit
  }

  function Reserve(g: Guard, now: int): (Guard, bool)
    requires Valid(g)
  {
    var h := Prune(g, now);
    if HasRoom(h) then (h.(reserved := h.reserved + 1), true) else (h, false)
  }

  function Complete(g: Guard, now: int, invalid: bool): Guard
    requires Valid(g)
  {
    Prune(g.(reserved := g.reserved - 1, timestamps := if invalid then g.timestamps + [now] else g.timestamps), now)
  }

  /** Pruning drops a prefix of what was retained, all of it out of the window, whether or not it compacts. */
  lemma PruneDrops(g: Guard, now: int)
    requires Valid(g)
    ensures Valid(Prune(g, now))
    ensures var n := Expired(Retained(g), now - g.window);
            && Retained(Prune(g, now)) == Retained(g)[n..]
            && (forall i :: 0 <= i < n ==> Retained(g)[i] <= now - g.window)
            && (n < |Retained(g)| ==> Retained(g)[n] > now - g.window)
  {
    ExpiredFacts(Retained(g), now - g.window);
  }

  lemma {:induction false} ExpiredFacts(s: seq<int>, oldest: int)
    ensures forall i :: 0 <= i < Expired(s, oldest) ==> s[i] <= oldest
    ensures Expired(s, oldest) < |s| ==> s[Expired(s, oldest)] > oldest
  {
    if s != [] && s[0] <= oldest {
      ExpiredFacts(s[1..], oldest);
      forall i | 0 <= i < Expired(s, oldest)
        ensures s[i] <= oldest
      {
        if i > 0 {
          assert s[i] == s[1..][i - 1];
        }
      }
    }
  }

  lemma ExpiredStep(s: seq<int>, k: nat, oldest: int)
    requires k < |s| && s[k] <= oldest
    ensures Expired(s[k..], oldest) == 1 + Expired(s[k + 1..], oldest)
  {
    assert s[k..][1..] == s[k + 1..];
  }

  lemma ExpiredStop(s: seq<int>, k: nat, oldest: int)
    requires k <= |s| && (k == |s| || s[k] > oldest)
    ensures Expired(s[k..], oldest) == 0
  {
  }

  ghost predicate Ordered(s: seq<int>) {
    forall i, j :: 0 <= i < j < |s| ==> s[i] <= s[j]
  }

  /** When readings arrive in order, pruning is exact: what is kept is what lies in the window. */
  lemma PruneExactWhenOrdered(g: Guard, now: int)
    requires Valid(g) && Ordered(Retained(g))
    ensures forall i :: 0 <= i < |Retained(Prune(g, now))| ==> Retained(Prune(g, now))[i] > now - g.window
    ensures |Retained(g)| - |Retained(Prune(g, now))|
            == |set i | 0 <= i < |Retained(g)| && Retained(g)[i] <= now - g.window|
  {
    var s := Retained(g);
    var n := Expired(s, now - g.window);
    PruneDrops(g, now);
    var dropped := set i | 0 <= i < |s| && s[i] <= now - g.window;
    forall i | n <= i < |s|
      ensures s[i] > now - g.window
    {
      assert s[n] <= s[i];
    }
    ExactRange(dropped, 0, n);
  }

  // ----- history -----

  /** `recorded` lists every invalid response ever recorded; its first `base` entries have been dropped. `pending` maps
      each attempt in flight to the clock at its reservation. */
  datatype History = History(guard: SoundGuard, clock: int, recorded: seq<int>, base: nat, pending: map<nat, int>)

  datatype Event =
    | Tick(later: int)
    | Ask(reading: int)
    | Reserved(id: nat, reading: int)
    | Completed(id: nat, reading: int, invalid: bool)

  /** A reading that reaches the lock was taken at some earlier moment; the one of a completion was taken after the
      attempt's reservation. */
  ghost predicate Legal(h: History, e: Event) {
    match e
    case Tick(later) => h.clock <= later
    case Ask(reading) => reading <= h.clock
    case Reserved(id, reading) => id !in h.pending && reading <= h.clock
    case Completed(id, reading, _) => id in h.pending && h.pending[id] <= reading <= h.clock
  }

  function Dropped(g: Guard, now: int): nat
    requires Valid(g)
  {
    Expired(Retained(g), now - g.window)
  }

  function Next(h: History, e: Event): History {
    match e
    case Tick(later) => h.(clock := later)
    case Ask(reading) => h.(guard := Prune(h.guard, reading), base := h.base + Dropped(h.guard, reading))
    case Reserved(id, reading) =>
      var (g, ok) := Reserve(h.guard, reading);
      h.(guard := g, base := h.base + Dropped(h.guard, reading),
         pending := if ok then h.pending[id := h.clock] else h.pending)
    case Completed(id, reading, invalid) =>
      var appended := if invalid then h.guard.timestamps + [reading] else h.guard.timestamps;
      h.(guard := Complete(h.guard, reading, invalid),
         recorded := if invalid then h.recorded + [reading] else h.recorded,
         base := h.base + Dropped(h.guard.(timestamps := appended), reading),
         pending := h.pending - {id})
  }

  /** Recorded responses in the half-open window that starts at `from`. */
  ghost function InWindow(recorded: seq<int>, from: int, window: int): set<int> {
    set i | 0 <= i < |recorded| && from <= recorded[i] < from + window
  }

  /** Attempts in flight whose response could still be recorded in that window. */
  ghost function MayLand(pending: map<nat, int>, from: int, window: int): set<nat> {
    set id | id in pending && pending[id] < from + window
  }

  ghost predicate Aligned(h: History) {
    && Valid(h.guard)
    && h.base <= |h.recorded|
    && Retained(h.guard) == h.recorded[h.base..]
    && h.guard.reserved == |h.pending|
    && h.guard.window > 0
  }

  ghost predicate Inv(h: History) {
    && Aligned(h)
    && (forall i :: 0 <= i < h.base ==> h.recorded[i] <= h.clock - h.guard.window)
    && (forall from ::
        |InWindow(h.recorded, from, h.guard.window)| + |MayLand(h.pending, from, h.guard.window)| <= h.guard.limit)
  }

  lemma PruneAligned(g: Guard, recorded: seq<int>, base: nat, reading: int, clock: int)
    requires Valid(g) && base <= |recorded| && Retained(g) == recorded[base..] && reading <= clock
    requires forall i :: 0 <= i < base ==> recorded[i] <= clock - g.window
    ensures var n := base + Dropped(g, reading);
            && Valid(Prune(g, reading)) && n <= |recorded| && Retained(Prune(g, reading)) == recorded[n..]
            && (forall i :: 0 <= i < n ==> recorded[i] <= clock - g.window)
  {
    PruneDrops(g, reading);
    var k := Dropped(g, reading);
    assert recorded[base..][k..] == recorded[base + k..];
    forall i | 0 <= i < base + k
      ensures recorded[i] <= clock - g.window
    {
      if i >= base {
        assert recorded[i] == Retained(g)[i - base];
      }
    }
  }

  /** What lies in a window is at most what has not been dropped, if the dropped entries are older than the window. */
  lemma LiveBound(recorded: seq<int>, base: nat, from: int, window: int)
    requires base <= |recorded| && forall i :: 0 <= i < base ==> recorded[i] < from
    ensures |InWindow(recorded, from, window)| <= |recorded| - base
  {
    RangeSize(InWindow(recorded, from, window), base, |recorded|);
  }

  lemma ReservedKeeps(h: History, id: nat, reading: int)
    requires Inv(h) && Legal(h, Reserved(id, reading))
    ensures Inv(Next(h, Reserved(id, reading)))
  {
    hide Prune, InWindow, MayLand;
    var n := Next(h, Reserved(id, reading));
    PruneAligned(h.guard, h.recorded, h.base, reading, h.clock);
    PruneKeepsRest(h.guard, reading);
    if HasRoom(Prune(h.guard, reading)) {
      assert n.pending.Keys == h.pending.Keys + {id};
      assert |n.pending| == |n.pending.Keys| && |h.pending| == |h.pending.Keys|;
      forall from
        ensures |InWindow(n.recorded, from, h.guard.window)| + |MayLand(n.pending, from, h.guard.window)|
                <= h.guard.limit
      {
        RoomForOne(h, n, from, id);
      }
    }
  }

  lemma PruneKeepsRest(g: Guard, now: int)
    requires Valid(g)
    ensures Prune(g, now).limit == g.limit && Prune(g, now).window == g.window && Prune(g, now).reserved == g.reserved
  {
  }

  lemma RoomForOne(h: History, n: History, from: int, id: nat)
    requires Inv(h) && id !in h.pending && n.pending == h.pending[id := h.clock] && n.recorded == h.recorded
    requires h.base <= n.base <= |h.recorded|
    requires forall i :: 0 <= i < n.base ==> h.recorded[i] <= h.clock - h.guard.window
    requires |h.recorded| - n.base + |h.pending| < h.guard.limit
    ensures |InWindow(n.recorded, from, h.guard.window)| + |MayLand(n.pending, from, h.guard.window)| <= h.guard.limit
  {
    var w := h.guard.window;
    if h.clock < from + w {
      LiveBound(h.recorded, n.base, from, w);
      SubsetSize(MayLand(n.pending, from, w), h.pending.Keys + {id});
      assert |h.pending| == |h.pending.Keys|;
    } else {
      assert MayLand(n.pending, from, w) == MayLand(h.pending, from, w);
    }
  }

  lemma CompletedWindow(h: History, n: History, from: int, id: nat, reading: int, invalid: bool)
    requires Inv(h) && id in h.pending && h.pending[id] <= reading && n.pending == h.pending - {id}
    requires n.recorded == if invalid then h.recorded + [reading] else h.recorded
    ensures |InWindow(n.recorded, from, h.guard.window)| + |MayLand(n.pending, from, h.guard.window)| <= h.guard.limit
  {
    var w := h.guard.window;
    var before, after := InWindow(h.recorded, from, w), InWindow(n.recorded, from, w);
    var waiting, left := MayLand(h.pending, from, w), MayLand(n.pending, from, w);
    assert |before| + |waiting| <= h.guard.limit;
    assert left == waiting - {id};
    if invalid && from <= reading < from + w {
      assert id in waiting;
      assert after == before + {|h.recorded|};
    } else {
      assert after == before;
    }
  }

  lemma CompletedAligned(h: History, id: nat, reading: int, invalid: bool)
    requires Inv(h) && Legal(h, Completed(id, reading, invalid))
    ensures var n := Next(h, Completed(id, reading, invalid));
            Aligned(n) && forall i :: 0 <= i < n.base ==> n.recorded[i] <= n.clock - n.guard.window
  {
    hide Prune, InWindow, MayLand;
    var n := Next(h, Completed(id, reading, invalid));
    var g := h.guard.(reserved := h.guard.reserved - 1,
                      timestamps := if invalid then h.guard.timestamps + [reading] else h.guard.timestamps);
    assert Retained(g) == n.recorded[h.base..];
    PruneAligned(g, n.recorded, h.base, reading, h.clock);
    PruneKeepsRest(g, reading);
    assert n.pending.Keys == h.pending.Keys - {id};
    assert |n.pending| == |n.pending.Keys| && |h.pending| == |h.pending.Keys|;
  }

  lemma CompletedKeeps(h: History, id: nat, reading: int, invalid: bool)
    requires Inv(h) && Legal(h, Completed(id, reading, invalid))
    ensures Inv(Next(h, Completed(id, reading, invalid)))
  {
    hide Prune, InWindow, MayLand;
    var n := Next(h, Completed(id, reading, invalid));
    CompletedAligned(h, id, reading, invalid);
    var g := h.guard.(reserved := h.guard.reserved - 1,
                      timestamps := if invalid then h.guard.timestamps + [reading] else h.guard.timestamps);
    PruneKeepsRest(g, reading);
    forall from
      ensures |InWindow(n.recorded, from, h.guard.window)| + |MayLand(n.pending, from, h.guard.window)| <= h.guard.limit
    {
      CompletedWindow(h, n, from, id, reading, invalid);
    }
  }

  lemma EventKeeps(h: History, e: Event)
    requires Inv(h) && Legal(h, e)
    ensures Inv(Next(h, e)) && Next(h, e).guard.limit == h.guard.limit && Next(h, e).guard.window == h.guard.window
  {
    match e
    case Tick(later) =>
    case Ask(reading) =>
      PruneAligned(h.guard, h.recorded, h.base, reading, h.clock);
      PruneKeepsRest(h.guard, reading);
    case Reserved(id, reading) => ReservedKeeps(h, id, reading); PruneKeepsRest(h.guard, reading);
    case Completed(id, reading, invalid) => CompletedKeeps(h, id, reading, invalid);
  }

  function Begin(limit: int, window: int, clock: int): History {
    History(Guard(limit, window, [], 0, 0), clock, [], 0, map[])
  }

  ghost predicate IsRun(states: seq<History>, events: seq<Event>, limit: int, window: int) {
    && |states| == |events| + 1
    && states[0] == Begin(limit, window, states[0].clock)
    && (forall k :: 0 <= k < |events| ==> Legal(states[k], events[k]) && states[k + 1] == Next(states[k], events[k]))
  }

  /** In every run, however readings are delayed and attempts overlap, no window contains more recorded invalid
      responses than the limit. */
  lemma {:induction false} WindowBound(states: seq<History>, events: seq<Event>, limit: nat, window: int, k: nat,
                                       from: int)
    requires IsRun(states, events, limit, window) && k < |states| && window > 0
    ensures Inv(states[k]) && states[k].guard.limit == limit && states[k].guard.window == window
    ensures |InWindow(states[k].recorded, from, window)| <= limit
  {
    if k == 0 {
      forall x
        ensures InWindow([], x, window) == {} && MayLand(map[], x, window) == {}
      {
      }
    } else {
      WindowBound(states, events, limit, window, k - 1, from);
      EventKeeps(states[k - 1], events[k - 1]);
    }
    assert |InWindow(states[k].recorded, from, window)| + |MayLand(states[k].pending, from, window)| <= limit;
  }

  /** Responses recorded in the window that ends at `now`. */
  ghost function Live(recorded: seq<int>, now: int, window: int): set<int> {
    set i | 0 <= i < |recorded| && recorded[i] > now - window
  }

  /** In every run in which readings reach the guard in order: an attempt that asks with the present time is refused
      exactly when the responses of the past window and the attempts in flight together have reached the limit. */
  lemma RefusedIffFull(states: seq<History>, events: seq<Event>, limit: nat, window: int, k: nat)
    requires IsRun(states, events, limit, window) && k < |states| && window > 0 && Ordered(states[k].recorded)
    ensures var h := states[k];
            !Reserve(h.guard, h.clock).1 <==> |Live(h.recorded, h.clock, window)| + |h.pending| >= limit
  {
    hide Prune, IsRun, InWindow, MayLand;
    WindowBound(states, events, limit, window, k, 0);
    var h := states[k];
    PruneAligned(h.guard, h.recorded, h.base, h.clock, h.clock);
    PruneKeepsRest(h.guard, h.clock);
    PruneDrops(h.guard, h.clock);
    var n := h.base + Dropped(h.guard, h.clock);
    forall i | n <= i < |h.recorded|
      ensures h.recorded[i] > h.clock - window
    {
      assert h.recorded[n] == Retained(h.guard)[Dropped(h.guard, h.clock)];
    }
    ExactRange(Live(h.recorded, h.clock, window), n, |h.recorded|);
    assert |Retained(Prune(h.guard, h.clock))| == |h.recorded| - n;
  }

  // ----- the share of one cluster node -----

  /** The limit each node of a cluster of at most `maxNodes` nodes works with. */
  function NodeLimit(maxNodes: int): int
    requires maxNodes >= 1
  {
    Max(1, SAFETY_LIMIT / maxNodes)
  }

  lemma SharesFit(nodes: nat, maxNodes: int)
    requires 1 <= maxNodes <= SAFETY_LIMIT && nodes <= maxNodes
    ensures nodes * NodeLimit(maxNodes) <= SAFETY_LIMIT
  {
    assert SAFETY_LIMIT / maxNodes >= 1;
    var share := NodeLimit(maxNodes);
    assert share * maxNodes <= SAFETY_LIMIT;
    assert nodes * share <= maxNodes * share;
  }

  /** The share is the greatest that fits as often as there may be nodes. */
  lemma ShareIsGreatest(maxNodes: int, share: int)
    requires 1 <= maxNodes <= SAFETY_LIMIT && share * maxNodes <= SAFETY_LIMIT
    ensures share <= NodeLimit(maxNodes)
  {
    var q := SAFETY_LIMIT / maxNodes;
    assert SAFETY_LIMIT < (q + 1) * maxNodes;
    assert share >= q + 1 ==> share * maxNodes >= (q + 1) * maxNodes;
  }

  ghost function TotalInWindow(cluster: seq<History>, from: int, window: int): int {
    if cluster == [] then 0
    else TotalInWindow(cluster[1..], from, window) + |InWindow(cluster[0].recorded, from, window)|
  }

  lemma {:induction false} TotalBound(cluster: seq<History>, from: int, window: int, share: int)
    requires forall i :: 0 <= i < |cluster| ==> |InWindow(cluster[i].recorded, from, window)| <= share
    ensures TotalInWindow(cluster, from, window) <= |cluster| * share
  {
    if cluster != [] {
      TotalBound(cluster[1..], from, window, share);
      assert |cluster| * share == |cluster[1..]| * share + share;
    }
  }

  /** A cluster within its node cap records at most 9500 invalid responses in any window. */
  lemma ClusterBound(cluster: seq<History>, maxNodes: int, from: int, window: int)
    requires 1 <= maxNodes <= SAFETY_LIMIT && |cluster| <= maxNodes
    requires forall i :: 0 <= i < |cluster| ==>
               Inv(cluster[i]) && cluster[i].guard.limit == NodeLimit(maxNodes) && cluster[i].guard.window == window
    ensures TotalInWindow(cluster, from, window) <= SAFETY_LIMIT
  {
    forall i | 0 <= i < |cluster|
      ensures |InWindow(cluster[i].recorded, from, window)| <= NodeLimit(maxNodes)
    {
      assert |InWindow(cluster[i].recorded, from, window)| + |MayLand(cluster[i].pending, from, window)|
             <= cluster[i].guard.limit;
    }
    TotalBound(cluster, from, window, NodeLimit(maxNodes));
    SharesFit(|cluster|, maxNodes);
  }

  // ----- the object -----

  class InvalidRequestGuard {
    const limit: int
    const window: int
    var timestamps: seq<int>
    var head: nat
    var reserved: int

    ghost function View(): Guard
      reads this
    {
      Guard(limit, window, timestamps, head, reserved)
    }

    constructor (limit: int, window: int)
      ensures View() == Guard(limit, window, [], 0, 0) && Valid(View())
    {
      this.limit, this.window := limit, window;
      timestamps, head, reserved := [], 0, 0;
    }

    method PruneTo(now: int)
      requires Valid(View())
      modifies this
      ensures View() == Prune(old(View()), now) && Valid(View())
    {
      var oldest := now - window;
      ghost var start := head;
      while head < |timestamps| && !(timestamps[head] > oldest)
        invariant start <= head <= |timestamps| && timestamps == old(timestamps) && reserved == old(reserved)
        invariant Expired(timestamps[start..], oldest) == (head - start) + Expired(timestamps[head..], oldest)
        decreases |timestamps| - head
      {
        ExpiredStep(timestamps, head, oldest);
        head := head + 1;
      }
      ExpiredStop(timestamps, head, oldest);
      if head > COMPACTION && head * 2 > |timestamps| {
        timestamps := timestamps[head..];
        head := 0;
      }
    }

    method Available(now: int) returns (ok: bool)
      requires Valid(View())
      modifies this
      ensures View() == Prune(old(View()), now) && Valid(View())
      ensures ok <==> HasRoom(View())
    {
      PruneTo(now);
      ok := |timestamps| - head + reserved < limit;
    }

    method TryReserve(now: int) returns (ok: bool)
      requires Valid(View())
      modifies this
      ensures Valid(View()) && (View(), ok) == Reserve(old(View()), now)
    {
      PruneTo(now);
      if |timestamps| - head + reserved >= limit {
        return false;
      }
      reserved := reserved + 1;
      ok := true;
    }

    method Finish(now: int, invalid: bool)
      requires Valid(View())
      modifies this
      ensures Valid(View()) && View() == Complete(old(View()), now, invalid)
    {
      reserved := reserved - 1;
      if invalid {
        timestamps := timestamps + [now];
      }
      PruneTo(now);
    }
  }
}
