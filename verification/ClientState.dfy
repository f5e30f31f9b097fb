/** The client object in the source's own form: two maps that are updated in place, bucket objects that are shared by
    reference, and a budget shared by all clients (`bucketState`, `clientState`). */
module ClientState {
  import opened Base
  import opened ClientMaps
  import opened Budget

  class BucketState {
    var readyAt: int
    var active: int
    var lastUsed: int

    constructor (zero: int, now: int)
      ensures readyAt == zero && active == 0 && lastUsed == now
    {
      readyAt, active, lastUsed := zero, 0, now;
    }

    /** A block never shortens one already in force. */
    method BlockUntil(until: int)
      modifies this`readyAt
      ensures readyAt == Max(old(readyAt), until)
    {
      if until > readyAt {
        readyAt := until;
      }
    }

    method Merge(other: BucketState)
      modifies this`readyAt
      ensures readyAt == Max(old(readyAt), old(other.readyAt))
    {
      BlockUntil(other.readyAt);
    }

    predicate Idle(at: int)
      reads this
    {
      !(readyAt > at) && active == 0 && at - lastUsed > IDLE_TIMEOUT
    }

    predicate Busy(at: int)
      reads this
    {
      active != 0 || readyAt > at
    }
  }

  class ClientState {
    var buckets: map<Key, BucketState>
    var aliases: map<Key, Key>
    var active: int
    var lastUsed: int
    var blockedUntil: int
    const slots: ResourceBudget

    ghost function View(): Maps<BucketState>
      reads this
    {
      Maps(buckets, aliases)
    }

    constructor (slots: ResourceBudget, zero: int, now: int)
      ensures View() == Empty() && active == 0 && lastUsed == now && blockedUntil == zero && this.slots == slots
    {
      buckets, aliases := map[], map[];
      active, lastUsed, blockedUntil := 0, now, zero;
      this.slots := slots;
    }

    /** `bucket`: the bucket the route resolves to, made on demand if the budget has a slot. */
    method Bucket(route: Key, zero: int, now: int) returns (found: Option<BucketState>)
      modifies this`buckets, slots`used
      ensures Resolve(old(View()), route).Some? ==>
                found == Resolve(old(View()), route) && View() == old(View()) && slots.used == old(slots.used)
      ensures Resolve(old(View()), route).None? ==>
                && (found.Some? <==> Fits(old(slots.used), slots.limit, 1))
                && (found.None? ==> View() == old(View()) && slots.used == old(slots.used))
                && (found.Some? ==>
                      && fresh(found.value) && found.value.readyAt == zero && found.value.active == 0
                      && View() == Create(old(View()), route, found.value)
                      && Resolve(View(), route) == found
                      && slots.used == old(slots.used) + 1)
    {
      var key := if route in aliases then aliases[route] else route;
      if key in buckets {
        return Some(buckets[key]);
      }
      var ok := slots.Reserve(1);
      if !ok {
        return None;
      }
      var bucket := new BucketState(zero, now);
      buckets := buckets[key := bucket];
      found := Some(bucket);
    }

    /** `learnBucket`. The budget moves by exactly the change in the number of entries, and the bucket that the route
        ends up with is blocked at least as long as the one it came from. */
    method LearnBucket(route: Key, canonical: Option<Key>, current: BucketState) returns (target: BucketState)
      modifies this`buckets, this`aliases, slots`used
      modifies if canonical.Some? && canonical.value in buckets then {buckets[canonical.value]} else {}
      ensures canonical.None? ==> target == current && View() == old(View()) && slots.used == old(slots.used)
      ensures canonical.Some?
              && !Fits(old(slots.used), slots.limit, Net(old(View()), route, canonical.value, current)) ==>
                target == current && View() == old(View()) && slots.used == old(slots.used)
      ensures canonical.Some?
              && Fits(old(slots.used), slots.limit, Net(old(View()), route, canonical.value, current)) ==>
                && target == LearnTarget(old(View()), canonical.value, current)
                && View() == ClientMaps.Learn(old(View()), route, canonical.value, current)
                && target.readyAt == Max(old(target.readyAt), old(current.readyAt))
      ensures target.active == old(target.active) && target.lastUsed == old(target.lastUsed)
      ensures slots.used - old(slots.used) == Slots(View()) - old(Slots(View()))
      ensures target.readyAt >= old(current.readyAt)
    {
      target := current;
      if canonical.None? {
        return;
      }
      var k := canonical.value;
      LearnSlots(View(), route, k, current);
      var found, deleteRoute, released, ok := ReserveNet(route, k, current);
      if !ok {
        return;
      }
      target := found;
      if target != current {
        target.Merge(current);
      }
      Rewire(route, k, current, target, deleteRoute);
      if released > 0 {
        slots.Release(released);
      }
    }

    /** The accounting half of `learnBucket`: what will be added and removed, and the slots for the difference. */
    method ReserveNet(route: Key, k: Key, current: BucketState)
      returns (target: BucketState, deleteRoute: bool, released: int, ok: bool)
      modifies slots`used
      ensures target == LearnTarget(View(), k, current)
      ensures deleteRoute == DropsRoute(View(), route, k, current)
      ensures released == -Net(View(), route, k, current)
      ensures ok <==> Fits(old(slots.used), slots.limit, -released)
      ensures slots.used == if ok then old(slots.used) + Max(-released, 0) else old(slots.used)
    {
      target, ok := current, true;
      deleteRoute := route in buckets && buckets[route] == current && route != k;
      var additions := 0;
      if k in buckets {
        target := buckets[k];
      } else {
        additions := additions + 1;
      }
      if route !in aliases {
        additions := additions + 1;
      }
      var removals := 0;
      if deleteRoute {
        removals := removals + 1;
      }
      if additions - removals > 0 {
        ok := slots.Reserve(additions - removals);
      }
      released := removals - additions;
    }

    /** The updating half of `learnBucket`. */
    method Rewire(route: Key, k: Key, current: BucketState, target: BucketState, deleteRoute: bool)
      requires target == LearnTarget(View(), k, current)
      requires deleteRoute == DropsRoute(View(), route, k, current)
      modifies this`buckets, this`aliases
      ensures View() == ClientMaps.Learn(old(View()), route, k, current)
    {
      if k !in buckets {
        buckets := buckets[k := target];
      }
      assert buckets == old(buckets)[k := target];
      if deleteRoute {
        buckets := buckets - {route};
      }
      aliases := aliases[route := k];
    }

    ghost function IdleSet(at: int): set<BucketState>
      reads this, buckets.Values
    {
      set b | b in buckets.Values && b.Idle(at)
    }

    /** `sweep`: drops every idle bucket and every alias that has lost its bucket, and gives back one slot each. */
    method Sweep(at: int)
      modifies this`buckets, this`aliases, slots`used
      ensures View() == Swept(old(View()), old(IdleSet(at)))
      ensures slots.used - old(slots.used) == Slots(View()) - old(Slots(View()))
    {
      ghost var before, idle := View(), IdleSet(at);
      var released := DropIdle(at, idle);
      var orphans := DropOrphans();
      assert View() == Swept(before, idle);
      slots.Release(released + orphans);
    }

    method DropIdle(at: int, ghost idle: set<BucketState>) returns (released: nat)
      requires forall k :: k in buckets ==> (buckets[k] in idle <==> buckets[k].Idle(at))
      modifies this`buckets
      ensures buckets == map k | k in old(buckets) && old(buckets)[k] !in idle :: old(buckets)[k]
      ensures released == |old(buckets)| - |buckets|
    {
      released := 0;
      var todo := buckets.Keys;
      ghost var before := buckets;
      while todo != {}
        modifies this`buckets
        invariant todo <= buckets.Keys <= before.Keys
        invariant forall k :: k in buckets ==> buckets[k] == before[k]
        invariant forall k :: k in before && k !in todo ==> (k in buckets <==> before[k] !in idle)
        invariant released == |before| - |buckets|
        decreases |todo|
      {
        var k :| k in todo;
        todo := todo - {k};
        if buckets[k].Idle(at) {
          RemoveSize(buckets, k);
          buckets := buckets - {k};
          released := released + 1;
        }
      }
    }

    method DropOrphans() returns (released: nat)
      modifies this`aliases
      ensures aliases == map r | r in old(aliases) && old(aliases)[r] in buckets :: old(aliases)[r]
      ensures released == |old(aliases)| - |aliases|
    {
      released := 0;
      var todo := aliases.Keys;
      ghost var before := aliases;
      while todo != {}
        modifies this`aliases
        invariant todo <= aliases.Keys <= before.Keys
        invariant forall r :: r in aliases ==> aliases[r] == before[r]
        invariant forall r :: r in before && r !in todo ==> (r in aliases <==> before[r] in buckets)
        invariant released == |before| - |aliases|
        decreases |todo|
      {
        var r :| r in todo;
        todo := todo - {r};
        if aliases[r] !in buckets {
          RemoveSize(aliases, r);
          aliases := aliases - {r};
          released := released + 1;
        }
      }
    }

    /** `clear`: gives back every slot. */
    method Clear()
      modifies this`buckets, this`aliases, slots`used
      ensures View() == Empty()
      ensures slots.used == old(slots.used) - old(Slots(View()))
    {
      slots.Release(|buckets| + |aliases|);
      buckets, aliases := map[], map[];
    }

    /** `idle`: nothing runs on it, nothing it knows of is blocked, and it was not used for a while. */
    ghost predicate IsIdle(at: int)
      reads this, buckets.Values
    {
      && !(blockedUntil > at) && active == 0 && at - lastUsed > IDLE_TIMEOUT
      && forall k :: k in buckets ==> !buckets[k].Busy(at)
    }

    method Idle(at: int) returns (idle: bool)
      ensures idle <==> IsIdle(at)
    {
      if blockedUntil > at || active != 0 || at - lastUsed <= IDLE_TIMEOUT {
        return false;
      }
      var todo := buckets.Keys;
      while todo != {}
        invariant todo <= buckets.Keys
        invariant forall k :: k in buckets && k !in todo ==> !buckets[k].Busy(at)
        decreases todo
      {
        var k :| k in todo;
        todo := todo - {k};
        if buckets[k].Busy(at) {
          return false;
        }
      }
      idle := true;
    }

    method Begin(now: int)
      modifies this`active, this`lastUsed
      ensures active == old(active) + 1 && lastUsed == now
    {
      active := active + 1;
      lastUsed := now;
    }
  }
}
