/** A bounded counter shared by all goroutines (`resourceBudget`). */
module Budget {
  import opened Base

  /** Whether `reserve` succeeds on a counter that stands at `used`. */
  predicate Fits(used: int, limit: int, size: int) {
    size <= 0 || (used <= limit && size <= limit - used)
  }

  function Reserved(used: int, limit: int, size: int): int {
    if size > 0 && Fits(used, limit, size) then used + size else used
  }

  function Released(used: int, size: int): int {
    if size > 0 then used - size else used
  }

  class ResourceBudget {
    const limit: int
    var used: int

    constructor (limit: int)
      ensures this.limit == limit && used == 0
    {
      this.limit, used := limit, 0;
    }

    method Reserve(size: int) returns (ok: bool)
      modifies this`used
      ensures ok <==> Fits(old(used), limit, size)
      ensures ok <==> size <= 0 || old(used) + size <= limit
      ensures used == if ok then old(used) + Max(size, 0) else old(used)
      ensures old(used) <= limit ==> used <= limit
    {
      if size <= 0 {
        return true;
      }
      if used > limit || size > limit - used {
        return false;
      }
      used := used + size;
      ok := true;
    }

    method Release(size: int)
      modifies this`used
      ensures used == Released(old(used), size) == old(used) - Max(size, 0)
    {
      if size > 0 {
        used := used - size;
      }
    }
  }

  // ----- the compare-and-swap loop -----

  /** Goroutines inside `reserve`: each has loaded some value of the counter and not yet swapped. `granted` is a
      history variable: the total reserved minus the total released. */
  datatype Loading = Loading(size: int, seen: int)
  datatype Shared = Shared(limit: int, used: int, pending: map<nat, Loading>, granted: int)

  datatype Action = Load(id: nat, size: int) | Swap(id: nat) | Refuse(id: nat) | GiveBack(size: int)

  ghost predicate Enabled(s: Shared, a: Action) {
    match a
    case Load(id, size) => size > 0
    case Swap(id) => id in s.pending
    case Refuse(id) => id in s.pending && !Fits(s.pending[id].seen, s.limit, s.pending[id].size)
    case GiveBack(size) => 0 <= size <= s.granted
  }

  /** A swap succeeds only if the counter still has the value that was loaded and checked; otherwise the goroutine
      goes round the loop and loads again. */
  function Act(s: Shared, a: Action): Shared {
    match a
    case Load(id, size) => s.(pending := s.pending[id := Loading(size, s.used)])
    case Swap(id) =>
      if id in s.pending && s.pending[id].seen == s.used && Fits(s.used, s.limit, s.pending[id].size)
      then s.(used := s.used + s.pending[id].size, granted := s.granted + s.pending[id].size,
              pending := s.pending - {id})
      else s
    case Refuse(id) => s.(pending := s.pending - {id})
    case GiveBack(size) => s.(used := s.used - size, granted := s.granted - size)
  }

  ghost predicate Inv(s: Shared) {
    && 0 <= s.used == s.granted <= s.limit
    && (forall id :: id in s.pending ==> s.pending[id].size > 0)
  }

  function RunBudget(limit: nat, actions: seq<Action>): Shared {
    if actions == [] then Shared(limit, 0, map[], 0)
    else Act(RunBudget(limit, actions[..|actions| - 1]), actions[|actions| - 1])
  }

  ghost predicate Legal(limit: nat, actions: seq<Action>) {
    forall i :: 0 <= i < |actions| ==> Enabled(RunBudget(limit, actions[..i]), actions[i])
  }

  /** However loads, swaps and releases interleave, no reservation is lost and the limit is never exceeded. */
  lemma {:induction false} BudgetNeverExceeded(limit: nat, actions: seq<Action>)
    requires Legal(limit, actions)
    ensures Inv(RunBudget(limit, actions))
  {
    if actions == [] {
    } else {
      var before := actions[..|actions| - 1];
      assert forall i :: 0 <= i < |before| ==> before[..i] == actions[..i];
      BudgetNeverExceeded(limit, before);
      assert Enabled(RunBudget(limit, actions[..|before|]), actions[|before|]);
      assert RunBudget(limit, actions).limit == RunBudget(limit, before).limit;
    }
  }

  lemma FitsIff(used: int, limit: int, size: int)
    ensures Fits(used, limit, size) <==> size <= 0 || used + size <= limit
  {
  }

  /** What a goroutine has loaded, the counter had when it loaded it. */
  lemma {:induction false} SeenBefore(limit: nat, actions: seq<Action>, id: nat) returns (k: nat)
    requires id in RunBudget(limit, actions).pending
    ensures k < |actions| && RunBudget(limit, actions[..k]).used == RunBudget(limit, actions).pending[id].seen
    ensures RunBudget(limit, actions).limit == limit
  {
    var n := |actions| - 1;
    var before := actions[..n];
    LimitKept(limit, actions);
    if actions[n].Load? && actions[n].id == id {
      k := n;
    } else {
      k := SeenBefore(limit, before, id);
      assert before[..k] == actions[..k];
    }
  }

  lemma {:induction false} LimitKept(limit: nat, actions: seq<Action>)
    ensures RunBudget(limit, actions).limit == limit
  {
    if actions != [] {
      LimitKept(limit, actions[..|actions| - 1]);
    }
  }

  /** However the goroutines interleave, a reservation is refused only if at some moment before the counter left no room
      for it. */
  lemma RefusedOnlyWhenFull(limit: nat, actions: seq<Action>, id: nat) returns (k: nat)
    requires Enabled(RunBudget(limit, actions), Refuse(id))
    ensures k < |actions| && id in RunBudget(limit, actions).pending
    ensures RunBudget(limit, actions[..k]).used + RunBudget(limit, actions).pending[id].size > limit
  {
    k := SeenBefore(limit, actions, id);
    FitsIff(RunBudget(limit, actions).pending[id].seen, limit, RunBudget(limit, actions).pending[id].size);
  }

  /** A goroutine whose swap finds the counter as it was loaded gets its reservation exactly when it fits. */
  lemma SwapIff(s: Shared, id: nat)
    requires Inv(s) && id in s.pending && s.pending[id].seen == s.used
    ensures var n := Act(s, Swap(id));
            if s.used + s.pending[id].size <= s.limit
            then n.used == s.used + s.pending[id].size && id !in n.pending
            else n == s
  {
    FitsIff(s.used, s.limit, s.pending[id].size);
  }
}
