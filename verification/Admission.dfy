/** Admission of clients (`Proxy.client`, `evictOldestIdle`, `sweepClients`): two groups of client objects, bounded
    together and, for bearer tokens, on their own. A new client that would exceed a bound takes the place of the
    least recently used idle one, or is refused. */
module Admission {
  import opened Base
  import opened Budget
  import opened ClientMaps
  import opened ClientState

  type Group = map<Key, ClientState>

  datatype Admitted = Client(state: ClientState) | Closed | TooMany

  /** No client object is registered twice, so that evicting one leaves the others alone. */
  ghost predicate Apart(bots: Group, bearers: Group) {
    && (forall j, k :: j in bots && k in bots && j != k ==> bots[j] != bots[k])
    && (forall j, k :: j in bearers && k in bearers && j != k ==> bearers[j] != bearers[k])
    && (forall j, k :: j in bots && k in bearers ==> bots[j] != bearers[k])
  }

  ghost predicate Sharing(group: Group, noAuth: ClientState?, slots: ResourceBudget) {
    forall k :: k in group ==> group[k].slots == slots && group[k] != noAuth
  }

  ghost predicate New(group: Group, state: ClientState) {
    forall k :: k in group ==> group[k] != state
  }

  lemma InsertBot(bots: Group, bearers: Group, key: Key, state: ClientState)
    requires Apart(bots, bearers) && key !in bots && New(bots, state) && New(bearers, state)
    ensures Apart(bots[key := state], bearers)
  {
  }

  lemma InsertBearer(bots: Group, bearers: Group, key: Key, state: ClientState)
    requires Apart(bots, bearers) && key !in bearers && New(bots, state) && New(bearers, state)
    ensures Apart(bots, bearers[key := state])
  {
  }

  lemma InsertSharing(group: Group, noAuth: ClientState?, slots: ResourceBudget, key: Key, state: ClientState)
    requires Sharing(group, noAuth, slots) && state.slots == slots && state != noAuth
    ensures Sharing(group[key := state], noAuth, slots)
  {
  }

  /** The candidate is idle and no idle client of the group was used before it. */
  ghost predicate OldestIn(at: int, group: Group, best: ClientState)
    reads group.Values, set s, b | s in group.Values && b in s.buckets.Values :: b
    reads best, best.buckets.Values
  {
    && best.IsIdle(at)
    && forall k :: k in group && group[k].IsIdle(at) ==> best.lastUsed <= group[k].lastUsed
  }

  ghost predicate NoneIdle(at: int, group: Group)
    reads group.Values, set s, b | s in group.Values && b in s.buckets.Values :: b
  {
    forall k :: k in group ==> !group[k].IsIdle(at)
  }

  /** The inner loop of `evictOldestIdle`: improves on the best candidate so far over one group. */
  method Scan(at: int, group: Group, best: ClientState?) returns (found: ClientState?, key: Option<Key>)
    requires best != null ==> best.IsIdle(at)
    ensures found == null ==> best == null && NoneIdle(at, group)
    ensures found != null ==> OldestIn(at, group, found)
    ensures best != null && found != null ==> found.lastUsed <= best.lastUsed
    ensures key.None? ==> found == best
    ensures key.Some? ==> key.value in group && group[key.value] == found
    ensures key.Some? && best != null && found != null ==> found.lastUsed < best.lastUsed
  {
    found, key := best, None;
    var todo := group.Keys;
    while todo != {}
      invariant todo <= group.Keys
      invariant found == null ==> best == null
      invariant found != null ==> found.IsIdle(at)
      invariant forall k :: k in group && k !in todo && group[k].IsIdle(at) ==>
                              found != null && found.lastUsed <= group[k].lastUsed
      invariant best != null && found != null ==> found.lastUsed <= best.lastUsed
      invariant key.None? ==> found == best
      invariant key.Some? ==> key.value in group && group[key.value] == found
      invariant key.Some? && best != null && found != null ==> found.lastUsed < best.lastUsed
      decreases |todo|
    {
      var k :| k in todo;
      todo := todo - {k};
      var idle := group[k].Idle(at);
      if idle && (found == null || group[k].lastUsed < found.lastUsed) {
        found, key := group[k], Some(k);
      }
    }
  }

  ghost function Without(group: Group, victim: ClientState?): Group {
    map k | k in group && group[k] != victim :: group[k]
  }

  lemma WithoutOne(group: Group, k: Key)
    requires k in group
    requires forall j :: j in group && j != k ==> group[j] != group[k]
    ensures Without(group, group[k]) == group - {k}
    ensures |Without(group, group[k])| == |group| - 1
  {
    RemoveSize(group, k);
    assert Without(group, group[k]) == group - {k};
  }

  lemma WithoutForeign(group: Group, victim: ClientState?)
    requires forall j :: j in group ==> group[j] != victim
    ensures Without(group, victim) == group
  {
  }

  lemma WithoutNone(group: Group)
    ensures Without(group, null) == group
  {
  }

  datatype Kind = Bot | Bearer | Anonymous

  class Registry {
    var bots: Group
    var bearers: Group
    var noAuth: ClientState?
    var cancelled: bool
    const slots: ResourceBudget
    const maxBearers: int
    const maxClients: int

    constructor (slots: ResourceBudget, maxBearers: int, maxClients: int, zero: int, now: int)
      ensures Valid() && bots == map[] && bearers == map[] && !cancelled
      ensures noAuth != null && fresh(noAuth) && noAuth.View() == Empty()
      ensures this.slots == slots && this.maxBearers == maxBearers && this.maxClients == maxClients
    {
      bots, bearers, cancelled := map[], map[], false;
      this.slots, this.maxBearers, this.maxClients := slots, maxBearers, maxClients;
      noAuth := new ClientState(slots, zero, now);
    }

    ghost predicate Valid()
      reads this
    {
      && Apart(bots, bearers) && Sharing(bots, noAuth, slots) && Sharing(bearers, noAuth, slots)
      && |bearers| <= Max(maxBearers, 0)
      && |bots| + |bearers| <= Max(maxClients, 0)
    }

    ghost function States(): set<ClientState>
      reads this
    {
      bots.Values + bearers.Values
    }

    ghost predicate SomeIdle(at: int, both: bool)
      reads this, States(), set s, b | s in States() && b in s.buckets.Values :: b
    {
      !NoneIdle(at, bearers) || (both && !NoneIdle(at, bots))
    }

    /** The search of `evictOldestIdle`, over the bearers alone or over both groups. */
    method OldestIdle(at: int, both: bool) returns (found: ClientState?, bot: bool, key: Key)
      ensures found != null <==> old(SomeIdle(at, both))
      ensures found != null ==> old(allocated(found)) && old(OldestIn(at, bearers, found))
                                && (both ==> old(OldestIn(at, bots, found)))
      ensures found != null && bot ==> both && key in bots && bots[key] == found
      ensures found != null && !bot ==> key in bearers && bearers[key] == found
    {
      found, bot, key := null, false, 0;
      if both {
        var botKey;
        found, botKey := Scan(at, bots, null);
        if botKey.Some? {
          bot, key := true, botKey.value;
        }
      }
      ghost var first := found;
      var bearerKey;
      found, bearerKey := Scan(at, bearers, found);
      if bearerKey.Some? {
        bot, key := false, bearerKey.value;
      }
    }

    lemma Registered(bot: bool, key: Key)
      requires Valid() && if bot then key in bots else key in bearers
      ensures var s := if bot then bots[key] else bearers[key]; s in States() && s.slots == slots
    {
    }

    /** The removal of `evictOldestIdle`. */
    method Remove(bot: bool, key: Key, ghost victim: ClientState)
      requires Valid()
      requires if bot then key in bots && bots[key] == victim else key in bearers && bearers[key] == victim
      modifies this`bots, this`bearers
      ensures Valid()
      ensures bots == Without(old(bots), victim) && bearers == Without(old(bearers), victim)
      ensures bots.Keys <= old(bots).Keys && bearers.Keys <= old(bearers).Keys
      ensures |bots| + |bearers| == |old(bots)| + |old(bearers)| - 1
      ensures |bearers| == |old(bearers)| - if bot then 0 else 1
    {
      if bot {
        WithoutOne(bots, key);
        WithoutForeign(bearers, victim);
        bots := bots - {key};
      } else {
        WithoutOne(bearers, key);
        WithoutForeign(bots, victim);
        bearers := bearers - {key};
      }
    }

    method Drop(bot: bool, key: Key, victim: ClientState)
      requires Valid()
      requires if bot then key in bots && bots[key] == victim else key in bearers && bearers[key] == victim
      modifies this`bots, this`bearers, slots`used, victim`buckets, victim`aliases
      ensures Valid()
      ensures victim in old(States())
      ensures bots == Without(old(bots), victim) && bearers == Without(old(bearers), victim)
      ensures bots.Keys <= old(bots).Keys && bearers.Keys <= old(bearers).Keys
      ensures |bots| + |bearers| == |old(bots)| + |old(bearers)| - 1
      ensures |bearers| == |old(bearers)| - if bot then 0 else 1
      ensures victim.View() == Empty()
      ensures slots.used == old(slots.used) - old(Slots(victim.View()))
    {
      hide Valid, Without;
      Registered(bot, key);
      victim.Clear();
      Remove(bot, key, victim);
    }

    /** The effect of an eviction: the victim was the least recently used idle client of the groups looked at, it is
        gone from its group, its slots are back, and no other client is touched. */
    twostate predicate Evicted(at: int, both: bool, victim: ClientState, states: set<ClientState>)
      reads this, slots, victim, states
    {
      && (victim in old(bearers).Values || (both && victim in old(bots).Values))
      && old(OldestIn(at, bearers, victim)) && (both ==> old(OldestIn(at, bots, victim)))
      && bots == Without(old(bots), victim) && bearers == Without(old(bearers), victim)
      && bots.Keys <= old(bots).Keys && bearers.Keys <= old(bearers).Keys
      && |bots| + |bearers| == |old(bots)| + |old(bearers)| - 1
      && |old(bearers)| - 1 <= |bearers| <= |old(bearers)| - (if both then 0 else 1)
      && victim.View() == Empty()
      && slots.used == old(slots.used) - old(Slots(victim.View()))
      && forall s :: s in states && s != victim ==> unchanged(s)
    }

    twostate predicate Untouched(states: set<ClientState>)
      reads this, slots, states
    {
      && bots == old(bots) && bearers == old(bearers) && slots.used == old(slots.used)
      && forall s :: s in states ==> unchanged(s)
    }

    /** `evictOldestIdle`. */
    method EvictOldestIdle(at: int, both: bool) returns (ok: bool, ghost victim: ClientState?)
      requires Valid()
      modifies this`bots, this`bearers, slots`used, States()
      ensures Valid()
      ensures ok <==> old(SomeIdle(at, both))
      ensures victim != null <==> ok
      ensures victim != null ==> old(allocated(victim)) && Evicted(at, both, victim, old(States()))
      ensures victim == null ==> Untouched(old(States()))
    {
      hide OldestIn, NoneIdle, SomeIdle, Without, Valid;
      var found, bot, key := OldestIdle(at, both);
      victim := found;
      ok := found != null;
      if ok {
        assert found.buckets == old(found.buckets) && found.aliases == old(found.aliases);
        Drop(bot, key, found);
        assert forall s :: s in old(States()) && s != found ==> unchanged(s);
      }
    }

    lemma Bounds()
      requires Valid()
      ensures |bearers| <= Max(maxBearers, 0) && |bots| + |bearers| <= Max(maxClients, 0)
    {
    }

    ghost predicate Full(kind: Kind)
      reads this
    {
      kind == Bearer && |bearers| >= maxBearers
    }

    /** The two bounds that `client` enforces before it registers a new state. One eviction is always enough. */
    method MakeRoom(kind: Kind, at: int) returns (ok: bool, ghost victim: ClientState?)
      requires Valid()
      modifies this`bots, this`bearers, slots`used, States()
      ensures Valid()
      ensures ok <==> old(if Full(kind) then SomeIdle(at, false)
                          else |bots| + |bearers| >= maxClients ==> SomeIdle(at, true))
      ensures ok ==> |bots| + |bearers| < maxClients && !Full(kind)
      ensures !ok ==> victim == null
      ensures victim != null ==> old(allocated(victim)) && old(Chosen(kind, at, victim))
      ensures bots == Without(old(bots), victim) && bearers == Without(old(bearers), victim)
      ensures bots.Keys <= old(bots).Keys && bearers.Keys <= old(bearers).Keys
      ensures victim == null ==> bots == old(bots) && bearers == old(bearers)
      ensures slots.used == old(slots.used) - if victim == null then 0 else old(Slots(victim.View()))
      ensures forall s :: s in old(States()) && s != victim ==> unchanged(s)
    {
      hide OldestIn, NoneIdle, SomeIdle, Without, Valid;
      Bounds();
      WithoutNone(bots);
      WithoutNone(bearers);
      ok, victim := true, null;
      if kind == Bearer && |bearers| >= maxBearers {
        ok, victim := EvictOldestIdle(at, false);
        if !ok {
          return;
        }
      }
      if |bots| + |bearers| >= maxClients {
        ok, victim := EvictOldestIdle(at, true);
      }
    }

    ghost function GroupOf(kind: Kind): Group
      reads this
    {
      if kind == Bearer then bearers else bots
    }

    /** Whether `client` must refuse a client it has not seen. */
    ghost predicate Refused(kind: Kind, at: int)
      reads this, States(), set s, b | s in States() && b in s.buckets.Values :: b
    {
      if Full(kind) then !SomeIdle(at, false) else |bots| + |bearers| >= maxClients && !SomeIdle(at, true)
    }

    method Register(kind: Kind, key: Key, state: ClientState)
      requires Valid() && kind != Anonymous && key !in GroupOf(kind)
      requires state.slots == slots && New(bots, state) && New(bearers, state) && state != noAuth
      requires |bots| + |bearers| < maxClients && !Full(kind)
      modifies this`bots, this`bearers
      ensures Valid()
      ensures bots == if kind == Bot then old(bots)[key := state] else old(bots)
      ensures bearers == if kind == Bearer then old(bearers)[key := state] else old(bearers)
    {
      hide Apart, Sharing, New;
      if kind == Bearer {
        InsertSize(bearers, key, state);
        InsertBearer(bots, bearers, key, state);
        InsertSharing(bearers, noAuth, slots, key, state);
        bearers := bearers[key := state];
      } else {
        InsertSize(bots, key, state);
        InsertBot(bots, bearers, key, state);
        InsertSharing(bots, noAuth, slots, key, state);
        bots := bots[key := state];
      }
    }

    method Install(kind: Kind, key: Key, zero: int, at: int) returns (state: ClientState)
      requires Valid() && kind != Anonymous && key !in GroupOf(kind)
      requires |bots| + |bearers| < maxClients && !Full(kind)
      modifies this`bots, this`bearers
      ensures Valid()
      ensures fresh(state) && state.active == 1 && state.View() == Empty()
      ensures bots == if kind == Bot then old(bots)[key := state] else old(bots)
      ensures bearers == if kind == Bearer then old(bearers)[key := state] else old(bearers)
    {
      hide Valid;
      state := new ClientState(slots, zero, at);
      Register(kind, key, state);
      state.Begin(at);
    }

    /** Who had to leave: nobody, or the least recently used idle client of the group that is full. */
    ghost predicate Chosen(kind: Kind, at: int, victim: ClientState?)
      reads this, States(), set s, b | s in States() && b in s.buckets.Values :: b
      reads if victim == null then {} else {victim} + victim.buckets.Values
    {
      victim != null ==>
        && (Full(kind) || |bots| + |bearers| >= maxClients)
        && (victim in bearers.Values || (!Full(kind) && victim in bots.Values))
        && OldestIn(at, bearers, victim) && (!Full(kind) ==> OldestIn(at, bots, victim))
    }

    /** `client` for a key that is not registered. */
    method Admit(kind: Kind, key: Key, zero: int, at: int) returns (r: Admitted, ghost victim: ClientState?)
      requires Valid() && kind != Anonymous && key !in GroupOf(kind)
      modifies this`bots, this`bearers, slots`used, States()
      ensures Valid()
      ensures r.TooMany? <==> old(Refused(kind, at))
      ensures r.TooMany? ==> victim == null && Untouched(old(States()))
      ensures !r.TooMany? ==>
                && r.Client? && fresh(r.state) && r.state.active == 1 && r.state.View() == Empty()
                && bots == (if kind == Bot then Without(old(bots), victim)[key := r.state]
                            else Without(old(bots), victim))
                && bearers == (if kind == Bearer then Without(old(bearers), victim)[key := r.state]
                               else Without(old(bearers), victim))
      ensures victim != null ==> old(allocated(victim)) && old(Chosen(kind, at, victim))
      ensures slots.used == old(slots.used) - if victim == null then 0 else old(Slots(victim.View()))
      ensures forall s :: s in old(States()) && s != victim ==> unchanged(s)
    {
      hide OldestIn, NoneIdle, SomeIdle, Valid, Chosen, Without;
      var ok;
      ok, victim := MakeRoom(kind, at);
      if !ok {
        return TooMany, victim;
      }
      var state := Install(kind, key, zero, at);
      r := Admitted.Client(state);
    }

    /** `client`. */
    method Client(kind: Kind, key: Key, zero: int, at: int) returns (r: Admitted, ghost victim: ClientState?)
      requires Valid()
      modifies this`bots, this`bearers, slots`used, States(), if noAuth == null then {} else {noAuth}
      ensures Valid()
      ensures r.Closed? <==> cancelled || (kind == Anonymous && noAuth == null)
      ensures r.TooMany? <==> !r.Closed? && kind != Anonymous && key !in old(GroupOf(kind)) && old(Refused(kind, at))
      ensures r.Closed? || r.TooMany? ==> victim == null && Untouched(old(States()))
      ensures r.Client? && kind == Anonymous ==> r.state == noAuth
      ensures r.Client? && kind != Anonymous ==> key in GroupOf(kind) && GroupOf(kind)[key] == r.state
      ensures r.Client? && (kind == Anonymous || key in old(GroupOf(kind))) ==>
                && victim == null && bots == old(bots) && bearers == old(bearers) && slots.used == old(slots.used)
                && old(allocated(r.state))
                && r.state.active == old(r.state.active) + 1 && r.state.View() == old(r.state.View())
                && forall s :: s in old(States()) && s != r.state ==> unchanged(s)
      ensures r.Client? && kind != Anonymous && key !in old(GroupOf(kind)) ==>
                && fresh(r.state) && r.state.active == 1 && r.state.View() == Empty()
                && bots == (if kind == Bot then Without(old(bots), victim)[key := r.state]
                            else Without(old(bots), victim))
                && bearers == (if kind == Bearer then Without(old(bearers), victim)[key := r.state]
                               else Without(old(bearers), victim))
                && (victim != null ==> old(allocated(victim)) && old(Chosen(kind, at, victim)))
                && slots.used == old(slots.used) - (if victim == null then 0 else old(Slots(victim.View())))
                && forall s :: s in old(States()) && s != victim ==> unchanged(s)
    {
      hide OldestIn, NoneIdle, SomeIdle, Valid, Chosen, Without, Refused;
      victim := null;
      if cancelled || (kind == Anonymous && noAuth == null) {
        return Closed, victim;
      }
      if kind == Anonymous {
        noAuth.Begin(at);
        NoAuthApart();
        return Admitted.Client(noAuth), victim;
      }
      var states := if kind == Bearer then bearers else bots;
      if key in states {
        states[key].Begin(at);
        return Admitted.Client(states[key]), victim;
      }
      r, victim := Admit(kind, key, zero, at);
    }

    lemma NoAuthApart()
      requires Valid()
      ensures noAuth != null ==> noAuth !in States()
    {
    }
  }
}
