/** The two maps of a client (`clientState.buckets`, `clientState.aliases`) and the operations on them.

A route is looked up through its alias, if it has one, and the key found is looked up among the buckets. The
operations are generic in the type of bucket objects: the protocol names them by number, the class
`ClientState` holds references.
 */
module ClientMaps {
  import opened Base

  datatype Maps<B> = Maps(buckets: map<Key, B>, aliases: map<Key, Key>)

  function Empty<B>(): Maps<B> {
    Maps(map[], map[])
  }

  function KeyOf<B>(m: Maps<B>, route: Key): Key {
    if route in m.aliases then m.aliases[route] else route
  }

  function Resolve<B>(m: Maps<B>, route: Key): Option<B> {
    if KeyOf(m, route) in m.buckets then Some(m.buckets[KeyOf(m, route)]) else None
  }

  /** Entries that count against the shared budget. */
  function Slots<B>(m: Maps<B>): nat {
    |m.buckets| + |m.aliases|
  }

  /** `bucket` on a miss: a new bucket object under the key of the route. */
  function Create<B>(m: Maps<B>, route: Key, made: B): Maps<B> {
    m.(buckets := m.buckets[KeyOf(m, route) := made])
  }

  // ----- learnBucket -----

  function LearnTarget<B>(m: Maps<B>, canonical: Key, current: B): B {
    if canonical in m.buckets then m.buckets[canonical] else current
  }

  predicate DropsRoute<B(==)>(m: Maps<B>, route: Key, canonical: Key, current: B) {
    route in m.buckets && m.buckets[route] == current && route != canonical
  }

  function Additions<B>(m: Maps<B>, route: Key, canonical: Key): nat {
    (if canonical in m.buckets then 0 else 1) + (if route in m.aliases then 0 else 1)
  }

  function Removals<B(==)>(m: Maps<B>, route: Key, canonical: Key, current: B): nat {
    if DropsRoute(m, route, canonical, current) then 1 else 0
  }

  /** The number of slots `learnBucket` must reserve; negative when it gives some back. */
  function Net<B(==)>(m: Maps<B>, route: Key, canonical: Key, current: B): int {
    Additions(m, route, canonical) - Removals(m, route, canonical, current)
  }

  function Learn<B(==)>(m: Maps<B>, route: Key, canonical: Key, current: B): Maps<B> {
    var target := LearnTarget(m, canonical, current);
    var added := m.buckets[canonical := target];
    Maps(if DropsRoute(m, route, canonical, current) then added - {route} else added,
         m.aliases[route := canonical])
  }

  // ----- sweep -----

  function Swept<B(==)>(m: Maps<B>, idle: set<B>): Maps<B> {
    var buckets := map k | k in m.buckets && m.buckets[k] !in idle :: m.buckets[k];
    Maps(buckets, map r | r in m.aliases && m.aliases[r] in buckets :: m.aliases[r])
  }

  // ----- what the operations do to the routes -----

  lemma CreateResolves<B>(m: Maps<B>, route: Key, made: B)
    requires Resolve(m, route).None?
    ensures Resolve(Create(m, route, made), route) == Some(made)
    ensures forall r :: Resolve(m, r).Some? ==> Resolve(Create(m, route, made), r) == Resolve(m, r)
    ensures Slots(Create(m, route, made)) == Slots(m) + 1
  {
    var n := Create(m, route, made);
    assert n.buckets.Keys == m.buckets.Keys + {KeyOf(m, route)};
    assert |n.buckets| == |n.buckets.Keys| && |m.buckets| == |m.buckets.Keys|;
  }

  lemma InsertSize<V>(m: map<Key, V>, k: Key, v: V)
    ensures |m[k := v]| == |m| + if k in m then 0 else 1
  {
    assert m[k := v].Keys == m.Keys + {k};
    assert |m[k := v]| == |m[k := v].Keys| && |m| == |m.Keys|;
  }

  lemma RemoveSize<V>(m: map<Key, V>, k: Key)
    requires k in m
    ensures |m - {k}| == |m| - 1
  {
    assert (m - {k}).Keys == m.Keys - {k};
    assert |m - {k}| == |(m - {k}).Keys| && |m| == |m.Keys|;
  }

  /** Whatever the hashes, the slots that `learnBucket` accounts for are the entries it adds and removes. */
  lemma LearnSlots<B>(m: Maps<B>, route: Key, canonical: Key, current: B)
    ensures Slots(Learn(m, route, canonical, current)) == Slots(m) + Net(m, route, canonical, current)
  {
    var target := LearnTarget(m, canonical, current);
    InsertSize(m.buckets, canonical, target);
    InsertSize(m.aliases, route, canonical);
    if DropsRoute(m, route, canonical, current) {
      RemoveSize(m.buckets[canonical := target], route);
    }
  }

  /** The learning route ends up on the target bucket, and the target is registered under the canonical key. */
  lemma LearnResolves<B>(m: Maps<B>, route: Key, canonical: Key, current: B)
    ensures Resolve(Learn(m, route, canonical, current), route) == Some(LearnTarget(m, canonical, current))
    ensures var n := Learn(m, route, canonical, current);
            canonical in n.buckets && n.buckets[canonical] == LearnTarget(m, canonical, current)
  {
  }

  /** Another route keeps its bucket unless `learnBucket` drops the very entry that this other route is aliased to,
      which takes a route hash that is also somebody's canonical hash. */
  lemma LearnKeepsOther<B>(m: Maps<B>, route: Key, canonical: Key, current: B, other: Key)
    requires other != route && Resolve(m, other).Some?
    ensures Resolve(Learn(m, route, canonical, current), other) == Resolve(m, other)
            <==> !(DropsRoute(m, route, canonical, current) && other in m.aliases && m.aliases[other] == route)
  {
  }

  /** A route that is looked up through a bucket other than `current` keeps that bucket, collisions or not. */
  lemma LearnKeepsForeign<B>(m: Maps<B>, route: Key, canonical: Key, current: B, other: Key)
    requires other != route && Resolve(m, other).Some? && Resolve(m, other).value != current
    ensures Resolve(Learn(m, route, canonical, current), other) == Resolve(m, other)
  {
  }

  /** A sweep drops exactly the idle buckets, and exactly the aliases that it leaves without a bucket or finds so. */
  lemma SweptExact<B>(m: Maps<B>, idle: set<B>, k: Key)
    ensures k in Swept(m, idle).buckets <==> k in m.buckets && m.buckets[k] !in idle
    ensures k in Swept(m, idle).aliases <==>
              k in m.aliases && m.aliases[k] in m.buckets && m.buckets[m.aliases[k]] !in idle
  {
  }

  lemma SweptResolves<B>(m: Maps<B>, idle: set<B>)
    ensures forall r :: Resolve(m, r).Some? && Resolve(m, r).value !in idle ==>
                          Resolve(Swept(m, idle), r) == Resolve(m, r)
    ensures Slots(Swept(m, idle)) <= Slots(m)
  {
    var n := Swept(m, idle);
    assert n.buckets.Keys <= m.buckets.Keys && n.aliases.Keys <= m.aliases.Keys;
    SubsetSize(n.buckets.Keys, m.buckets.Keys);
    SubsetSize(n.aliases.Keys, m.aliases.Keys);
    assert |n.buckets| == |n.buckets.Keys| && |m.buckets| == |m.buckets.Keys|;
    assert |n.aliases| == |n.aliases.Keys| && |m.aliases| == |m.aliases.Keys|;
  }

  // ----- alias integrity when route hashes and canonical hashes are disjoint -----

  /** Aliases lead from route hashes to canonical hashes, to a bucket that exists, and an aliased route has no
      entry of its own. */
  ghost predicate Integrity<B>(m: Maps<B>, canon: iset<Key>) {
    forall r :: r in m.aliases ==>
                  r !in canon && m.aliases[r] in canon && m.aliases[r] in m.buckets && r !in m.buckets
  }

  lemma CreateKeepsIntegrity<B>(m: Maps<B>, route: Key, made: B, canon: iset<Key>)
    requires Integrity(m, canon) && Resolve(m, route).None?
    ensures Integrity(Create(m, route, made), canon)
  {
    assert route !in m.aliases;
  }

  lemma LearnKeepsIntegrity<B>(m: Maps<B>, route: Key, canonical: Key, current: B, canon: iset<Key>)
    requires Integrity(m, canon) && route !in canon && canonical in canon
    requires Resolve(m, route) == Some(current)
    ensures Integrity(Learn(m, route, canonical, current), canon)
  {
  }

  lemma SweptKeepsIntegrity<B>(m: Maps<B>, idle: set<B>, canon: iset<Key>)
    requires Integrity(m, canon)
    ensures Integrity(Swept(m, idle), canon)
  {
  }

  /** Routes with the same alias share one bucket object. */
  lemma SameAliasSameBucket<B>(m: Maps<B>, r: Key, s: Key, canon: iset<Key>)
    requires Integrity(m, canon) && r in m.aliases && s in m.aliases && m.aliases[r] == m.aliases[s]
    ensures Resolve(m, r).Some? && Resolve(m, r) == Resolve(m, s)
  {
  }

  /** Without disjointness the guarantee is lost: whenever learning drops an entry that another route is aliased to,
      that route is left without any bucket, while the learning route keeps one. */
  lemma CollisionLosesBucket<B>(m: Maps<B>, route: Key, canonical: Key, current: B, other: Key)
    requires other != route && DropsRoute(m, route, canonical, current)
    requires other in m.aliases && m.aliases[other] == route
    ensures Resolve(Learn(m, route, canonical, current), other).None?
    ensures Resolve(Learn(m, route, canonical, current), route) == Some(LearnTarget(m, canonical, current))
  {
  }
}
