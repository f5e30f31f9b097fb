/** Route tables and forwarding between nodes: `reindexMembers` builds a table from the gossip view, `calculateRoute`
    consults it and `ServeHTTP` forwards a request at most once. */
module Forwarding {
  import opened Base
  import opened Cluster

  const MAX_PEER_HOPS: nat := 1

  // ----- reindexMembers -----

  /** A node as the membership protocol reports it. `port` is its parsed metadata, 0 when that is not a number. */
  datatype Peer = Peer(member: Member, port: int)

  predicate Routable(p: Peer) {
    1 <= p.port <= 65535
  }

  function Filtered(peers: seq<Peer>): seq<Member> {
    if peers == [] then []
    else
      var last := peers[|peers| - 1];
      Filtered(peers[..|peers| - 1]) + if Routable(last) then [last.member] else []
  }

  lemma {:induction false} FilteredMembers(peers: seq<Peer>, m: Member)
    ensures m in Filtered(peers) <==> exists p :: p in peers && Routable(p) && p.member == m
  {
    if peers != [] {
      var n := |peers| - 1;
      FilteredMembers(peers[..n], m);
      assert peers == peers[..n] + [peers[n]];
    }
  }

  predicate Ordered(s: seq<Member>) {
    forall i, j :: 0 <= i < j < |s| ==> s[i].name < s[j].name
  }

  ghost predicate UniqueNames(peers: seq<Peer>) {
    forall i, j :: 0 <= i < j < |peers| ==> peers[i].member.name != peers[j].member.name
  }

  ghost predicate Distinct(s: seq<Member>) {
    forall i, j :: 0 <= i < j < |s| ==> s[i].name != s[j].name
  }

  ghost predicate NameFree(s: seq<Member>, m: Member) {
    forall i :: 0 <= i < |s| ==> s[i].name != m.name
  }

  /** Insertion by name. */
  function Placed(s: seq<Member>, m: Member): seq<Member> {
    if s == [] || s[|s| - 1].name <= m.name then s + [m]
    else Placed(s[..|s| - 1], m) + [s[|s| - 1]]
  }

  lemma {:induction false} PlacedMembers(s: seq<Member>, m: Member)
    ensures forall x :: x in Placed(s, m) <==> x in s || x == m
  {
    if s == [] || s[|s| - 1].name <= m.name {
    } else {
      PlacedMembers(s[..|s| - 1], m);
      assert s == s[..|s| - 1] + [s[|s| - 1]];
    }
  }

  lemma {:induction false} PlacedOrdered(s: seq<Member>, m: Member)
    requires Ordered(s) && NameFree(s, m)
    ensures Ordered(Placed(s, m))
  {
    if s == [] || s[|s| - 1].name <= m.name {
    } else {
      var n := |s| - 1;
      PlacedOrdered(s[..n], m);
      PlacedMembers(s[..n], m);
      var before := Placed(s[..n], m);
      forall i | 0 <= i < |before|
        ensures before[i].name < s[n].name
      {
        assert before[i] in before;
        assert before[i] in s[..n] || before[i] == m;
      }
    }
  }

  function SortByName(s: seq<Member>): seq<Member> {
    if s == [] then [] else Placed(SortByName(s[..|s| - 1]), s[|s| - 1])
  }

  lemma {:induction false} SortMembers(s: seq<Member>)
    ensures forall x :: x in SortByName(s) <==> x in s
  {
    if s != [] {
      SortMembers(s[..|s| - 1]);
      PlacedMembers(SortByName(s[..|s| - 1]), s[|s| - 1]);
      assert s == s[..|s| - 1] + [s[|s| - 1]];
    }
  }

  lemma {:induction false} SortOrdered(s: seq<Member>)
    requires Distinct(s)
    ensures Ordered(SortByName(s))
  {
    if s != [] {
      var n := |s| - 1;
      SortOrdered(s[..n]);
      SortMembers(s[..n]);
      var t := SortByName(s[..n]);
      forall i | 0 <= i < |t|
        ensures t[i].name != s[n].name
      {
        assert t[i] in t && t[i] in s[..n];
      }
      PlacedOrdered(t, s[n]);
    }
  }

  /** Strictly ordered sequences with the same members are equal. */
  lemma {:induction false} OrderedUnique(s: seq<Member>, t: seq<Member>)
    requires Ordered(s) && Ordered(t)
    requires forall x :: x in s <==> x in t
    ensures s == t
  {
    if s == [] {
      assert forall i :: 0 <= i < |t| ==> t[i] in s;
    } else {
      assert s[0] in t;
      var m, n := |s| - 1, |t| - 1;
      assert s[m] in t && t[n] in s;
      assert s[m] == t[n];
      forall x
        ensures x in s[..m] <==> x in t[..n]
      {
        if x in s[..m] {
          assert x in s && x in t;
        }
        if x in t[..n] {
          assert x in t && x in s;
        }
      }
      OrderedUnique(s[..m], t[..n]);
      assert s == s[..m] + [s[m]] && t == t[..n] + [t[n]];
    }
  }

  lemma {:induction false} FilteredUnique(peers: seq<Peer>)
    requires UniqueNames(peers)
    ensures Distinct(Filtered(peers))
  {
    if peers != [] {
      var n := |peers| - 1;
      FilteredUnique(peers[..n]);
      var f := Filtered(peers[..n]);
      forall i | 0 <= i < |f|
        ensures f[i].name != peers[n].member.name
      {
        FilteredMembers(peers[..n], f[i]);
        assert f[i] in f;
        var p :| p in peers[..n] && p.member == f[i];
      }
      assert Filtered(peers) == f + if Routable(peers[n]) then [peers[n].member] else [];
    }
  }

  datatype Table = Table(members: seq<Member>, local: nat)

  /** A node's routing state; `routes` is absent before it has joined a cluster and while there are too many nodes. */
  datatype Node = Node(overCapacity: bool, routes: Option<Table>)

  method ReindexMembers(peers: seq<Peer>, maxNodes: int, local: nat) returns (node: Node)
    ensures node.overCapacity <==> |peers| > maxNodes
    ensures node.routes == if |peers| > maxNodes then None else Some(Table(SortByName(Filtered(peers)), local))
  {
    if |peers| > maxNodes {
      return Node(true, None);
    }
    var members := [];
    for i := 0 to |peers|
      invariant members == Filtered(peers[..i])
    {
      assert peers[..i + 1][..i] == peers[..i];
      if !(1 <= peers[i].port <= 65535) {
        continue;
      }
      members := members + [peers[i].member];
    }
    assert peers[..|peers|] == peers;
    node := Node(false, Some(Table(SortByName(members), local)));
  }

  /** Two nodes that know the same peers, in whatever order gossip listed them, build the same table. */
  lemma SameViewSameTable(p: seq<Peer>, q: seq<Peer>)
    requires UniqueNames(p) && UniqueNames(q)
    requires forall x :: x in p <==> x in q
    ensures SortByName(Filtered(p)) == SortByName(Filtered(q))
  {
    hide Filtered, SortByName;
    var f, g := Filtered(p), Filtered(q);
    FilteredUnique(p);
    FilteredUnique(q);
    SortOrdered(f);
    SortOrdered(g);
    SortMembers(f);
    SortMembers(g);
    forall x
      ensures x in f <==> x in g
    {
      FilteredMembers(p, x);
      FilteredMembers(q, x);
    }
    OrderedUnique(SortByName(f), SortByName(g));
  }

  // ----- calculateRoute and forwarding -----

  /** `None` stands for the empty answer: the request is served here. */
  function CalculateRoute(node: Node, key: bv64): Option<nat> {
    if node.routes.None? || node.routes.value.members == [] then None
    else
      var owner := Owner(key, node.routes.value.members);
      if owner.address == node.routes.value.local then None else Some(owner.address)
  }

  datatype Outcome = Served(at: nat) | NotConverged(at: nat) | OverCapacity(at: nat) | Unreachable(at: nat)

  datatype Delivery = Delivery(path: seq<nat>, outcome: Outcome)

  /** One request from the node it arrives at, with the hop count of its header. */
  function Deliver(nodes: map<nat, Node>, at: nat, hop: nat, key: bv64): Delivery
    decreases Max(MAX_PEER_HOPS - hop, 0)
  {
    if at !in nodes then Delivery([at], Unreachable(at))
    else if nodes[at].overCapacity then Delivery([at], OverCapacity(at))
    else
      match CalculateRoute(nodes[at], key)
      case None => Delivery([at], Served(at))
      case Some(target) =>
        if hop >= MAX_PEER_HOPS then Delivery([at], NotConverged(at))
        else
          var rest := Deliver(nodes, target, hop + 1, key);
          Delivery([at] + rest.path, rest.outcome)
  }

  /** Whatever the tables say, a request is forwarded at most once, and not at all if it was forwarded before. It ends
      at the last node it visits, and it is served only where the table of that very node keeps it. */
  lemma ForwardedOnce(nodes: map<nat, Node>, at: nat, hop: nat, key: bv64)
    ensures var d := Deliver(nodes, at, hop, key);
            && 1 <= |d.path| <= 1 + Max(MAX_PEER_HOPS - hop, 0)
            && d.path[0] == at && d.outcome.at == d.path[|d.path| - 1]
            && (d.outcome.Served? ==> d.outcome.at in nodes && CalculateRoute(nodes[d.outcome.at], key).None?)
            && (d.outcome.NotConverged? ==> hop + |d.path| > MAX_PEER_HOPS)
  {
    hide CalculateRoute;
    if at in nodes && CalculateRoute(nodes[at], key).Some? {
      var rest := Deliver(nodes, CalculateRoute(nodes[at], key).value, hop + 1, key);
    }
  }

  /** The node works, knows its own address, and sees this owner for the key. */
  ghost predicate Sees(nodes: map<nat, Node>, a: nat, key: bv64, owner: nat) {
    && a in nodes && !nodes[a].overCapacity && nodes[a].routes.Some?
    && nodes[a].routes.value.local == a && nodes[a].routes.value.members != []
    && Owner(key, nodes[a].routes.value.members).address == owner
  }

  /** If the node where a request enters and the owner it sees agree on the owner, a fresh request is served by that
      owner, and one that already hopped is served there or refused; what any other node believes does not matter. */
  lemma ServedByOwner(nodes: map<nat, Node>, key: bv64, owner: nat, at: nat, hop: nat)
    requires Sees(nodes, at, key, owner) && Sees(nodes, owner, key, owner)
    ensures at == owner ==> Deliver(nodes, at, hop, key) == Delivery([owner], Served(owner))
    ensures at != owner && hop == 0 ==> Deliver(nodes, at, hop, key) == Delivery([at, owner], Served(owner))
    ensures at != owner && hop > 0 ==> Deliver(nodes, at, hop, key) == Delivery([at], NotConverged(at))
  {
    hide Owner;
    assert CalculateRoute(nodes[owner], key).None?;
    if at != owner {
      assert CalculateRoute(nodes[at], key) == Some(owner);
      assert Deliver(nodes, owner, hop + 1, key) == Delivery([owner], Served(owner));
      assert [at] + [owner] == [at, owner];
    }
  }

  /** A fresh request is refused as not converged exactly when the node it was forwarded to is another working one that
      does not see itself as the owner. */
  lemma RefusedIff(nodes: map<nat, Node>, key: bv64, target: nat, at: nat)
    requires Sees(nodes, at, key, target) && at != target
    ensures Deliver(nodes, at, 0, key).outcome == NotConverged(target) <==>
              target in nodes && !nodes[target].overCapacity && CalculateRoute(nodes[target], key).Some?
    ensures Deliver(nodes, at, 0, key).outcome == Served(target) <==>
              target in nodes && !nodes[target].overCapacity && CalculateRoute(nodes[target], key).None?
  {
    hide Owner;
    assert CalculateRoute(nodes[at], key) == Some(target);
    assert Deliver(nodes, at, 0, key).outcome == Deliver(nodes, target, 1, key).outcome;
  }

  /** Each node has indexed its own gossip view. */
  ghost predicate Indexed(nodes: map<nat, Node>, views: map<nat, seq<Peer>>) {
    forall a :: a in nodes ==>
                  && a in views && UniqueNames(views[a])
                  && nodes[a] == Node(false, Some(Table(SortByName(Filtered(views[a])), a)))
  }

  ghost predicate SamePeers(p: seq<Peer>, q: seq<Peer>) {
    forall x :: x in p <==> x in q
  }

  /** Once all nodes know the same peers, all requests for a key are served by one node, wherever they enter. */
  lemma ConvergedServesOnce(nodes: map<nat, Node>, views: map<nat, seq<Peer>>, key: bv64, at: nat)
    requires Indexed(nodes, views) && at in nodes
    requires forall a :: a in nodes ==> SamePeers(views[a], views[at])
    requires SortByName(Filtered(views[at])) != []
    requires forall m :: m in SortByName(Filtered(views[at])) ==> m.address in nodes
    ensures var owner := Owner(key, SortByName(Filtered(views[at]))).address;
            && owner in nodes
            && forall entry :: entry in nodes ==> Deliver(nodes, entry, 0, key).outcome == Served(owner)
  {
    hide Owner, Deliver, CalculateRoute, SortByName, Filtered, Score;
    var members := SortByName(Filtered(views[at]));
    var i := OwnerWins(key, members);
    assert members[i] in members;
    forall a | a in nodes
      ensures nodes[a].routes.value.members == members
    {
      SameViewSameTable(views[a], views[at]);
    }
    forall entry | entry in nodes
      ensures Deliver(nodes, entry, 0, key).outcome == Served(members[i].address)
    {
      ServedByOwner(nodes, key, members[i].address, entry, 0);
    }
  }

  /** The node works, knows its own address and holds the table `before` or the table `after`. */
  ghost predicate Either(nodes: map<nat, Node>, a: nat, before: seq<Member>, after: seq<Member>) {
    && a in nodes && !nodes[a].overCapacity && nodes[a].routes.Some? && nodes[a].routes.value.local == a
    && (nodes[a].routes.value.members == before || nodes[a].routes.value.members == after)
  }

  /** While a node joins, some nodes know of it and some do not. A key that the new member does not take is served by
      its one owner all the same, wherever the request enters, whichever of the two tables entry and owner hold. */
  lemma JoinKeepsOwner(nodes: map<nat, Node>, key: bv64, members: seq<Member>, k: nat, m: Member, at: nat)
    requires k <= |members| && members != [] && Owner(key, Insert(members, k, m)) != m
    requires Either(nodes, at, members, Insert(members, k, m))
    requires Either(nodes, Owner(key, members).address, members, Insert(members, k, m))
    ensures Deliver(nodes, at, 0, key).outcome == Served(Owner(key, members).address)
  {
    hide Owner, Deliver, CalculateRoute, Insert, Takes, Wins;
    var i := JoinMovesOnlyToNewMember(key, members, k, m);
    InsertAt(members, k, m);
    ServedByOwner(nodes, key, Owner(key, members).address, at, 0);
  }

  /** While a node leaves, the keys it did not own stay with their owner, wherever the request enters. */
  lemma LeaveKeepsOwner(nodes: map<nat, Node>, key: bv64, members: seq<Member>, k: nat, at: nat)
    requires k < |members| && |members| > 1 && Owner(key, members) != members[k]
    requires Either(nodes, at, members, members[..k] + members[k + 1..])
    requires Either(nodes, Owner(key, members).address, members, members[..k] + members[k + 1..])
    ensures Deliver(nodes, at, 0, key).outcome == Served(Owner(key, members).address)
  {
    hide Owner, Deliver, CalculateRoute;
    LeaveMovesOnlyItsKeys(key, members, k);
    ServedByOwner(nodes, key, Owner(key, members).address, at, 0);
  }
}
