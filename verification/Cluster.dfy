/** Cluster routing: rendezvous hashing over the members (`mix64`, `rendezvousMember`, `reindexMembers`,
    `calculateRoute`) and the one-hop forwarding of requests (`ServeHTTP`). */
module Cluster {
  import opened Base

  // ----- mix64, stage by stage, and the inverse of each stage -----

  function Add(x: bv64): bv64 { x + 0x9e3779b97f4a7c15 }
  function Subtract(x: bv64): bv64 { x - 0x9e3779b97f4a7c15 }
  function Fold30(x: bv64): bv64 { x ^ (x >> 30) }
  function Unfold30(x: bv64): bv64 { x ^ (x >> 30) ^ (x >> 60) }
  function Fold27(x: bv64): bv64 { x ^ (x >> 27) }
  function Unfold27(x: bv64): bv64 { x ^ (x >> 27) ^ (x >> 54) }
  function Fold31(x: bv64): bv64 { x ^ (x >> 31) }
  function Unfold31(x: bv64): bv64 { x ^ (x >> 31) ^ (x >> 62) }
  function Times1(x: bv64): bv64 { x * 0xbf58476d1ce4e5b9 }
  function Over1(x: bv64): bv64 { x * 0x96de1b173f119089 }
  function Times2(x: bv64): bv64 { x * 0x94d049bb133111eb }
  function Over2(x: bv64): bv64 { x * 0x319642b2d24d8ec3 }

  function Mix64(value: bv64): bv64 {
    Fold31(Times2(Fold27(Times1(Fold30(Add(value))))))
  }

  function Unmix64(mixed: bv64): bv64 {
    Subtract(Unfold30(Over1(Unfold27(Over2(Unfold31(mixed))))))
  }

  lemma AddInverse(x: bv64)
    ensures Subtract(Add(x)) == x && Add(Subtract(x)) == x
  {
  }

  lemma Fold30Inverse(x: bv64)
    ensures Unfold30(Fold30(x)) == x
    ensures Fold30(Unfold30(x)) == x
  {
    calc {
      Unfold30(Fold30(x));
      Unfold30(x ^ (x >> 30));
      (x ^ (x >> 30)) ^ ((x ^ (x >> 30)) >> 30) ^ ((x ^ (x >> 30)) >> 60);
      x;
    }
    calc {
      Fold30(Unfold30(x));
      Fold30(x ^ (x >> 30) ^ (x >> 60));
      (x ^ (x >> 30) ^ (x >> 60)) ^ ((x ^ (x >> 30) ^ (x >> 60)) >> 30);
      x;
    }
  }

  lemma Fold27Inverse(x: bv64)
    ensures Unfold27(Fold27(x)) == x
    ensures Fold27(Unfold27(x)) == x
  {
    calc {
      Unfold27(Fold27(x));
      Unfold27(x ^ (x >> 27));
      (x ^ (x >> 27)) ^ ((x ^ (x >> 27)) >> 27) ^ ((x ^ (x >> 27)) >> 54);
      x;
    }
    calc {
      Fold27(Unfold27(x));
      Fold27(x ^ (x >> 27) ^ (x >> 54));
      (x ^ (x >> 27) ^ (x >> 54)) ^ ((x ^ (x >> 27) ^ (x >> 54)) >> 27);
      x;
    }
  }

  lemma Fold31Inverse(x: bv64)
    ensures Unfold31(Fold31(x)) == x
    ensures Fold31(Unfold31(x)) == x
  {
    calc {
      Unfold31(Fold31(x));
      Unfold31(x ^ (x >> 31));
      (x ^ (x >> 31)) ^ ((x ^ (x >> 31)) >> 31) ^ ((x ^ (x >> 31)) >> 62);
      x;
    }
    calc {
      Fold31(Unfold31(x));
      Fold31(x ^ (x >> 31) ^ (x >> 62));
      (x ^ (x >> 31) ^ (x >> 62)) ^ ((x ^ (x >> 31) ^ (x >> 62)) >> 31);
      x;
    }
  }

  lemma Times1Inverse(x: bv64)
    ensures Over1(Times1(x)) == x
    ensures Times1(Over1(x)) == x
  {
    calc {
      Over1(Times1(x));
      Over1(x * 0xbf58476d1ce4e5b9);
      (x * 0xbf58476d1ce4e5b9) * 0x96de1b173f119089;
      x;
    }
    calc {
      Times1(Over1(x));
      Times1(x * 0x96de1b173f119089);
      (x * 0x96de1b173f119089) * 0xbf58476d1ce4e5b9;
      x;
    }
  }

  lemma Times2Inverse(x: bv64)
    ensures Over2(Times2(x)) == x
    ensures Times2(Over2(x)) == x
  {
    calc {
      Over2(Times2(x));
      Over2(x * 0x94d049bb133111eb);
      (x * 0x94d049bb133111eb) * 0x319642b2d24d8ec3;
      x;
    }
    calc {
      Times2(Over2(x));
      Times2(x * 0x319642b2d24d8ec3);
      (x * 0x319642b2d24d8ec3) * 0x94d049bb133111eb;
      x;
    }
  }

  /** The mixer is a bijection on 64-bit words: nothing is lost and no two values collide. */
  lemma MixBijective(x: bv64)
    ensures Unmix64(Mix64(x)) == x && Mix64(Unmix64(x)) == x
  {
    hide Add, Subtract, Fold30, Unfold30, Fold27, Unfold27, Fold31, Unfold31, Times1, Over1, Times2, Over2;
    var a := Fold30(Add(x));
    var b := Fold27(Times1(a));
    AddInverse(x);
    Fold30Inverse(Add(x));
    Times1Inverse(a);
    Fold27Inverse(Times1(a));
    Times2Inverse(b);
    Fold31Inverse(Times2(b));
    var c := Over2(Unfold31(x));
    var d := Over1(Unfold27(c));
    Fold31Inverse(x);
    Times2Inverse(Unfold31(x));
    Fold27Inverse(c);
    Times1Inverse(Unfold27(c));
    Fold30Inverse(d);
    AddInverse(Unfold30(d));
  }

  // ----- rendezvousMember -----

  /** Names are compared by the order of their number. */
  datatype Member = Member(name: nat, address: nat, hash: bv64)

  function Combine(key: bv64, hash: bv64): bv64 {
    key ^ hash
  }

  function Unsigned(word: bv64): nat {
    word as nat
  }

  function Score(key: bv64, m: Member): nat {
    Unsigned(Mix64(Combine(key, m.hash)))
  }

  lemma CombineInjective(key: bv64, a: bv64, b: bv64)
    requires Combine(key, a) == Combine(key, b)
    ensures a == b
  {
  }

  lemma Roundtrip(a: bv64)
    ensures (a as nat) as bv64 == a
  {
  }

  lemma UnsignedInjective(a: bv64, b: bv64)
    requires Unsigned(a) == Unsigned(b)
    ensures a == b
  {
    Roundtrip(a);
    Roundtrip(b);
  }

  /** For every key, members with different hashes have different scores. */
  lemma ScoreInjective(key: bv64, m: Member, n: Member)
    requires Score(key, m) == Score(key, n)
    ensures m.hash == n.hash
  {
    hide Mix64, Unsigned, Combine;
    UnsignedInjective(Mix64(Combine(key, m.hash)), Mix64(Combine(key, n.hash)));
    SameMix(Combine(key, m.hash), Combine(key, n.hash));
    CombineInjective(key, m.hash, n.hash);
  }

  lemma SameMix(x: bv64, y: bv64)
    requires Mix64(x) == Mix64(y)
    ensures x == y
  {
    hide Mix64, Unmix64;
    MixBijective(x);
    MixBijective(y);
  }

  lemma CombineSwaps(key: bv64, hash: bv64)
    ensures Combine(key, hash) == Combine(hash, key)
    ensures Combine(Combine(key, hash), hash) == key
  {
  }

  /** For every member, different keys have different scores. */
  lemma ScoreTellsKeysApart(a: bv64, b: bv64, m: Member)
    requires Score(a, m) == Score(b, m)
    ensures a == b
  {
    hide Mix64, Unsigned, Combine;
    UnsignedInjective(Mix64(Combine(a, m.hash)), Mix64(Combine(b, m.hash)));
    SameMix(Combine(a, m.hash), Combine(b, m.hash));
    CombineSwaps(a, m.hash);
    CombineSwaps(b, m.hash);
  }

  /** The mixer at zero, which is the first word of SplitMix64 for the seed zero. */
  lemma MixOfZero()
    ensures Mix64(0) == 0xe220a8397b1dcdaf
  {
  }

  /** The member at `i` has the best score, and no earlier member has that score. */
  ghost predicate Wins(key: bv64, members: seq<Member>, i: int) {
    && 0 <= i < |members|
    && (forall j :: 0 <= j < |members| ==> Score(key, members[j]) <= Score(key, members[i]))
    && (forall j :: 0 <= j < i ==> Score(key, members[j]) < Score(key, members[i]))
  }

  function Owner(key: bv64, members: seq<Member>): Member
    requires members != []
  {
    var last := members[|members| - 1];
    if |members| == 1 then last
    else
      var before := Owner(key, members[..|members| - 1]);
      if Score(key, last) > Score(key, before) then last else before
  }

  method RendezvousMember(key: bv64, members: seq<Member>) returns (selected: Member)
    requires members != []
    ensures selected == Owner(key, members)
  {
    hide Score;
    var best := 0;
    selected := members[0];
    for index := 0 to |members|
      invariant index > 0 ==> selected == Owner(key, members[..index]) && best == Score(key, selected)
    {
      var score := Score(key, members[index]);
      assert members[..index + 1][..index] == members[..index];
      if index == 0 || score > best {
        selected, best := members[index], score;
      }
    }
    assert members[..|members|] == members;
  }

  lemma {:induction false} OwnerWins(key: bv64, members: seq<Member>) returns (i: int)
    requires members != []
    ensures Wins(key, members, i) && Owner(key, members) == members[i]
  {
    hide Score;
    var n := |members| - 1;
    if n == 0 {
      i := 0;
    } else {
      var before := members[..n];
      i := OwnerWins(key, before);
      assert forall j :: 0 <= j < n ==> members[j] == before[j];
      if Score(key, members[n]) > Score(key, before[i]) {
        i := n;
      }
    }
  }

  lemma OwnerIndex(key: bv64, members: seq<Member>) returns (i: nat)
    requires members != []
    ensures i < |members| && Owner(key, members) == members[i]
  {
    hide Owner, Score;
    i := OwnerWins(key, members);
  }

  lemma WinnerIsOwner(key: bv64, members: seq<Member>, i: int)
    requires Wins(key, members, i)
    ensures Owner(key, members) == members[i]
  {
    hide Score;
    var j := OwnerWins(key, members);
    assert i == j;
  }

  const TOP: bv64 := 0xffff_ffff_ffff_ffff

  lemma TopIsGreatest(word: bv64)
    ensures Unsigned(word) <= Unsigned(TOP)
  {
  }

  /** Whoever's word for the key is the greatest there is owns the key, or shares its hash with the owner. */
  lemma GreatestWordOwns(key: bv64, members: seq<Member>, i: nat)
    requires i < |members| && Mix64(key ^ members[i].hash) == TOP
    ensures Owner(key, members).hash == members[i].hash
  {
    hide Mix64, Unsigned;
    var j := OwnerWins(key, members);
    assert Score(key, members[i]) <= Score(key, members[j]);
    TopIsGreatest(Mix64(key ^ members[j].hash));
    ScoreInjective(key, members[i], members[j]);
  }

  lemma KeyForTop(hash: bv64) returns (key: bv64)
    ensures Mix64(key ^ hash) == TOP
  {
    hide Mix64, Unmix64;
    var word := Unmix64(TOP);
    key := word ^ hash;
    XorTwice(word, hash);
    MixBijective(TOP);
  }

  lemma XorTwice(a: bv64, b: bv64)
    ensures (a ^ b) ^ b == a
  {
  }

  lemma SameHash(members: seq<Member>, i: nat, j: nat)
    requires DistinctHashes(members) && i < |members| && j < |members| && members[i].hash == members[j].hash
    ensures i == j
  {
  }

  /** With distinct hashes, every member owns some key. */
  lemma EveryMemberOwnsAKey(members: seq<Member>, i: nat) returns (key: bv64)
    requires i < |members| && DistinctHashes(members)
    ensures Owner(key, members) == members[i]
  {
    hide Mix64, Owner, Wins, Score, DistinctHashes;
    key := KeyForTop(members[i].hash);
    GreatestWordOwns(key, members, i);
    var j := OwnerIndex(key, members);
    SameHash(members, i, j);
  }

  function Insert(members: seq<Member>, k: nat, m: Member): seq<Member>
    requires k <= |members|
  {
    members[..k] + [m] + members[k..]
  }

  lemma InsertAt(members: seq<Member>, k: nat, m: Member)
    requires k <= |members|
    ensures var all := Insert(members, k, m);
            && |all| == |members| + 1 && all[k] == m
            && (forall j :: 0 <= j < k ==> all[j] == members[j])
            && (forall j :: k < j < |all| ==> all[j] == members[j - 1])
  {
  }

  /** Whether the member inserted at `k` takes the key from the winner at `i`. */
  predicate Takes(key: bv64, members: seq<Member>, k: nat, m: Member, i: int)
    requires 0 <= i < |members|
  {
    if k <= i then Score(key, m) >= Score(key, members[i]) else Score(key, m) > Score(key, members[i])
  }

  lemma InsertWins(key: bv64, members: seq<Member>, k: nat, m: Member, i: int)
    requires k <= |members| && Wins(key, members, i)
    ensures Wins(key, Insert(members, k, m), if Takes(key, members, k, m, i) then k else if i < k then i else i + 1)
  {
    hide Score, Insert;
    InsertAt(members, k, m);
    var all := Insert(members, k, m);
    var w := if Takes(key, members, k, m, i) then k else if i < k then i else i + 1;
    forall j | 0 <= j < |all|
      ensures Score(key, all[j]) <= Score(key, all[w]) && (j < w ==> Score(key, all[j]) < Score(key, all[w]))
    {
      if j < k {
        assert Score(key, members[j]) <= Score(key, members[i]);
      } else if j > k {
        assert Score(key, members[j - 1]) <= Score(key, members[i]);
      }
    }
  }

  /** A new member takes a key exactly when it beats the old owner's score, or ties with it and stands before it.
      Every other key stays where it was: nothing moves between old members. */
  lemma JoinMovesOnlyToNewMember(key: bv64, members: seq<Member>, k: nat, m: Member) returns (i: int)
    requires k <= |members| && members != []
    ensures Wins(key, members, i)
    ensures Owner(key, Insert(members, k, m)) == if Takes(key, members, k, m, i) then m else Owner(key, members)
  {
    hide Score, Insert, Owner, Takes;
    i := OwnerWins(key, members);
    InsertAt(members, k, m);
    InsertWins(key, members, k, m, i);
    WinnerIsOwner(key, Insert(members, k, m),
                  if Takes(key, members, k, m, i) then k else if i < k then i else i + 1);
  }

  /** Removing a member moves only the keys it owned. */
  lemma LeaveMovesOnlyItsKeys(key: bv64, members: seq<Member>, k: nat)
    requires k < |members| && |members| > 1
    requires Owner(key, members) != members[k]
    ensures Owner(key, members[..k] + members[k + 1..]) == Owner(key, members)
  {
    hide Score, Owner, Takes;
    var rest := members[..k] + members[k + 1..];
    assert Insert(rest, k, members[k]) == members;
    var i := JoinMovesOnlyToNewMember(key, rest, k, members[k]);
  }

  ghost predicate DistinctHashes(members: seq<Member>) {
    forall i, j :: 0 <= i < j < |members| ==> members[i].hash != members[j].hash
  }

  /** With distinct hashes there are no ties, so the owner depends on the set of members and not on their order. */
  lemma OwnerIgnoresOrder(key: bv64, p: seq<Member>, q: seq<Member>)
    requires p != [] && q != [] && DistinctHashes(p)
    requires forall m :: m in p <==> m in q
    ensures Owner(key, p) == Owner(key, q)
  {
    hide Score;
    var i := OwnerWins(key, p);
    var j := OwnerWins(key, q);
    assert q[j] in p && p[i] in q;
    if p[i] != q[j] {
      var a :| 0 <= a < |p| && p[a] == q[j];
      var b :| 0 <= b < |q| && q[b] == p[i];
      assert p[a].hash != p[i].hash;
      assert Score(key, p[a]) <= Score(key, p[i]);
      assert Score(key, q[b]) <= Score(key, q[j]);
      ScoreInjective(key, p[i], q[j]);
      assert false;
    }
  }
}
