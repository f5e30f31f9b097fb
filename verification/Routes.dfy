/** Route identification: the optimistic bucket path (`GetOptimisticBucketPath`), the major parameter
    (`majorParameter`) and the two ways in which they take a path apart.

Characters stand for bytes. The age class of a message id and the id inside an interaction token come from the clock
and from base64; they are parameters.
 */
module Routes {
  import opened Base

  const CHANNELS: string := "channels"
  const GUILDS: string := "guilds"
  const WEBHOOKS: string := "webhooks"
  const INVITES: string := "invites"
  const INTERACTIONS: string := "interactions"
  const TOKEN_PREFIX: string := "aW50ZXJhY3Rpb246"

  // ----- string helpers of the standard library -----

  /** The position of the first `c`, or the length. */
  function Find(s: string, c: char): (i: nat)
    ensures i <= |s|
    ensures forall j :: 0 <= j < i ==> s[j] != c
    ensures i < |s| ==> s[i] == c
  {
    if s == "" || s[0] == c then 0 else 1 + Find(s[1..], c)
  }

  function Split(s: string): (parts: seq<string>)
    ensures parts != []
    decreases |s|
  {
    var i := Find(s, '/');
    if i == |s| then [s] else [s[..i]] + Split(s[i + 1..])
  }

  predicate NoSlash(s: string) {
    forall i :: 0 <= i < |s| ==> s[i] != '/'
  }

  lemma {:induction false} SplitNoSlash(s: string)
    ensures forall k :: 0 <= k < |Split(s)| ==> NoSlash(Split(s)[k])
    decreases |s|
  {
    var i := Find(s, '/');
    if i < |s| {
      SplitNoSlash(s[i + 1..]);
    }
  }

  lemma FindNone(s: string, i: nat)
    requires i <= |s| && (forall j :: 0 <= j < i ==> s[j] != '/') && (i < |s| ==> s[i] == '/')
    ensures Find(s, '/') == i
  {
  }

  /** A slash-free first segment is split off as it is. */
  lemma SplitFirst(head: string, rest: string)
    requires NoSlash(head)
    ensures Split(head) == [head]
    ensures Split(head + "/" + rest) == [head] + Split(rest)
  {
    FindNone(head, |head|);
    var s := head + "/" + rest;
    FindNone(s, |head|);
    assert s[..|head|] == head && s[|head| + 1..] == rest;
  }

  predicate HasPrefix(s: string, p: string) {
    p <= s
  }

  function TrimPrefix(s: string, p: string): string {
    if HasPrefix(s, p) then s[|p|..] else s
  }

  predicate IsNumericInput(s: string) {
    s != "" && forall i :: 0 <= i < |s| ==> '0' <= s[i] <= '9'
  }

  predicate IsSnowflake(s: string) {
    17 <= |s| <= 20 && IsNumericInput(s)
  }

  function BeforeQuery(path: string): string {
    path[..Find(path, '?')]
  }

  // ----- the two normalisers -----

  /** The prefix stripping of `GetOptimisticBucketPath`, after the query is gone. */
  function Stripped(p: string): string {
    if HasPrefix(p, "/api/v") then
      var versioned := p[6..];
      var slash := Find(versioned, '/');
      if slash < |versioned| && IsNumericInput(versioned[..slash]) then versioned[slash + 1..] else p[5..]
    else if HasPrefix(p, "/api/") then p[5..]
    else TrimPrefix(p, "/")
  }

  function BucketParts(path: string): seq<string> {
    Split(Stripped(BeforeQuery(path)))
  }

  predicate IsVersion(part: string) {
    |part| > 1 && part[0] == 'v' && IsNumericInput(part[1..])
  }

  /** `cleanAPIPath` after the query is gone. */
  function Cleaned(p: string): seq<string> {
    var parts := Split(TrimPrefix(p, "/"));
    if parts[0] == "api" then
      if |parts| > 1 && IsVersion(parts[1]) then parts[2..] else parts[1..]
    else
      parts
  }

  function CleanApiPath(path: string): seq<string> {
    Cleaned(BeforeQuery(path))
  }

  /** The paths on which the two normalisers differ: nothing follows `/api` or `/api/v<digits>`, or a path that begins
      with the segment `api` lacks the leading slash. */
  predicate Disagree(p: string) {
    || p == "/api"
    || (HasPrefix(p, "/api/") && IsVersion(p[5..]))
    || (!HasPrefix(p, "/") && Split(p)[0] == "api")
  }

  lemma SlashesOfDigits(s: string)
    requires IsNumericInput(s)
    ensures NoSlash(s)
  {
  }

  lemma ApiTail(p: string)
    requires HasPrefix(p, "/api/")
    ensures Split(TrimPrefix(p, "/")) == ["api"] + Split(p[5..])
  {
    var q := TrimPrefix(p, "/");
    assert q == "api" + "/" + p[5..];
    SplitFirst("api", p[5..]);
  }

  lemma CleanedUnderApi(p: string, tail: seq<string>)
    requires HasPrefix(p, "/api/") && Split(TrimPrefix(p, "/")) == ["api"] + tail
    ensures Cleaned(p) == if tail != [] && IsVersion(tail[0]) then tail[1..] else tail
  {
    hide Split, TrimPrefix, IsVersion;
    var parts := ["api"] + tail;
    assert parts[1..] == tail;
    if tail != [] {
      assert parts[2..] == tail[1..];
    }
  }

  lemma UnderApiLast(p: string)
    requires HasPrefix(p, "/api/") && NoSlash(p[5..])
    ensures Split(Stripped(p)) == Cleaned(p) <==> !IsVersion(p[5..])
  {
    var tail := p[5..];
    FindNone(tail, |tail|);
    NoVersionWithoutSlash(p);
    SplitFirst(tail, "");
    ApiTail(p);
    CleanedUnderApi(p, [tail]);
    hide Split, Stripped, Cleaned, IsVersion, Find, NoSlash;
    assert |Cleaned(p)| == if IsVersion(tail) then 0 else 1;
  }

  lemma UnderApiMore(p: string, i: nat)
    requires HasPrefix(p, "/api/") && i == Find(p[5..], '/') && i < |p[5..]|
    ensures Split(Stripped(p)) == Cleaned(p) && !IsVersion(p[5..])
  {
    var tail := p[5..];
    var first, rest := tail[..i], tail[i + 1..];
    assert tail == first + "/" + rest;
    assert NoSlash(first);
    assert !NoSlash(tail);
    hide Split, Stripped, Cleaned, IsVersion, Find, NoSlash;
    SplitFirst(first, rest);
    ApiTail(p);
    CleanedUnderApi(p, [first] + Split(rest));
    VersionedWithSlash(p, i);
    assert ([first] + Split(rest))[1..] == Split(rest);
    if IsVersion(tail) {
      VersionHasNoSlash(tail);
    }
  }

  /** Under `/api/`, both strip the version exactly when something follows it. */
  lemma UnderApi(p: string)
    requires HasPrefix(p, "/api/")
    ensures Split(Stripped(p)) == Cleaned(p) <==> !IsVersion(p[5..])
  {
    hide Split, Stripped, Cleaned, IsVersion;
    var i := Find(p[5..], '/');
    if i == |p[5..]| {
      UnderApiLast(p);
    } else {
      UnderApiMore(p, i);
    }
  }

  lemma NoVersionWithoutSlash(p: string)
    requires HasPrefix(p, "/api/") && Find(p[5..], '/') == |p[5..]|
    ensures Stripped(p) == p[5..]
  {
    if HasPrefix(p, "/api/v") {
      assert p[6..] == p[5..][1..];
      var versioned := p[6..];
      assert NoSlash(p[5..]);
      FindNone(versioned, |versioned|);
    }
  }

  lemma VersionedWithSlash(p: string, i: nat)
    requires HasPrefix(p, "/api/") && i == Find(p[5..], '/') && i < |p[5..]|
    ensures Stripped(p) == if IsVersion(p[5..][..i]) then p[5..][i + 1..] else p[5..]
  {
    var tail := p[5..];
    if HasPrefix(p, "/api/v") {
      var versioned := p[6..];
      assert versioned == tail[1..] && tail[0] == 'v' && i > 0;
      FindNone(versioned, i - 1);
      assert tail[..i][1..] == versioned[..i - 1];
      assert tail[i + 1..] == versioned[i..];
    } else {
      assert tail == "" || tail[0] != 'v';
    }
  }

  lemma OutsideApi(p: string)
    requires !HasPrefix(p, "/api/")
    ensures Split(Stripped(p)) == Cleaned(p) <==> !Disagree(p)
  {
    var q := TrimPrefix(p, "/");
    assert Stripped(p) == q;
    var i := Find(q, '/');
    var parts := Split(q);
    if parts[0] == "api" {
      assert q[..i] == "api";
      if HasPrefix(p, "/") {
        assert p == "/" + q;
        assert q == "api" && p == "/api";
      }
      assert |Cleaned(p)| < |parts|;
    } else if p == "/api" {
      SplitFirst("api", "");
    }
  }

  /** For every path, the segments behind the bucket path are the segments behind the major parameter, except exactly
      where `Disagree` says. */
  lemma NormalisersAgree(path: string)
    ensures BucketParts(path) == CleanApiPath(path) <==> !Disagree(BeforeQuery(path))
  {
    var p := BeforeQuery(path);
    if HasPrefix(p, "/api/") {
      UnderApi(p);
      assert p[0] == '/';
    } else {
      OutsideApi(p);
    }
  }

  /** On paths with a leading slash the exceptions have fewer than two segments. */
  lemma AgreeOnRoutes(path: string)
    requires HasPrefix(path, "/") && |BucketParts(path)| >= 2
    ensures BucketParts(path) == CleanApiPath(path)
  {
    NormalisersAgree(path);
    var p := BeforeQuery(path);
    if HasPrefix(p, "/api/") && IsVersion(p[5..]) {
      VersionHasNoSlash(p[5..]);
      SplitFirst(p[5..], "");
      FindNone(p[5..], |p[5..]|);
      NoVersionWithoutSlash(p);
      assert false;
    }
    SplitFirst("api", "");
  }

  lemma VersionHasNoSlash(s: string)
    requires IsVersion(s)
    ensures NoSlash(s)
  {
    SlashesOfDigits(s[1..]);
    forall i | 0 <= i < |s|
      ensures s[i] != '/'
    {
      if i > 0 {
        assert s[i] == s[1..][i - 1];
      }
    }
  }

  // ----- majorParameter -----

  /** `hash` renders the hash of a webhook token. */
  function MajorParameter(path: string, hash: string -> string): string {
    var parts := CleanApiPath(path);
    if |parts| < 2 then ""
    else if parts[0] == CHANNELS || parts[0] == GUILDS then parts[0] + ":" + parts[1]
    else if parts[0] == WEBHOOKS then
      if |parts| >= 3 then parts[0] + ":" + parts[1] + ":" + hash(parts[2]) else parts[0] + ":" + parts[1]
    else ""
  }

  // ----- GetOptimisticBucketPath -----

  datatype Age = Old | Fresh | Between

  /** What the clock and base64 say about a segment. */
  datatype Oracle = Oracle(age: string -> Age, interaction: string -> string)

  predicate IsCallback(parts: seq<string>) {
    |parts| == 4 && (parts[0] == GUILDS || parts[0] == INTERACTIONS) && parts[3] == "callback"
  }

  /** The name under which the second segment is kept. */
  function Second(parts: seq<string>): string
    requires |parts| >= 2
  {
    if parts[0] == "users" && IsSnowflake(parts[1]) then "!"
    else if parts[0] == INVITES then "!"
    else parts[1]
  }

  /** What the loop adds for the segment at `p`. */
  function Piece(parts: seq<string>, verb: string, p: nat, o: Oracle): string
    requires 2 <= p < |parts|
  {
    var part := parts[p];
    if IsSnowflake(part) then
      if parts[0] == CHANNELS && parts[p - 1] == "messages" && verb == "DELETE" && p == |parts| - 1 then
        match o.age(part)
        case Old => "/!14dmsg"
        case Fresh => "/!10smsg"
        case Between => ""
      else
        "/!"
    else if parts[0] == CHANNELS && part == "reactions" then
      if verb == "PUT" || verb == "DELETE" then "/reactions/!modify" else "/reactions/!/!"
    else if (p == 2 && (parts[0] == WEBHOOKS || parts[0] == INTERACTIONS)) || |part| >= 64 then
      if HasPrefix(part, TOKEN_PREFIX) then "/" + o.interaction(part) else "/!"
    else
      "/" + part
  }

  predicate Breaks(parts: seq<string>, p: nat)
    requires 2 <= p < |parts|
  {
    parts[0] == CHANNELS && parts[p] == "reactions"
  }

  function Rest(parts: seq<string>, verb: string, p: nat, o: Oracle): string
    requires 2 <= p <= |parts|
    decreases |parts| - p
  {
    if p == |parts| then ""
    else if Breaks(parts, p) then Piece(parts, verb, p, o)
    else Piece(parts, verb, p, o) + Rest(parts, verb, p + 1, o)
  }

  function BucketPath(path: string, verb: string, o: Oracle): string {
    var parts := BucketParts(path);
    if |parts| <= 1 then Stripped(BeforeQuery(path))
    else if IsCallback(parts) then "/" + INTERACTIONS + "/" + parts[1] + "/!/callback"
    else "/" + parts[0] + "/" + Second(parts) + Rest(parts, verb, 2, o)
  }

  /** The function in the source's form: it appends to a builder, segment by segment, and stops at a reaction. */
  method GetOptimisticBucketPath(path: string, verb: string, o: Oracle) returns (bucket: string)
    ensures bucket == BucketPath(path, verb, o)
  {
    hide Stripped, Split, Piece, Second, Breaks;
    var clean := Stripped(BeforeQuery(path));
    var parts := Split(clean);
    if |parts| <= 1 {
      return clean;
    }
    if (parts[0] == GUILDS || parts[0] == INTERACTIONS) && |parts| == 4 && parts[3] == "callback" {
      return "/" + INTERACTIONS + "/" + parts[1] + "/!/callback";
    }
    bucket := "/" + parts[0] + "/" + Second(parts);
    ghost var whole := bucket + Rest(parts, verb, 2, o);
    var p := 2;
    while p < |parts|
      invariant 2 <= p <= |parts|
      invariant bucket + Rest(parts, verb, p, o) == whole
    {
      ghost var piece, rest := Piece(parts, verb, p, o), Rest(parts, verb, p, o);
      assert Breaks(parts, p) ==> rest == piece;
      assert !Breaks(parts, p) ==> bucket + rest == (bucket + piece) + Rest(parts, verb, p + 1, o);
      bucket := bucket + Piece(parts, verb, p, o);
      if Breaks(parts, p) {
        return;
      }
      p := p + 1;
    }
  }

  // ----- what a bucket path reveals -----

  /** Empty, or separated by a slash from what stands before it. */
  predicate Tail(s: string) {
    s == "" || s[0] == '/'
  }

  lemma {:induction false} RestIsTail(parts: seq<string>, verb: string, p: nat, o: Oracle)
    requires 2 <= p <= |parts|
    ensures Tail(Rest(parts, verb, p, o))
    decreases |parts| - p
  {
    if p < |parts| && !Breaks(parts, p) {
      RestIsTail(parts, verb, p + 1, o);
    }
  }

  lemma HeadUnique(x: string, t: string, y: string, u: string)
    requires NoSlash(x) && NoSlash(y) && Tail(t) && Tail(u)
    requires x + t == y + u
    ensures x == y && t == u
  {
    var w := x + t;
    assert |x| < |w| ==> w[|x|] == '/';
    assert |y| < |w| ==> w[|y|] == '/';
    assert forall i :: 0 <= i < |x| ==> w[i] == x[i];
    assert forall i :: 0 <= i < |y| ==> w[i] == y[i];
    assert |x| == |y|;
    assert x == (x + t)[..|x|] == (y + u)[..|x|] == y;
    assert t == (x + t)[|x|..] == u;
  }

  /** A bucket path of two segments or more is a slash, a slash-free first segment, a slash, a slash-free second
      segment and a tail. */
  lemma BucketShape(path: string, verb: string, o: Oracle) returns (first: string, second: string, tail: string)
    requires |BucketParts(path)| >= 2
    ensures BucketPath(path, verb, o) == "/" + (first + ("/" + (second + tail)))
    ensures NoSlash(first) && NoSlash(second) && Tail(tail)
    ensures var parts := BucketParts(path);
            && first == (if IsCallback(parts) then INTERACTIONS else parts[0])
            && second == (if IsCallback(parts) then parts[1] else Second(parts))
  {
    hide Stripped, Split, Rest;
    var parts := BucketParts(path);
    SplitNoSlash(Stripped(BeforeQuery(path)));
    if IsCallback(parts) {
      first, second, tail := INTERACTIONS, parts[1], "/!/callback";
    } else {
      RestIsTail(parts, verb, 2, o);
      first, second, tail := parts[0], Second(parts), Rest(parts, verb, 2, o);
    }
  }

  predicate IsMajor(part: string) {
    part == CHANNELS || part == GUILDS || part == WEBHOOKS
  }

  lemma ShapeUnique(f: string, s: string, t: string, g: string, u: string, v: string)
    requires NoSlash(f) && NoSlash(s) && Tail(t) && NoSlash(g) && NoSlash(u) && Tail(v)
    requires "/" + (f + ("/" + (s + t))) == "/" + (g + ("/" + (u + v)))
    ensures f == g && s == u
  {
    var p, q := f + ("/" + (s + t)), g + ("/" + (u + v));
    assert p == ("/" + p)[1..] && q == ("/" + q)[1..];
    HeadUnique(f, "/" + (s + t), g, "/" + (u + v));
    assert s + t == ("/" + (s + t))[1..] && u + v == ("/" + (u + v))[1..];
    HeadUnique(s, t, u, v);
  }

  lemma MajorNamesId(path: string, hash: string -> string)
    requires HasPrefix(path, "/") && |BucketParts(path)| >= 2 && IsMajor(BucketParts(path)[0])
    ensures var parts := BucketParts(path);
            var id := parts[0] + ":" + parts[1];
            id <= MajorParameter(path, hash) && (parts[0] != WEBHOOKS ==> MajorParameter(path, hash) == id)
  {
    hide BucketParts, CleanApiPath;
    AgreeOnRoutes(path);
  }

  /** Requests for channels, guilds or webhooks share a bucket path only if they name the same id, and the major
      parameter names that id too. */
  lemma SameBucketSameMajor(a: string, b: string, verbA: string, verbB: string, o: Oracle, hash: string -> string)
    requires HasPrefix(a, "/") && |BucketParts(a)| >= 2 && IsMajor(BucketParts(a)[0])
    requires HasPrefix(b, "/") && |BucketParts(b)| >= 2 && IsMajor(BucketParts(b)[0])
    requires BucketPath(a, verbA, o) == BucketPath(b, verbB, o)
    ensures BucketParts(a)[..2] == BucketParts(b)[..2]
    ensures BucketParts(a)[0] != WEBHOOKS ==> MajorParameter(a, hash) == MajorParameter(b, hash)
    ensures BucketParts(a)[0] + ":" + BucketParts(a)[1] <= MajorParameter(a, hash)
  {
    hide BucketParts, BucketPath, MajorParameter, HasPrefix, NoSlash, Tail;
    var f, s, t := BucketShape(a, verbA, o);
    var g, u, v := BucketShape(b, verbB, o);
    ShapeUnique(f, s, t, g, u, v);
    MajorNamesId(a, hash);
    MajorNamesId(b, hash);
  }

  // ----- which requests share a bucket path -----

  /** Everything from a reaction on is one class. */
  predicate ReactionAt(parts: seq<string>, p: nat)
    requires p < |parts|
  {
    parts[0] == "channels" && parts[p] == "reactions"
  }

  /** The id of a message that is deleted: its age decides. */
  predicate DeletedAt(parts: seq<string>, verb: string, p: nat)
    requires 2 <= p < |parts|
  {
    && IsSnowflake(parts[p]) && parts[0] == "channels" && parts[p - 1] == "messages" && verb == "DELETE"
    && p == |parts| - 1
  }

  /** A webhook or interaction token, or anything as long as one. */
  predicate SecretAt(parts: seq<string>, p: nat)
    requires 2 <= p < |parts|
  {
    && !IsSnowflake(parts[p]) && !ReactionAt(parts, p)
    && ((p == 2 && parts[0] in {"webhooks", "interactions"}) || |parts[p]| >= 64)
  }

  predicate PlainAt(parts: seq<string>, p: nat)
    requires 2 <= p < |parts|
  {
    !IsSnowflake(parts[p]) && !ReactionAt(parts, p) && !SecretAt(parts, p)
  }

  /** The segments at `p` mean the same: they are equal, both are ids, both are ids of deleted messages of one age
      class, or both are tokens that name no interaction. */
  ghost predicate SameRole(a: seq<string>, b: seq<string>, verb: string, p: nat, o: Oracle)
    requires 2 <= p < |a| && p < |b|
  {
    || (a[p] == b[p] && (DeletedAt(a, verb, p) <==> DeletedAt(b, verb, p)))
    || (IsSnowflake(a[p]) && IsSnowflake(b[p]) && !DeletedAt(a, verb, p) && !DeletedAt(b, verb, p))
    || (DeletedAt(a, verb, p) && DeletedAt(b, verb, p) && o.age(a[p]) == o.age(b[p]))
    || (SecretAt(a, p) && SecretAt(b, p) && !HasPrefix(a[p], TOKEN_PREFIX) && !HasPrefix(b[p], TOKEN_PREFIX))
  }

  lemma SameRoleSamePiece(a: seq<string>, b: seq<string>, verb: string, p: nat, o: Oracle)
    requires 2 <= p < |a| && p < |b| && a[0] == b[0] && SameRole(a, b, verb, p, o)
    ensures Piece(a, verb, p, o) == Piece(b, verb, p, o)
  {
  }

  /** The two agree on what matters from `p` up to `n`, where both end or both turn to reactions. */
  ghost predicate SameUpTo(a: seq<string>, b: seq<string>, verb: string, p: nat, n: nat, o: Oracle) {
    && 2 <= p <= n <= |a| && n <= |b| && a[0] == b[0]
    && (n == |a| == |b| || (n < |a| && n < |b| && ReactionAt(a, n) && ReactionAt(b, n)))
    && forall i :: p <= i < n ==> SameRole(a, b, verb, i, o) && !ReactionAt(a, i) && !ReactionAt(b, i)
  }

  lemma RestStep(parts: seq<string>, verb: string, p: nat, o: Oracle)
    requires 2 <= p < |parts|
    ensures Rest(parts, verb, p, o)
            == Piece(parts, verb, p, o) + if ReactionAt(parts, p) then "" else Rest(parts, verb, p + 1, o)
  {
    assert Breaks(parts, p) == ReactionAt(parts, p);
    assert Piece(parts, verb, p, o) + "" == Piece(parts, verb, p, o);
  }

  lemma RestEnds(parts: seq<string>, verb: string, o: Oracle)
    requires |parts| >= 2
    ensures Rest(parts, verb, |parts|, o) == ""
  {
  }

  lemma {:induction false} SameRest(a: seq<string>, b: seq<string>, verb: string, p: nat, n: nat, o: Oracle)
    requires SameUpTo(a, b, verb, p, n, o)
    ensures Rest(a, verb, p, o) == Rest(b, verb, p, o)
    decreases n - p
  {
    hide Rest, Piece, SameRole, ReactionAt;
    if p < n {
      SameRoleSamePiece(a, b, verb, p, o);
      SameRest(a, b, verb, p + 1, n, o);
      RestStep(a, verb, p, o);
      RestStep(b, verb, p, o);
    } else if n < |a| {
      RestStep(a, verb, p, o);
      RestStep(b, verb, p, o);
      ReactionPiece(a, verb, p, o);
      ReactionPiece(b, verb, p, o);
    } else {
      RestEnds(a, verb, o);
      RestEnds(b, verb, o);
    }
  }

  /** The second segments are kept apart unless they are user ids or invitations. */
  predicate SameSecond(a: seq<string>, b: seq<string>)
    requires |a| >= 2 && |b| >= 2
  {
    a[1] == b[1] || (a[0] == "users" && IsSnowflake(a[1]) && IsSnowflake(b[1])) || a[0] == "invites"
  }

  /** Requests whose paths differ only in ids beyond the second segment, in tokens, or behind a reaction share a bucket
      path. */
  lemma SharedBucket(a: string, b: string, verb: string, o: Oracle, n: nat)
    requires |BucketParts(a)| >= 2 && |BucketParts(b)| >= 2
    requires !IsCallback(BucketParts(a)) && !IsCallback(BucketParts(b))
    requires SameSecond(BucketParts(a), BucketParts(b)) && SameUpTo(BucketParts(a), BucketParts(b), verb, 2, n, o)
    ensures BucketPath(a, verb, o) == BucketPath(b, verb, o)
  {
    hide BucketParts, Rest, SameRole;
    SameRest(BucketParts(a), BucketParts(b), verb, 2, n, o);
  }

  /** What the loop has written before the segment at `n`. */
  function Written(parts: seq<string>, verb: string, n: nat, o: Oracle): string
    requires 2 <= n <= |parts|
  {
    if n == 2 then "" else Written(parts, verb, n - 1, o) + Piece(parts, verb, n - 1, o)
  }

  lemma {:induction false} RestSplits(parts: seq<string>, verb: string, n: nat, o: Oracle)
    requires 2 <= n <= |parts| && forall i :: 2 <= i < n ==> !ReactionAt(parts, i)
    ensures Rest(parts, verb, 2, o) == Written(parts, verb, n, o) + Rest(parts, verb, n, o)
    decreases n
  {
    hide Rest, Piece, ReactionAt;
    if n == 2 {
      assert "" + Rest(parts, verb, 2, o) == Rest(parts, verb, 2, o);
    } else {
      RestSplits(parts, verb, n - 1, o);
      assert !ReactionAt(parts, n - 1);
      RestStep(parts, verb, n - 1, o);
      var w, piece, rest := Written(parts, verb, n - 1, o), Piece(parts, verb, n - 1, o), Rest(parts, verb, n, o);
      assert w + (piece + rest) == (w + piece) + rest;
    }
  }

  lemma SamePiece(a: seq<string>, b: seq<string>, verb: string, n: nat, o: Oracle)
    requires 2 < n < |a| && n < |b| && a[..n] == b[..n]
    ensures Piece(a, verb, n - 1, o) == Piece(b, verb, n - 1, o)
  {
    hide IsSnowflake, HasPrefix;
    assert forall i :: 0 <= i < n ==> a[i] == a[..n][i] == b[i];
  }

  lemma {:induction false} SameWritten(a: seq<string>, b: seq<string>, verb: string, n: nat, o: Oracle)
    requires 2 <= n < |a| && n < |b| && a[..n] == b[..n]
    ensures Written(a, verb, n, o) == Written(b, verb, n, o)
    decreases n
  {
    hide Piece;
    if n > 2 {
      assert a[..n - 1] == a[..n][..n - 1] == b[..n - 1];
      SameWritten(a, b, verb, n - 1, o);
      SamePiece(a, b, verb, n, o);
    }
  }

  /** The two bucket paths begin alike and go on with the segments at `n`. */
  lemma GoOnWith(a: string, b: string, verb: string, o: Oracle, n: nat) returns (before: string)
    requires var x, y := BucketParts(a), BucketParts(b); 2 <= n < |x| && n < |y| && x[..n] == y[..n]
    requires !IsCallback(BucketParts(a)) && !IsCallback(BucketParts(b))
    requires forall i :: 2 <= i < n ==> !ReactionAt(BucketParts(a), i)
    ensures BucketPath(a, verb, o) == before + Rest(BucketParts(a), verb, n, o)
    ensures BucketPath(b, verb, o) == before + Rest(BucketParts(b), verb, n, o)
  {
    hide BucketParts, Rest, Written;
    var x, y := BucketParts(a), BucketParts(b);
    assert forall i :: 0 <= i < n ==> x[i] == x[..n][i] == y[i];
    SameWritten(x, y, verb, n, o);
    forall i | 2 <= i < n
      ensures !ReactionAt(y, i)
    {
      assert !ReactionAt(x, i);
    }
    RestSplits(x, verb, n, o);
    RestSplits(y, verb, n, o);
    var head := "/" + x[0] + "/" + Second(x);
    before := head + Written(x, verb, n, o);
    assert head + (Written(x, verb, n, o) + Rest(x, verb, n, o)) == before + Rest(x, verb, n, o);
    assert head + (Written(x, verb, n, o) + Rest(y, verb, n, o)) == before + Rest(y, verb, n, o);
  }

  lemma PlainRest(parts: seq<string>, verb: string, p: nat, o: Oracle)
    requires 2 <= p < |parts| && (PlainAt(parts, p) || (IsSnowflake(parts[p]) && !DeletedAt(parts, verb, p)))
    ensures var name := if PlainAt(parts, p) then parts[p] else "!";
            Rest(parts, verb, p, o) == "/" + (name + Rest(parts, verb, p + 1, o))
    ensures Tail(Rest(parts, verb, p + 1, o))
  {
    hide Rest, Piece;
    RestStep(parts, verb, p, o);
    RestIsTail(parts, verb, p + 1, o);
    if PlainAt(parts, p) {
      PlainPiece(parts, verb, p, o);
      assert ("/" + parts[p]) + Rest(parts, verb, p + 1, o) == "/" + (parts[p] + Rest(parts, verb, p + 1, o));
    } else {
      SnowflakeIsNoWord(parts[p]);
      IdPiece(parts, verb, p, o);
      assert "/!" + Rest(parts, verb, p + 1, o) == "/" + ("!" + Rest(parts, verb, p + 1, o));
    }
  }

  /** What follows the channel of a message. */
  function AgeMark(age: Age): string {
    match age
    case Old => "/!14dmsg"
    case Fresh => "/!10smsg"
    case Between => ""
  }

  lemma PlainPiece(parts: seq<string>, verb: string, p: nat, o: Oracle)
    requires 2 <= p < |parts| && PlainAt(parts, p)
    ensures Piece(parts, verb, p, o) == "/" + parts[p]
  {
  }

  lemma IdPiece(parts: seq<string>, verb: string, p: nat, o: Oracle)
    requires 2 <= p < |parts| && IsSnowflake(parts[p])
    ensures Piece(parts, verb, p, o) == if DeletedAt(parts, verb, p) then AgeMark(o.age(parts[p])) else "/!"
  {
  }

  lemma ReactionPiece(parts: seq<string>, verb: string, p: nat, o: Oracle)
    requires 2 <= p < |parts| && ReactionAt(parts, p)
    ensures Piece(parts, verb, p, o) == "/reactions" + if verb in {"PUT", "DELETE"} then "/!modify" else "/!/!"
  {
    assert !IsSnowflake("reactions");
  }

  lemma SnowflakeIsNoWord(s: string)
    requires IsSnowflake(s)
    ensures s != "reactions" && NoSlash(s)
  {
  }

  lemma Differ(before: string, x: string, t: string, y: string, u: string)
    requires NoSlash(x) && NoSlash(y) && Tail(t) && Tail(u) && x != y
    ensures before + ("/" + (x + t)) != before + ("/" + (y + u))
  {
    var a, b := "/" + (x + t), "/" + (y + u);
    if before + a == before + b {
      assert a == (before + a)[|before|..] == b;
      assert x + t == a[1..] && y + u == b[1..];
      HeadUnique(x, t, y, u);
      assert false;
    }
  }

  /** Requests whose paths first differ in two plain segments, or in a plain segment and an id, have different bucket
      paths. */
  lemma ToldApart(a: string, b: string, verb: string, o: Oracle, n: nat)
    requires var x, y := BucketParts(a), BucketParts(b); 2 <= n < |x| && n < |y| && x[..n] == y[..n]
    requires !IsCallback(BucketParts(a)) && !IsCallback(BucketParts(b))
    requires forall i :: 2 <= i < n ==> !ReactionAt(BucketParts(a), i)
    requires PlainAt(BucketParts(a), n) && BucketParts(a)[n] != "!" && BucketParts(a)[n] != BucketParts(b)[n]
    requires PlainAt(BucketParts(b), n) || (IsSnowflake(BucketParts(b)[n]) && !DeletedAt(BucketParts(b), verb, n))
    ensures BucketPath(a, verb, o) != BucketPath(b, verb, o)
  {
    hide BucketPath, Rest, PlainAt, Stripped, Split;
    var x, y := BucketParts(a), BucketParts(b);
    var before := GoOnWith(a, b, verb, o, n);
    PlainRest(x, verb, n, o);
    PlainRest(y, verb, n, o);
    SplitNoSlash(Stripped(BeforeQuery(a)));
    SplitNoSlash(Stripped(BeforeQuery(b)));
    Differ(before, x[n], Rest(x, verb, n + 1, o), if PlainAt(y, n) then y[n] else "!", Rest(y, verb, n + 1, o));
  }

  // ----- the documented routes -----

  /** A message is deleted in a bucket of its age class and reached in one bucket otherwise. */
  lemma MessageBucket(path: string, verb: string, o: Oracle, channel: string, id: string)
    requires BucketParts(path) == ["channels", channel, "messages", id] && IsSnowflake(id)
    ensures BucketPath(path, verb, o)
            == "/channels/" + channel + "/messages" + if verb == "DELETE" then AgeMark(o.age(id)) else "/!"
  {
    hide BucketParts, Rest, Piece;
    var parts := BucketParts(path);
    AtMessages(parts, verb, o);
    SnowflakeIsNoWord(id);
    IdPiece(parts, verb, 3, o);
    RestEnds(parts, verb, o);
    hide IsSnowflake, AgeMark;
    var mark := if verb == "DELETE" then AgeMark(o.age(id)) else "/!";
    assert Rest(parts, verb, 3, o) == mark by { RestStep(parts, verb, 3, o); assert mark + "" == mark; }
    JoinMessage(channel, mark);
  }

  lemma JoinMessage(channel: string, mark: string)
    ensures "/" + "channels" + "/" + channel + ("/messages" + mark) == "/channels/" + channel + "/messages" + mark
  {
  }

  lemma AtMessages(parts: seq<string>, verb: string, o: Oracle)
    requires |parts| >= 4 && parts[0] == "channels" && parts[2] == "messages"
    ensures Rest(parts, verb, 2, o) == "/messages" + Rest(parts, verb, 3, o)
    ensures !IsCallback(parts) && Second(parts) == parts[1]
  {
    hide Rest, Piece;
    assert !IsSnowflake("messages");
    RestStep(parts, verb, 2, o);
    PlainPiece(parts, verb, 2, o);
  }

  /** Adding and removing reactions share a bucket, which is not the one of listing them, whatever the reaction. */
  lemma ReactionBucket(path: string, verb: string, o: Oracle, channel: string, id: string)
    requires |BucketParts(path)| >= 5 && BucketParts(path)[..5] == ["channels", channel, "messages", id, "reactions"]
    requires IsSnowflake(id)
    ensures BucketPath(path, verb, o)
            == "/channels/" + channel + "/messages/!/reactions" +
               if verb in {"PUT", "DELETE"} then "/!modify" else "/!/!"
  {
    hide BucketParts, Rest, Piece, IsSnowflake;
    var parts := BucketParts(path);
    var first := parts[..5];
    assert parts[0] == first[0] && parts[1] == first[1] && parts[2] == first[2] && parts[3] == first[3];
    assert parts[4] == first[4];
    AtMessages(parts, verb, o);
    AtReaction(parts, verb, o);
    JoinReaction(channel, if verb in {"PUT", "DELETE"} then "/!modify" else "/!/!");
  }

  lemma JoinReaction(channel: string, mark: string)
    ensures "/" + "channels" + "/" + channel + ("/messages" + ("/!" + ("/reactions" + mark)))
         == "/channels/" + channel + "/messages/!/reactions" + mark
  {
  }

  lemma AtReaction(parts: seq<string>, verb: string, o: Oracle)
    requires |parts| >= 5 && parts[0] == "channels" && IsSnowflake(parts[3]) && parts[4] == "reactions"
    ensures Rest(parts, verb, 3, o)
            == "/!" + ("/reactions" + if verb in {"PUT", "DELETE"} then "/!modify" else "/!/!")
  {
    hide Rest, Piece;
    SnowflakeIsNoWord(parts[3]);
    IdPiece(parts, verb, 3, o);
    RestStep(parts, verb, 3, o);
    ReactionPiece(parts, verb, 4, o);
    RestStep(parts, verb, 4, o);
    var piece := Piece(parts, verb, 4, o);
    assert piece + "" == piece;
  }

  /** A webhook's token never shows: it is masked, or replaced by the interaction that it names. */
  lemma WebhookBucket(path: string, verb: string, o: Oracle, id: string, token: string)
    requires BucketParts(path) == ["webhooks", id, token]
    ensures BucketPath(path, verb, o)
            == "/webhooks/" + id +
               if !IsSnowflake(token) && HasPrefix(token, TOKEN_PREFIX) then "/" + o.interaction(token) else "/!"
  {
    hide BucketParts;
    var parts := BucketParts(path);
    RestStep(parts, verb, 2, o);
    assert Rest(parts, verb, 3, o) == "";
  }

  /** All users share a bucket, and so do all invitations; `@me` is kept. */
  lemma UserAndInviteBuckets(path: string, verb: string, o: Oracle, name: string)
    ensures BucketParts(path) == ["users", name] ==>
              BucketPath(path, verb, o) == "/users/" + if IsSnowflake(name) then "!" else name
    ensures BucketParts(path) == ["invites", name] ==> BucketPath(path, verb, o) == "/invites/!"
  {
    hide BucketParts;
  }

  /** Callbacks of interactions share a bucket path per id, whatever the token. */
  lemma CallbackBucket(path: string, verb: string, o: Oracle, id: string, token: string)
    requires BucketParts(path) == ["interactions", id, token, "callback"]
    ensures BucketPath(path, verb, o) == "/interactions/" + id + "/!/callback"
  {
    hide BucketParts;
  }

  /** The major parameter names the channel, the guild, or the webhook with its token if there is one; other routes have
      none. */
  lemma MajorIs(path: string, hash: string -> string)
    ensures var parts := CleanApiPath(path);
            MajorParameter(path, hash) ==
              if |parts| >= 2 && parts[0] in {"channels", "guilds"} then parts[0] + ":" + parts[1]
              else if |parts| >= 3 && parts[0] == "webhooks" then "webhooks:" + parts[1] + ":" + hash(parts[2])
              else if |parts| == 2 && parts[0] == "webhooks" then "webhooks:" + parts[1]
              else ""
  {
    hide CleanApiPath;
  }

  lemma BeforeMark(path: string, query: string)
    requires Find(path, '?') == |path|
    ensures BeforeQuery(path + "?" + query) == path == BeforeQuery(path)
  {
    var whole := path + "?" + query;
    assert forall j :: 0 <= j < |path| ==> whole[j] == path[j] != '?';
    FindMark(whole, |path|);
    hide Find;
    assert whole[..|path|] == path;
    assert path[..|path|] == path;
  }

  /** A query is ignored. */
  lemma QueryIgnored(path: string, query: string)
    requires Find(path, '?') == |path|
    ensures BucketParts(path + "?" + query) == BucketParts(path)
    ensures CleanApiPath(path + "?" + query) == CleanApiPath(path)
  {
    hide Split, Stripped, Cleaned, BeforeQuery, Find;
    BeforeMark(path, query);
  }

  lemma {:induction false} FindMark(s: string, i: nat)
    requires i < |s| && s[i] == '?' && forall j :: 0 <= j < i ==> s[j] != '?'
    ensures Find(s, '?') == i
  {
    if i > 0 {
      FindMark(s[1..], i - 1);
    }
  }

  /** The prefix of the API, with its version or without, is ignored. */
  lemma PrefixIgnored(version: string, rest: string)
    requires IsNumericInput(version)
    ensures Stripped("/api/v" + version + "/" + rest) == rest
    ensures !HasPrefix(rest, "v") ==> Stripped("/api/" + rest) == rest
  {
    var p := "/api/v" + version + "/" + rest;
    assert p[..6] == "/api/v" && p[6..] == version + "/" + rest;
    SlashesOfDigits(version);
    FindNone(p[6..], |version|);
    assert p[6..][..|version|] == version && p[6..][|version| + 1..] == rest;
    var q := "/api/" + rest;
    assert q[..5] == "/api/" && q[5..] == rest;
    if HasPrefix(q, "/api/v") {
      assert rest[0] == q[5] == "/api/v"[5];
      assert rest[..1] == "v";
    }
  }

  // ----- ids -----

  function Power(n: nat): nat {
    if n == 0 then 1 else 10 * Power(n - 1)
  }

  function Value(s: string): nat
    requires forall i :: 0 <= i < |s| ==> '0' <= s[i] <= '9'
  {
    if s == "" then 0 else 10 * Value(s[..|s| - 1]) + (s[|s| - 1] as int - '0' as int)
  }

  lemma {:induction false} ValueBounds(s: string)
    requires IsNumericInput(s) && s[0] != '0'
    ensures Power(|s| - 1) <= Value(s) < Power(|s|)
  {
    if |s| == 1 {
      assert s[..0] == "";
      assert Power(1) == 10 * Power(0);
    } else {
      ValueBounds(s[..|s| - 1]);
    }
  }

  lemma {:induction false} PowerGrows(a: nat, b: nat)
    requires a <= b
    ensures Power(a) <= Power(b)
    decreases b - a
  {
    if a < b {
      PowerGrows(a, b - 1);
    }
  }

  /** Which numbers count as ids: those from ten to the sixteenth up to ten to the twentieth. */
  lemma SnowflakeIff(s: string)
    requires IsNumericInput(s) && s[0] != '0'
    ensures IsSnowflake(s) <==> Power(16) <= Value(s) < Power(20)
  {
    hide Power, Value;
    ValueBounds(s);
    if |s| < 17 {
      PowerGrows(|s|, 16);
    } else if |s| > 20 {
      PowerGrows(20, |s| - 1);
    } else {
      PowerGrows(16, |s| - 1);
      PowerGrows(|s|, 20);
    }
  }
}
