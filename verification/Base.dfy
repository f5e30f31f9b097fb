/** Shared vocabulary: optional values and the time unit.

Time is an integer count of nanoseconds, as in Go's `time.Duration`; instants and durations share the type.
 */
module Base {
  datatype Option<+T> = None | Some(value: T)

  /** The identity of one HTTP request inside the proxy. */
  type RequestId = nat

  /** A 64-bit route or bucket hash. Only equality of hashes matters to the scheduler. */
  type Key = nat

  const MILLISECOND: int := 1_000_000
  const SECOND: int := 1_000 * MILLISECOND
  const MINUTE: int := 60 * SECOND

  /** How long a bucket or a client must be unused before it may be dropped. */
  const IDLE_TIMEOUT: int := 10 * MINUTE

  function Max(a: int, b: int): int {
    if a < b then b else a
  }

  function Min(a: int, b: int): int {
    if a < b then a else b
  }

  /** A set of integers from a half-open range is no larger than the range. */
  lemma {:induction false} RangeSize(s: set<int>, lo: int, hi: int)
    requires lo <= hi
    requires forall k :: k in s ==> lo <= k < hi
    ensures |s| <= hi - lo
    decreases hi - lo
  {
    if lo == hi {
      assert s == {};
    } else {
      RangeSize(s - {hi - 1}, lo, hi - 1);
    }
  }

  lemma {:induction false} SubsetSize<T>(a: set<T>, b: set<T>)
    requires a <= b
    ensures |a| <= |b|
  {
    if a == {} {
    } else {
      var x :| x in a;
      SubsetSize(a - {x}, b - {x});
    }
  }

  lemma Pick<T>(s: set<T>) returns (x: T)
    requires |s| > 0
    ensures x in s
  {
    x :| x in s;
  }

  /** A nonempty finite set of integers has a least element. */
  lemma {:induction false} Least(s: set<int>) returns (m: int)
    requires |s| > 0
    ensures m in s
    ensures forall k :: k in s ==> m <= k
  {
    var x := Pick(s);
    m := x;
    var rest := s - {x};
    if |rest| > 0 {
      var n := Least(rest);
      m := Min(x, n);
    }
    forall k | k in s
      ensures m <= k
    {
      assert k == x || k in rest;
    }
  }

  /** A set of integers that is a half-open range is as large as the range. */
  lemma {:induction false} ExactRange(s: set<int>, lo: int, hi: int)
    requires lo <= hi && forall k :: k in s <==> lo <= k < hi
    ensures |s| == hi - lo
    decreases hi - lo
  {
    if lo == hi {
      RangeSize(s, lo, hi);
    } else {
      ExactRange(s - {hi - 1}, lo, hi - 1);
    }
  }
}
