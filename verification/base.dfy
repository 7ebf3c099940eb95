/** Small shared vocabulary: optional values, results with an error, and integer ranges. */
module Base {

  /** Python's `None` or a present value. */
  datatype Option<+T> = None | Some(value: T)

  /** A computation that either yields a value or raises an error. */
  datatype Result<+T, +E> = Success(value: T) | Failure(error: E)

  /** The ascending run of integers `a, a+1, ..., b-1` (empty when `b <= a`). */
  function Range(a: int, b: int): (r: seq<int>)
    ensures |r| == if a <= b then b - a else 0
    decreases b - a
  {
    if b <= a then [] else [a] + Range(a + 1, b)
  }

  /** A sequence whose elements strictly increase from left to right. */
  predicate StrictlyIncreasing(s: seq<int>)
  {
    forall j, k :: 0 <= j < k < |s| ==> s[j] < s[k]
  }

  /** The k-th element of `Range(a, b)` is `a + k`. */
  lemma RangeAt(a: int, b: int)
    ensures forall k :: 0 <= k < |Range(a, b)| ==> Range(a, b)[k] == a + k
    decreases b - a
  {
    if a < b {
      RangeAt(a + 1, b);
    }
  }

  /** A non-empty range ends just below its upper bound. */
  lemma RangeLast(a: int, b: int)
    requires a < b
    ensures Range(a, b)[|Range(a, b)| - 1] == b - 1
  {
    RangeAt(a, b);
  }

  /** Two adjacent ranges join into one. */
  lemma RangeAppend(a: int, b: int, c: int)
    requires a <= b <= c
    ensures Range(a, b) + Range(b, c) == Range(a, c)
  {
    var l, r := Range(a, b) + Range(b, c), Range(a, c);
    RangeAt(a, b);
    RangeAt(b, c);
    RangeAt(a, c);
    assert |l| == |r|;
    forall k | 0 <= k < |l|
      ensures l[k] == r[k]
    {
      if k < b - a {
        assert l[k] == Range(a, b)[k];
      } else {
        assert l[k] == Range(b, c)[k - (b - a)];
      }
    }
  }

  /** Appending nothing leaves a sequence as it is. */
  lemma AppendNil<T>(s: seq<T>)
    ensures s + [] == s
  {
  }

  /** A range grows at its upper end one value at a time. */
  lemma RangeSnoc(a: int, b: int)
    requires a <= b
    ensures Range(a, b) + [b] == Range(a, b + 1)
  {
    RangeAppend(a, b, b + 1);
    assert Range(b, b + 1) == [b];
  }

  /** Every range is strictly increasing, so no value appears in it twice. */
  lemma RangeIncreasing(a: int, b: int)
    ensures StrictlyIncreasing(Range(a, b))
  {
    RangeAt(a, b);
  }
}
