/** Numeric helpers shared by the scaler, the rectifier's bounding box and the
    pipeline: truncation toward zero and the extrema of a dataframe column. */
module Numeric {

  /** `n` is `x` with its fractional part dropped, toward zero: at or below
      a non-negative `x` by less than one, at or above a negative one by
      less than one. */
  predicate TruncatesTo(x: real, n: int) {
    && (0.0 <= x ==> n as real <= x < n as real + 1.0)
    && (x < 0.0 ==> n as real - 1.0 < x <= n as real)
  }

  /** Truncation toward zero, as Python's `int()` on a float, NumPy's
      `astype("int")` and `np.int32` behave. Dafny's `Floor` rounds toward
      negative infinity, so negative inputs are handled separately. */
  function Trunc(x: real): (r: int)
    ensures TruncatesTo(x, r)
  {
    if x >= 0.0 then x.Floor else -((-x).Floor)
  }

  /** Truncation toward zero is monotone. */
  lemma TruncMonotone(x: real, y: real)
    requires x <= y
    ensures Trunc(x) <= Trunc(y)
  {
  }

  /** Truncating a whole number gives it back. */
  lemma TruncOfInt(n: int)
    ensures Trunc(n as real) == n
  {
  }

  /** Multiplying by a non-negative factor keeps an order. */
  lemma MulMonotone(a: real, b: real, f: real)
    requires a <= b && 0.0 <= f
    ensures a * f <= b * f
  {
    assert 0.0 <= (b - a) * f;
  }

  /** A real with no fractional part. */
  predicate Integral(x: real) {
    x.Floor as real == x
  }

  /** The minimum of a non-empty column: an entry of it, and no entry is smaller. */
  function Min(s: seq<real>): (m: real)
    requires |s| > 0
    ensures m in s
    ensures forall i :: 0 <= i < |s| ==> m <= s[i]
  {
    if |s| == 1 then s[0]
    else
      var rest := Min(s[1..]);
      if s[0] <= rest then s[0] else rest
  }

  /** The maximum of a non-empty column: an entry of it, and no entry is larger. */
  function Max(s: seq<real>): (m: real)
    requires |s| > 0
    ensures m in s
    ensures forall i :: 0 <= i < |s| ==> s[i] <= m
  {
    if |s| == 1 then s[0]
    else
      var rest := Max(s[1..]);
      if s[0] >= rest then s[0] else rest
  }

  /** An integer column as reals. */
  function AsReals(s: seq<int>): (r: seq<real>)
    ensures |r| == |s| && forall i :: 0 <= i < |s| ==> r[i] == s[i] as real
  {
    seq(|s|, i requires 0 <= i < |s| => s[i] as real)
  }

  /** The maximum of a non-empty integer column, taken as `Max` of the
      column: an entry of it, and no entry is larger. */
  function MaxInt(s: seq<int>): (m: int)
    requires |s| > 0
    ensures m in s
    ensures forall i :: 0 <= i < |s| ==> s[i] <= m
  {
    var x := Max(AsReals(s));
    assert exists k :: 0 <= k < |s| && s[k] as real == x && x.Floor == s[k] by {
      var k :| 0 <= k < |s| && AsReals(s)[k] == x;
    }
    x.Floor
  }

  /** Raising entries pointwise never lowers the maximum. */
  lemma MaxIntMonotone(a: seq<int>, b: seq<int>)
    requires |a| == |b| > 0
    requires forall i :: 0 <= i < |a| ==> a[i] <= b[i]
    ensures MaxInt(a) <= MaxInt(b)
  {
    var k :| 0 <= k < |a| && a[k] == MaxInt(a);
    assert b[k] <= MaxInt(b);
  }
}
