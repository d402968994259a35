/**
 * The numeric vocabulary the Python code borrows from its runtime and from
 * numpy, written out over exact reals: the built-in `round`, the
 * `max(0, min(500, ...))` clamp applied to every AQI, `sum`/`np.mean`,
 * the slices `xs[-k:]` and `xs[:k]`, `range(n)` for a possibly negative `n`,
 * and `np.convolve(xs, np.ones(w)/w, mode='valid')`.
 */
module Numeric {

  /** Python's `round(x)` for one argument: the nearest integer, ties going to the even neighbour. */
  function Round(x: real): (r: int)
    ensures x - 0.5 <= r as real <= x + 0.5
    ensures r as real == x - 0.5 || r as real == x + 0.5 ==> r % 2 == 0
  {
    var f := x.Floor;
    var d := x - f as real;
    if d < 0.5 then f
    else if d > 0.5 then f + 1
    else if f % 2 == 0 then f
    else f + 1
  }

  lemma RoundOfInt(n: int)
    ensures Round(n as real) == n
  {
  }

  /** Rounding never inverts the order of two reals. */
  lemma RoundMonotone(x: real, y: real)
    requires x <= y
    ensures Round(x) <= Round(y)
  {
  }

  /** A real lying between two integers rounds to an integer between them. */
  lemma RoundBetween(x: real, lo: int, hi: int)
    requires lo as real <= x <= hi as real
    ensures lo <= Round(x) <= hi
  {
    RoundMonotone(lo as real, x);
    RoundMonotone(x, hi as real);
    RoundOfInt(lo);
    RoundOfInt(hi);
  }

  /** `max(0, min(500, v))`: the value of [0, 500] nearest to `v`. */
  function ClampAqi(v: int): (r: int)
    ensures 0 <= r <= 500
    ensures 0 <= v <= 500 ==> r == v
    ensures v < 0 ==> r == 0
    ensures v > 500 ==> r == 500
  {
    if v < 0 then 0 else if v > 500 then 500 else v
  }

  /** `max(0, min(500, round(x)))`, the last step of every point forecast. */
  function ClampRound(x: real): (r: int)
    ensures 0 <= r <= 500
  {
    ClampAqi(Round(x))
  }

  lemma ClampRoundMonotone(x: real, y: real)
    requires x <= y
    ensures ClampRound(x) <= ClampRound(y)
  {
    RoundMonotone(x, y);
  }

  /** Number of iterations of `range(n)`: none when `n` is negative. */
  function Horizon(n: int): (h: nat)
    ensures n >= 0 ==> h == n
    ensures n < 0 ==> h == 0
  {
    if n < 0 then 0 else n
  }

  /** `base + trend * (i + 1)`: the straight-line step the forecasters take for day `i` of the horizon. */
  function Extrapolate(base: real, trend: real, i: int): real
  {
    base + trend * (i + 1) as real
  }

  /** A non-negative trend never lowers a later day's value, a non-positive one never raises it. */
  lemma ExtrapolateMonotone(base: real, trend: real, i: int, j: int)
    requires i <= j
    ensures trend >= 0.0 ==> Extrapolate(base, trend, i) <= Extrapolate(base, trend, j)
    ensures trend <= 0.0 ==> Extrapolate(base, trend, i) >= Extrapolate(base, trend, j)
  {
    var d := (j - i) as real;
    assert Extrapolate(base, trend, j) - Extrapolate(base, trend, i) == trend * d;
    if trend >= 0.0 {
      assert trend * d >= 0.0;
    } else {
      assert (-trend) * d >= 0.0;
    }
  }

  /** `k` days further on, the extrapolated value has moved by `k` steps of the trend. */
  lemma ExtrapolateShift(base: real, trend: real, i: int, k: int)
    ensures Extrapolate(base, trend, i + k) == Extrapolate(base, trend, i) + k as real * trend
  {
    var a, b := (i + 1) as real, k as real;
    assert (i + k + 1) as real == a + b;
    assert trend * (a + b) == trend * a + b * trend;
  }

  /** Consequently the rounded and clamped forecast follows the trend's direction from day to day. */
  lemma ClampedExtrapolateMonotone(base: real, trend: real, i: int, j: int)
    requires i <= j
    ensures trend >= 0.0 ==> ClampRound(Extrapolate(base, trend, i)) <= ClampRound(Extrapolate(base, trend, j))
    ensures trend <= 0.0 ==> ClampRound(Extrapolate(base, trend, i)) >= ClampRound(Extrapolate(base, trend, j))
  {
    ExtrapolateMonotone(base, trend, i, j);
    if trend >= 0.0 {
      ClampRoundMonotone(Extrapolate(base, trend, i), Extrapolate(base, trend, j));
    }
    if trend <= 0.0 {
      ClampRoundMonotone(Extrapolate(base, trend, j), Extrapolate(base, trend, i));
    }
  }

  /** Python's `sum` of a list of numbers. */
  function Sum(s: seq<real>): real
  {
    SumLeft(s)
  }

  /** The left-to-right accumulation behind `Sum`: all values but the last, plus the last. */
  function SumLeft(s: seq<real>): real
  {
    if |s| == 0 then 0.0 else SumLeft(s[..|s| - 1]) + s[|s| - 1]
  }

  /** `np.mean`, defined on non-empty lists only (numpy yields `nan` on an empty one). */
  function Mean(s: seq<real>): real
    requires |s| > 0
  {
    Sum(s) / |s| as real
  }

  /** Python's `xs[-k:]` for `k >= 1`: the last `k` elements, or all of them when there are fewer (`LastK(s, 0)` is empty, unlike `xs[-0:]`). */
  function LastK(s: seq<real>, k: nat): (r: seq<real>)
    ensures |r| == if k <= |s| then k else |s|
    ensures forall i :: 0 <= i < |r| ==> r[i] == s[|s| - |r| + i]
  {
    if k <= |s| then s[|s| - k..] else s
  }

  /** Python's `xs[:k]` for `k >= 0`: the first `k` elements, or all of them when there are fewer. */
  function FirstK(s: seq<real>, k: nat): (r: seq<real>)
    ensures |r| == if k <= |s| then k else |s|
    ensures forall i :: 0 <= i < |r| ==> r[i] == s[i]
  {
    if k <= |s| then s[..k] else s
  }

  /** `np.convolve(xs, np.ones(w) / w, mode='valid')` for `w <= len(xs)`: the mean of every window of `w`
    * consecutive values, in order. */
  function MovingAverages(xs: seq<real>, w: nat): (ma: seq<real>)
    requires 1 <= w <= |xs|
    ensures |ma| == |xs| - w + 1
    ensures forall j :: 0 <= j < |ma| ==> ma[j] == Mean(xs[j..j + w])
  {
    seq(|xs| - w + 1, j requires 0 <= j <= |xs| - w => Mean(xs[j..j + w]))
  }

  lemma MeanTimesLength(s: seq<real>)
    requires |s| > 0
    ensures Sum(s) == |s| as real * Mean(s)
  {
  }

  predicate AllEqual(s: seq<real>, v: real)
  {
    forall i :: 0 <= i < |s| ==> s[i] == v
  }

  predicate AllWithin(s: seq<real>, lo: real, hi: real)
  {
    forall i :: 0 <= i < |s| ==> lo <= s[i] <= hi
  }

  lemma {:induction false} SumAppend(s: seq<real>, t: seq<real>)
    ensures Sum(s + t) == Sum(s) + Sum(t)
    decreases |t|
  {
    if |t| == 0 {
      assert s + t == s;
    } else {
      assert (s + t)[..|s + t| - 1] == s + t[..|t| - 1];
      SumAppend(s, t[..|t| - 1]);
    }
  }

  /** The sum of `n` copies of `v` is `n * v`. */
  lemma {:induction false} SumConstant(s: seq<real>, v: real)
    requires AllEqual(s, v)
    ensures Sum(s) == |s| as real * v
  {
    if |s| > 0 {
      SumConstant(s[..|s| - 1], v);
    }
  }

  lemma MeanConstant(s: seq<real>, v: real)
    requires |s| > 0 && AllEqual(s, v)
    ensures Mean(s) == v
  {
    SumConstant(s, v);
  }

  /** Appending one value adds it to the sum. */
  lemma SumSnoc(s: seq<real>, x: real)
    ensures Sum(s + [x]) == Sum(s) + x
  {
    assert (s + [x])[..|s|] == s;
  }

  /** The sum is the sum of all values but the last, plus the last. */
  lemma SumLast(s: seq<real>)
    requires |s| > 0
    ensures Sum(s) == Sum(s[..|s| - 1]) + s[|s| - 1]
  {
  }

  /** The sum of at most four values, written out term by term. */
  lemma {:induction false} SumOfFew(s: seq<real>)
    requires |s| <= 4
    ensures |s| == 1 ==> Sum(s) == s[0]
    ensures |s| == 2 ==> Sum(s) == s[0] + s[1]
    ensures |s| == 3 ==> Sum(s) == s[0] + s[1] + s[2]
    ensures |s| == 4 ==> Sum(s) == s[0] + s[1] + s[2] + s[3]
  {
    if |s| > 0 {
      var init := s[..|s| - 1];
      SumOfFew(init);
      SumLast(s);
    }
  }

  /** The product of two reals, as a function so that facts about it carry over to compound factors. */
  function Times(a: real, b: real): real
  {
    a * b
  }

  lemma NonnegativeTimes(a: real, b: real)
    requires a >= 0.0 && b >= 0.0
    ensures Times(a, b) >= 0.0
  {
  }

  lemma NegativeTimesNegative(a: real, b: real)
    requires a < 0.0 && b < 0.0
    ensures Times(a, b) > 0.0
  {
  }

  /** `s * t` elementwise. */
  function Products(s: seq<real>, t: seq<real>): (u: seq<real>)
    requires |s| == |t|
    ensures |u| == |s|
  {
    seq(|s|, i requires 0 <= i < |s| => s[i] * t[i])
  }

  /** `u == a * s` elementwise. */
  predicate PointwiseScaled(u: seq<real>, s: seq<real>, a: real)
  {
    |u| == |s| && forall i :: 0 <= i < |u| ==> u[i] == a * s[i]
  }

  /** `u == a + b * s` elementwise. */
  predicate PointwiseAffine(u: seq<real>, s: seq<real>, a: real, b: real)
  {
    |u| == |s| && forall i :: 0 <= i < |u| ==> u[i] == a + b * s[i]
  }

  /** `u == s - t` elementwise. */
  predicate PointwiseDifference(u: seq<real>, s: seq<real>, t: seq<real>)
  {
    |u| == |s| == |t| && forall i :: 0 <= i < |u| ==> u[i] == s[i] - t[i]
  }

  /** `u == s + a * t` elementwise. */
  predicate PointwiseAddScaled(u: seq<real>, s: seq<real>, t: seq<real>, a: real)
  {
    |u| == |s| == |t| && forall i :: 0 <= i < |u| ==> u[i] == s[i] + a * t[i]
  }

  /** `u == s - a * t` elementwise. */
  predicate PointwiseSubScaled(u: seq<real>, s: seq<real>, t: seq<real>, a: real)
  {
    |u| == |s| == |t| && forall i :: 0 <= i < |u| ==> u[i] == s[i] - a * t[i]
  }

  predicate Nonnegative(s: seq<real>)
  {
    forall i :: 0 <= i < |s| ==> s[i] >= 0.0
  }

  /** Summation commutes with scaling: `Sum(a * s) == a * Sum(s)`. */
  lemma {:induction false} SumScale(u: seq<real>, s: seq<real>, a: real)
    requires PointwiseScaled(u, s, a)
    ensures Sum(u) == a * Sum(s)
  {
    if |u| > 0 {
      var n := |u| - 1;
      assert PointwiseScaled(u[..n], s[..n], a);
      SumScale(u[..n], s[..n], a);
    }
  }

  /** The sum of an affine image `a + b * s` is `n * a + b * Sum(s)`. */
  lemma {:induction false} SumAffine(u: seq<real>, s: seq<real>, a: real, b: real)
    requires PointwiseAffine(u, s, a, b)
    ensures Sum(u) == |u| as real * a + b * Sum(s)
  {
    if |u| > 0 {
      var n := |u| - 1;
      assert PointwiseAffine(u[..n], s[..n], a, b);
      SumAffine(u[..n], s[..n], a, b);
    }
  }

  /** Summation commutes with pointwise subtraction. */
  lemma {:induction false} SumDifference(u: seq<real>, s: seq<real>, t: seq<real>)
    requires PointwiseDifference(u, s, t)
    ensures Sum(u) == Sum(s) - Sum(t)
  {
    if |u| > 0 {
      var n := |u| - 1;
      assert PointwiseDifference(u[..n], s[..n], t[..n]);
      SumDifference(u[..n], s[..n], t[..n]);
    }
  }

  /** A scaled pointwise sum: `Sum(s + a * t) == Sum(s) + a * Sum(t)`. */
  lemma {:induction false} SumAddScaled(u: seq<real>, s: seq<real>, t: seq<real>, a: real)
    requires PointwiseAddScaled(u, s, t, a)
    ensures Sum(u) == Sum(s) + a * Sum(t)
  {
    if |u| > 0 {
      var n := |u| - 1;
      assert PointwiseAddScaled(u[..n], s[..n], t[..n], a);
      SumAddScaled(u[..n], s[..n], t[..n], a);
    }
  }

  /** A scaled pointwise difference: `Sum(s - a * t) == Sum(s) - a * Sum(t)`. */
  lemma {:induction false} SumSubScaled(u: seq<real>, s: seq<real>, t: seq<real>, a: real)
    requires PointwiseSubScaled(u, s, t, a)
    ensures Sum(u) == Sum(s) - a * Sum(t)
  {
    if |u| > 0 {
      var n := |u| - 1;
      assert PointwiseSubScaled(u[..n], s[..n], t[..n], a);
      SumSubScaled(u[..n], s[..n], t[..n], a);
    }
  }

  /** Non-negative values have a non-negative sum, at least as large as the first value. */
  lemma {:induction false} SumNonnegative(s: seq<real>)
    requires Nonnegative(s)
    ensures Sum(s) >= 0.0
    ensures |s| > 0 ==> Sum(s) >= s[0]
  {
    if |s| > 0 {
      var n := |s| - 1;
      assert Nonnegative(s[..n]);
      SumNonnegative(s[..n]);
      if n > 0 {
        assert s[..n][0] == s[0];
      }
    }
  }

  /** Values inside [lo, hi] sum to something between `n * lo` and `n * hi`. */
  lemma {:induction false} SumWithin(s: seq<real>, lo: real, hi: real)
    requires AllWithin(s, lo, hi)
    ensures |s| as real * lo <= Sum(s) <= |s| as real * hi
  {
    if |s| > 0 {
      var m := |s| - 1;
      SumWithin(s[..m], lo, hi);
      assert Sum(s) == Sum(s[..m]) + s[m];
      Distribute(|s[..m]| as real, |s| as real, lo);
      Distribute(|s[..m]| as real, |s| as real, hi);
    }
  }

  lemma Distribute(m: real, m1: real, v: real)
    requires m1 == m + 1.0
    ensures m1 * v == m * v + v
  {
  }

  lemma MeanWithin(s: seq<real>, lo: real, hi: real)
    requires |s| > 0 && AllWithin(s, lo, hi)
    ensures lo <= Mean(s) <= hi
  {
    SumWithin(s, lo, hi);
    var n := |s| as real;
    assert n * lo <= Sum(s) <= n * hi;
    assert Sum(s) / n >= lo by {
      assert Sum(s) >= n * lo;
    }
    assert Sum(s) / n <= hi by {
      assert Sum(s) <= n * hi;
    }
  }

  /** The moving averages of a constant series are all that constant. */
  lemma MovingAveragesConstant(xs: seq<real>, w: nat, v: real)
    requires 1 <= w <= |xs| && AllEqual(xs, v)
    ensures AllEqual(MovingAverages(xs, w), v)
  {
    var ma := MovingAverages(xs, w);
    forall j | 0 <= j < |ma|
      ensures ma[j] == v
    {
      MeanConstant(xs[j..j + w], v);
    }
  }
}
