/**
 * `LinearRegressionModel`: an ordinary least-squares line through the series
 * against the day indices 0 .. n-1, extrapolated to the indices n, n+1, ...
 */
module LinearRegression {
  import opened Wrappers
  import opened Numeric
  import opened BaseModel

  const Name: string := "Linear Regression"
  const Description: string := "Linear trend-based forecasting using least squares regression"
  const MinDataPoints: nat := 3
  const BestFor: string := "Data with clear linear trends"

  /** `np.arange(n)` as reals. */
  function Indices(n: nat): (xs: seq<real>)
    ensures |xs| == n
    ensures forall i :: 0 <= i < n ==> xs[i] == i as real
  {
    seq(n, i => i as real)
  }

  /** One term of the numerator or of the denominator of the slope. */
  function Deviation(x: real, xm: real, y: real, ym: real): real
  {
    (x - xm) * (y - ym)
  }

  /** `(xs - xm) * (ys - ym)` elementwise: the terms of the numerator (`ys = y`) and of the denominator
    * (`ys = xs`) of the slope. */
  function CrossDeviations(xs: seq<real>, ys: seq<real>, xm: real, ym: real): (t: seq<real>)
    requires |xs| == |ys|
    ensures |t| == |xs|
  {
    seq(|xs|, i requires 0 <= i < |xs| => Deviation(xs[i], xm, ys[i], ym))
  }

  function Numerator(y: seq<real>): real
    requires |y| > 0
  {
    var xs := Indices(|y|);
    Sum(CrossDeviations(xs, y, Mean(xs), Mean(y)))
  }

  function Denominator(n: nat): real
    requires n > 0
  {
    var xs := Indices(n);
    Sum(CrossDeviations(xs, xs, Mean(xs), Mean(xs)))
  }

  function Slope(y: seq<real>): real
    requires |y| > 0 && Denominator(|y|) != 0.0
  {
    Numerator(y) / Denominator(|y|)
  }

  function Intercept(y: seq<real>): real
    requires |y| > 0 && Denominator(|y|) != 0.0
  {
    Mean(y) - Slope(y) * Mean(Indices(|y|))
  }

  /** `slope * future_x + intercept` for day `i` of the horizon. */
  function LinePoint(slope: real, intercept: real, n: nat, i: int): real
  {
    slope * (n + i) as real + intercept
  }

  /** What `forecast` returns for the extracted series `y`. */
  function Predictions(y: seq<real>, days: int, today: int): (r: seq<Prediction>)
    ensures ForecastShape(r, days, today)
  {
    if |y| < 3 || Denominator(|y|) == 0.0 then ModerateDefault(days, today)
    else
      var slope, intercept := Slope(y), Intercept(y);
      seq(Horizon(days), i => Record(today, i, ClampRound(LinePoint(slope, intercept, |y|, i))))
  }

  /** `LinearRegressionModel.forecast`. */
  method Forecast(data: seq<HistoricalPoint>, days: int, today: int) returns (r: seq<Prediction>)
    ensures r == Predictions(AqiValues(data), days, today)
  {
    var values := PrepareData(data);
    if |values| < 3 {
      r := DefaultForecast(days, today);
      return;
    }
    var xMean := Mean(Indices(|values|));
    var yMean := Mean(values);
    var numerator := Numerator(values);
    var denominator := Denominator(|values|);
    if denominator == 0.0 {
      r := DefaultForecast(days, today);
      return;
    }
    var slope := numerator / denominator;
    var intercept := yMean - slope * xMean;
    assert slope == Slope(values) && intercept == Intercept(values);
    r := [];
    var i := 0;
    while i < days
      invariant 0 <= i <= Horizon(days)
      invariant |r| == i
      invariant forall k :: 0 <= k < i ==> r[k] == Record(today, k, ClampRound(LinePoint(slope, intercept, |values|, k)))
    {
      var predicted := ClampRound(LinePoint(slope, intercept, |values|, i));
      r := r + [Prediction(today + 1 + i, predicted, AqiCategory(predicted), None)];
      i := i + 1;
    }
  }

  /** A squared deviation is never negative. */
  lemma SquareNonnegative(x: real, xm: real)
    ensures Deviation(x, xm, x, xm) >= 0.0
  {
    var d := x - xm;
    if d < 0.0 {
      assert d * d == (-d) * (-d);
    }
  }

  /** The squared deviations sum to at least the first one. */
  lemma {:induction false} SquaredDeviationsBound(xs: seq<real>, xm: real)
    requires |xs| > 0
    ensures Sum(CrossDeviations(xs, xs, xm, xm)) >= Deviation(xs[0], xm, xs[0], xm)
  {
    var h := CrossDeviations(xs, xs, xm, xm);
    forall i | 0 <= i < |h|
      ensures h[i] >= 0.0
    {
      SquareNonnegative(xs[i], xm);
    }
    SumNonnegative(h);
  }

  /** The mean day index of two or more days is positive. */
  lemma {:induction false} IndexMeanPositive(n: nat)
    requires n >= 2
    ensures Mean(Indices(n)) > 0.0
  {
    var xs := Indices(n);
    var init := xs[..n - 1];
    assert Nonnegative(init);
    SumNonnegative(init);
    SumLast(xs);
    assert Sum(xs) >= 1.0;
    PositiveQuotient(Sum(xs), n as real);
  }

  lemma PositiveQuotient(a: real, b: real)
    requires a > 0.0 && b > 0.0
    ensures a / b > 0.0
  {
  }

  /** With two or more points the denominator is positive, so the zero-denominator branch never fires on an input
    * of three or more values. */
  lemma {:induction false} DenominatorPositive(n: nat)
    requires n >= 2
    ensures Denominator(n) > 0.0
  {
    var xs := Indices(n);
    var xm := Mean(xs);
    IndexMeanPositive(n);
    SquaredDeviationsBound(xs, xm);
    SquarePositive(xs[0], xm);
  }

  /** The squared deviation of a point below the mean is positive. */
  lemma SquarePositive(x: real, xm: real)
    requires x < xm
    ensures Deviation(x, xm, x, xm) > 0.0
  {
    NegativeTimesNegative(x - xm, x - xm);
    assert Deviation(x, xm, x, xm) == Times(x - xm, x - xm);
  }

  /** The value at `x` of the line with slope `s` and intercept `c`. */
  function LineValue(x: real, s: real, c: real): real
  {
    s * x + c
  }

  /** The residual of the point `(x, y)` against the line with slope `s` and intercept `c`. */
  function Residual(x: real, y: real, s: real, c: real): real
  {
    y - LineValue(x, s, c)
  }

  /** The residual weighted by the centred regressor. */
  function CentredResidual(x: real, xm: real, y: real, s: real, c: real): real
  {
    (x - xm) * Residual(x, y, s, c)
  }

  /** `s * xs + c` elementwise. */
  function LineValues(xs: seq<real>, s: real, c: real): (l: seq<real>)
    ensures |l| == |xs|
  {
    seq(|xs|, i requires 0 <= i < |xs| => LineValue(xs[i], s, c))
  }

  /** `ys - (s * xs + c)` elementwise: the residuals of the line with slope `s` and intercept `c`. */
  function LineResiduals(xs: seq<real>, ys: seq<real>, s: real, c: real): (e: seq<real>)
    requires |xs| == |ys|
    ensures |e| == |xs|
  {
    seq(|xs|, i requires 0 <= i < |xs| => Residual(xs[i], ys[i], s, c))
  }

  /** `(xs - xm) * (ys - (s * xs + c))` elementwise: the residuals weighted by the centred regressor. */
  function CentredResiduals(xs: seq<real>, ys: seq<real>, s: real, c: real, xm: real): (t: seq<real>)
    requires |xs| == |ys|
    ensures |t| == |xs|
  {
    seq(|xs|, i requires 0 <= i < |xs| => CentredResidual(xs[i], xm, ys[i], s, c))
  }

  /** The residuals of the fitted line at the day indices 0 .. n-1. */
  function Residuals(y: seq<real>): (e: seq<real>)
    requires |y| >= 2
    ensures |e| == |y|
  {
    DenominatorPositive(|y|);
    LineResiduals(Indices(|y|), y, Slope(y), Intercept(y))
  }

  /** A line through the point of means `(xm, ym)` leaves residuals that sum to zero. */
  lemma {:induction false} ResidualsSumToZero(xs: seq<real>, ys: seq<real>, s: real, c: real, xm: real, ym: real)
    requires |xs| == |ys|
    requires Sum(xs) == |xs| as real * xm && Sum(ys) == |ys| as real * ym
    requires c == ym - s * xm
    ensures Sum(LineResiduals(xs, ys, s, c)) == 0.0
  {
    var e, l := LineResiduals(xs, ys, s, c), LineValues(xs, s, c);
    assert PointwiseDifference(e, ys, l);
    SumDifference(e, ys, l);
    assert PointwiseAffine(l, xs, c, s);
    SumAffine(l, xs, c, s);
    ResidualAlgebra(|xs| as real, Sum(xs), Sum(ys), Sum(l), Sum(e), s, c, xm, ym);
  }

  lemma ResidualAlgebra(n: real, sx: real, sy: real, sl: real, se: real, s: real, c: real, xm: real, ym: real)
    requires sx == n * xm && sy == n * ym && c == ym - s * xm
    requires sl == n * c + s * sx && se == sy - sl
    ensures se == 0.0
  {
  }

  /** Weighted by the centred regressor, the residuals of a line through the point of means sum to the cross
    * deviations less `s` times the squared deviations. */
  lemma {:induction false} CentredResidualSum(xs: seq<real>, ys: seq<real>, s: real, c: real, xm: real, ym: real)
    requires |xs| == |ys|
    requires c == ym - s * xm
    ensures Sum(CentredResiduals(xs, ys, s, c, xm))
      == Sum(CrossDeviations(xs, ys, xm, ym)) - s * Sum(CrossDeviations(xs, xs, xm, xm))
  {
    var f, g, h := CentredResiduals(xs, ys, s, c, xm), CrossDeviations(xs, ys, xm, ym), CrossDeviations(xs, xs, xm, xm);
    forall i | 0 <= i < |f|
      ensures f[i] == g[i] - s * h[i]
    {
      DeviationAlgebra(xs[i], ys[i], xm, ym, s, c);
    }
    assert PointwiseSubScaled(f, g, h, s);
    SumSubScaled(f, g, h, s);
  }

  lemma DeviationAlgebra(x: real, y: real, xm: real, ym: real, s: real, c: real)
    requires c == ym - s * xm
    ensures CentredResidual(x, xm, y, s, c) == Deviation(x, xm, y, ym) - s * Deviation(x, xm, x, xm)
  {
  }

  /** With slope `Sum(cross deviations) / Sum(squared deviations)`, the residuals are orthogonal to the centred
    * regressor. */
  lemma {:induction false} ResidualsOrthogonal(xs: seq<real>, ys: seq<real>, s: real, c: real, xm: real, ym: real)
    requires |xs| == |ys|
    requires Sum(CrossDeviations(xs, xs, xm, xm)) != 0.0
    requires s == Sum(CrossDeviations(xs, ys, xm, ym)) / Sum(CrossDeviations(xs, xs, xm, xm))
    requires c == ym - s * xm
    ensures Sum(CentredResiduals(xs, ys, s, c, xm)) == 0.0
  {
    CentredResidualSum(xs, ys, s, c, xm, ym);
    QuotientAlgebra(Sum(CrossDeviations(xs, ys, xm, ym)), Sum(CrossDeviations(xs, xs, xm, xm)), s,
      Sum(CentredResiduals(xs, ys, s, c, xm)));
  }

  lemma QuotientAlgebra(num: real, den: real, s: real, sf: real)
    requires den != 0.0 && s == num / den
    requires sf == num - s * den
    ensures sf == 0.0
  {
  }

  /** The regressor times the residuals splits into the centred part plus `xm` times the residuals. */
  lemma {:induction false} UncorrelatedSum(xs: seq<real>, ys: seq<real>, s: real, c: real, xm: real)
    requires |xs| == |ys|
    ensures Sum(Products(xs, LineResiduals(xs, ys, s, c)))
      == Sum(CentredResiduals(xs, ys, s, c, xm)) + xm * Sum(LineResiduals(xs, ys, s, c))
  {
    var e := LineResiduals(xs, ys, s, c);
    var p, f := Products(xs, e), CentredResiduals(xs, ys, s, c, xm);
    forall i | 0 <= i < |p|
      ensures p[i] == f[i] + xm * e[i]
    {
      SplitAlgebra(xs[i], xm, ys[i], s, c);
    }
    assert PointwiseAddScaled(p, f, e, xm);
    SumAddScaled(p, f, e, xm);
  }

  lemma SplitAlgebra(x: real, xm: real, y: real, s: real, c: real)
    ensures x * Residual(x, y, s, c) == CentredResidual(x, xm, y, s, c) + xm * Residual(x, y, s, c)
  {
  }

  /** Residuals that sum to zero and are orthogonal to the centred regressor are orthogonal to the regressor itself. */
  lemma {:induction false} ResidualsUncorrelated(xs: seq<real>, ys: seq<real>, s: real, c: real, xm: real)
    requires |xs| == |ys|
    requires Sum(LineResiduals(xs, ys, s, c)) == 0.0 && Sum(CentredResiduals(xs, ys, s, c, xm)) == 0.0
    ensures Sum(Products(xs, LineResiduals(xs, ys, s, c))) == 0.0
  {
    UncorrelatedSum(xs, ys, s, c, xm);
    ZeroAlgebra(Sum(Products(xs, LineResiduals(xs, ys, s, c))), Sum(CentredResiduals(xs, ys, s, c, xm)),
      Sum(LineResiduals(xs, ys, s, c)), xm);
  }

  lemma ZeroAlgebra(sg: real, sf: real, se: real, xm: real)
    requires sg == sf + xm * se && sf == 0.0 && se == 0.0
    ensures sg == 0.0
  {
  }

  /** The regression line passes through the point of means, so its residuals sum to zero. */
  lemma {:induction false} ResidualsBalance(y: seq<real>)
    requires |y| >= 2
    ensures Sum(Residuals(y)) == 0.0
  {
    var n := |y|;
    DenominatorPositive(n);
    var xs := Indices(n);
    MeanTimesLength(xs);
    MeanTimesLength(y);
    ResidualsSumToZero(xs, y, Slope(y), Intercept(y), Mean(xs), Mean(y));
  }

  /** Slope and intercept solve the least-squares normal equations: the residuals sum to zero and are orthogonal to
    * the day indices, which characterises the line minimising the sum of squared residuals. */
  lemma {:induction false} LeastSquares(y: seq<real>)
    requires |y| >= 2
    ensures Sum(Residuals(y)) == 0.0
    ensures Sum(Products(Indices(|y|), Residuals(y))) == 0.0
  {
    ResidualsBalance(y);
    var n := |y|;
    DenominatorPositive(n);
    var xs := Indices(n);
    var xm := Mean(xs);
    ResidualsOrthogonal(xs, y, Slope(y), Intercept(y), xm, Mean(y));
    ResidualsUncorrelated(xs, y, Slope(y), Intercept(y), xm);
  }

  /** The cross deviations of a line are its slope times the squared deviations of the regressor. */
  lemma {:induction false} LineDeviations(xs: seq<real>, ys: seq<real>, a: real, b: real, xm: real, ym: real)
    requires PointwiseAffine(ys, xs, a, b)
    requires ym == a + b * xm
    ensures Sum(CrossDeviations(xs, ys, xm, ym)) == b * Sum(CrossDeviations(xs, xs, xm, xm))
  {
    var g, h := CrossDeviations(xs, ys, xm, ym), CrossDeviations(xs, xs, xm, xm);
    forall i | 0 <= i < |g|
      ensures g[i] == b * h[i]
    {
      LineDeviation(a, b, xs[i], xm, ys[i], ym);
    }
    assert PointwiseScaled(g, h, b);
    SumScale(g, h, b);
  }

  lemma LineDeviation(a: real, b: real, x: real, xm: real, y: real, ym: real)
    requires y == a + b * x && ym == a + b * xm
    ensures Deviation(x, xm, y, ym) == b * Deviation(x, xm, x, xm)
  {
  }

  /** The mean of a line's values is the line at the regressor's mean. */
  lemma {:induction false} LineMean(ys: seq<real>, xs: seq<real>, a: real, b: real)
    requires |ys| > 0 && PointwiseAffine(ys, xs, a, b)
    ensures Mean(ys) == a + b * Mean(xs)
  {
    SumAffine(ys, xs, a, b);
    MeanOfLine(|ys| as real, a, b, Sum(xs), Sum(ys));
  }

  lemma MeanOfLine(n: real, a: real, b: real, sx: real, sy: real)
    requires n > 0.0
    requires sy == n * a + b * sx
    ensures sy / n == a + b * (sx / n)
  {
  }

  lemma SlopeAlgebra(num: real, den: real, b: real, s: real)
    requires den != 0.0 && num == b * den && s == num / den
    ensures s == b
  {
  }

  /** A series lying on the line `a + b * t` over the day indices. */
  predicate OnLine(y: seq<real>, a: real, b: real)
  {
    forall i :: 0 <= i < |y| ==> y[i] == a + b * i as real
  }

  /** On a linear series the numerator is the slope times the denominator. */
  lemma {:induction false} LineSlope(y: seq<real>, a: real, b: real)
    requires |y| >= 2 && OnLine(y, a, b)
    ensures Numerator(y) == b * Denominator(|y|)
  {
    var xs := Indices(|y|);
    assert PointwiseAffine(y, xs, a, b);
    LineMean(y, xs, a, b);
    LineDeviations(xs, y, a, b, Mean(xs), Mean(y));
  }

  /** A perfectly linear series `a + b * t` is fitted exactly: slope `b`, intercept `a`. */
  lemma {:induction false} LinearSeriesFit(y: seq<real>, a: real, b: real)
    requires |y| >= 2 && OnLine(y, a, b)
    ensures Denominator(|y|) > 0.0
    ensures Slope(y) == b && Intercept(y) == a
  {
    var n := |y|;
    DenominatorPositive(n);
    var xs := Indices(n);
    assert PointwiseAffine(y, xs, a, b);
    LineMean(y, xs, a, b);
    LineSlope(y, a, b);
    SlopeAlgebra(Numerator(y), Denominator(n), b, Slope(y));
  }

  /** On a linear series of three or more points the forecast continues the line, rounded and clamped. */
  lemma {:induction false} LinearSeriesForecast(y: seq<real>, a: real, b: real, days: int, today: int)
    requires |y| >= 3 && OnLine(y, a, b)
    ensures forall i :: 0 <= i < Horizon(days) ==>
      Predictions(y, days, today)[i].predictedAqi == ClampRound(LinePoint(b, a, |y|, i))
  {
    LinearSeriesFit(y, a, b);
  }

  /** A constant series has slope 0: every prediction is the constant, rounded and clamped. */
  lemma {:induction false} ConstantSeries(y: seq<real>, v: real, days: int, today: int)
    requires |y| >= 3 && AllEqual(y, v)
    ensures forall i :: 0 <= i < Horizon(days) ==> Predictions(y, days, today)[i].predictedAqi == ClampRound(v)
  {
    assert OnLine(y, v, 0.0);
    LinearSeriesForecast(y, v, 0.0, days, today);
    forall i | 0 <= i < Horizon(days)
      ensures LinePoint(0.0, v, |y|, i) == v
    {
    }
  }

  /** Fewer than three values give the 75/"Moderate" default. */
  lemma {:induction false} ShortSeries(y: seq<real>, days: int, today: int)
    requires |y| < 3
    ensures Predictions(y, days, today) == ModerateDefault(days, today)
  {
  }
}
