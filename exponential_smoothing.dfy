/**
 * `ExponentialSmoothingModel` with its default smoothing factor 0.3: simple
 * exponential smoothing of the series, then the last smoothed value is
 * extrapolated along the last smoothed step.
 */
module ExponentialSmoothing {
  import opened Numeric
  import opened BaseModel

  /** The constructor's default `alpha`, which every caller uses. */
  const Alpha: real := 0.3

  const Name: string := "Exponential Smoothing (\U{03B1}=0.3)"
  const Description: string := "Weighted average forecasting with exponential decay"
  const MinDataPoints: nat := 3
  const BestFor: string := "Data with recent trends and patterns"

  /** One step of the recurrence: the new observation weighted by `alpha`, the previous smoothed value by the rest. */
  function SmoothStep(alpha: real, x: real, previous: real): real
  {
    alpha * x + (1.0 - alpha) * previous
  }

  /** The smoothed series: it starts at the first observation and then follows `SmoothStep`. */
  function Smoothed(alpha: real, xs: seq<real>): (s: seq<real>)
    requires |xs| > 0
    ensures |s| == |xs|
    ensures s[0] == xs[0]
    ensures forall i :: 1 <= i < |s| ==> s[i] == SmoothStep(alpha, xs[i], s[i - 1])
  {
    if |xs| == 1 then [xs[0]]
    else
      var p := Smoothed(alpha, xs[..|xs| - 1]);
      p + [SmoothStep(alpha, xs[|xs| - 1], p[|p| - 1])]
  }

  /** The smoothing loop of `forecast`. */
  method Smooth(alpha: real, xs: seq<real>) returns (s: seq<real>)
    requires |xs| > 0
    ensures s == Smoothed(alpha, xs)
  {
    s := [xs[0]];
    var i := 1;
    while i < |xs|
      invariant 1 <= i <= |xs|
      invariant s == Smoothed(alpha, xs[..i])
    {
      assert xs[..i + 1][..i] == xs[..i];
      var value := SmoothStep(alpha, xs[i], s[i - 1]);
      s := s + [value];
      i := i + 1;
    }
    assert xs[..|xs|] == xs;
  }

  /** The last smoothed step, 0 for a single value. */
  function Trend(s: seq<real>): real
  {
    if |s| > 1 then s[|s| - 1] - s[|s| - 2] else 0.0
  }

  /** What `forecast` returns for the extracted series `y`. */
  function Predictions(y: seq<real>, days: int, today: int): (r: seq<Prediction>)
    ensures ForecastShape(r, days, today)
  {
    if |y| < 3 then ModerateDefault(days, today)
    else
      var s := Smoothed(Alpha, y);
      Extrapolated(s[|s| - 1], Trend(s), days, today)
  }

  /** `ExponentialSmoothingModel.forecast`. */
  method Forecast(data: seq<HistoricalPoint>, days: int, today: int) returns (r: seq<Prediction>)
    ensures r == Predictions(AqiValues(data), days, today)
  {
    var values := PrepareData(data);
    if |values| < 3 {
      r := DefaultForecast(days, today);
      return;
    }
    var smoothed := Smooth(Alpha, values);
    var trend := 0.0;
    if |smoothed| > 1 {
      trend := smoothed[|smoothed| - 1] - smoothed[|smoothed| - 2];
    }
    var lastSmoothed := smoothed[|smoothed| - 1];
    assert smoothed == Smoothed(Alpha, values) && trend == Trend(smoothed);
    r := ExtrapolatedForecast(lastSmoothed, trend, days, today);
  }

  /** For `alpha` in [0, 1] a step is a weighted mean of its two inputs, so it stays within any range holding both. */
  lemma StepWithin(alpha: real, x: real, previous: real, lo: real, hi: real)
    requires 0.0 <= alpha <= 1.0 && lo <= x <= hi && lo <= previous <= hi
    ensures lo <= SmoothStep(alpha, x, previous) <= hi
  {
    var beta := 1.0 - alpha;
    NonnegativeTimes(alpha, x - lo);
    NonnegativeTimes(beta, previous - lo);
    NonnegativeTimes(alpha, hi - x);
    NonnegativeTimes(beta, hi - previous);
    assert SmoothStep(alpha, x, previous) - lo == Times(alpha, x - lo) + Times(beta, previous - lo);
    assert hi - SmoothStep(alpha, x, previous) == Times(alpha, hi - x) + Times(beta, hi - previous);
  }

  /** For `alpha` in [0, 1] every smoothed value lies between the least and the greatest observation. */
  lemma {:induction false} SmoothedWithin(alpha: real, xs: seq<real>, lo: real, hi: real)
    requires 0.0 <= alpha <= 1.0 && |xs| > 0 && AllWithin(xs, lo, hi)
    ensures AllWithin(Smoothed(alpha, xs), lo, hi)
  {
    if |xs| > 1 {
      var init := xs[..|xs| - 1];
      assert AllWithin(init, lo, hi);
      SmoothedWithin(alpha, init, lo, hi);
      var p := Smoothed(alpha, init);
      StepWithin(alpha, xs[|xs| - 1], p[|p| - 1], lo, hi);
    }
  }

  /** Smoothing a constant series leaves it unchanged, whatever `alpha`. */
  lemma {:induction false} SmoothedConstant(alpha: real, xs: seq<real>, v: real)
    requires |xs| > 0 && AllEqual(xs, v)
    ensures AllEqual(Smoothed(alpha, xs), v)
  {
    if |xs| > 1 {
      var init := xs[..|xs| - 1];
      assert AllEqual(init, v);
      SmoothedConstant(alpha, init, v);
      assert SmoothStep(alpha, v, v) == v;
    }
  }

  /** The trend is `alpha` times the amount by which the last observation exceeds the smoothed value before it. */
  lemma {:induction false} TrendOfLastStep(y: seq<real>)
    requires |y| >= 2
    ensures var s := Smoothed(Alpha, y);
      Trend(s) == Alpha * (y[|y| - 1] - s[|s| - 2])
  {
  }

  /** Fewer than three values give the 75/"Moderate" default. */
  lemma ShortSeries(y: seq<real>, days: int, today: int)
    requires |y| < 3
    ensures Predictions(y, days, today) == ModerateDefault(days, today)
  {
  }

  /** A constant series v gives v once rounded and clamped, every day. */
  lemma {:induction false} ConstantSeries(y: seq<real>, v: real, days: int, today: int)
    requires |y| >= 3 && AllEqual(y, v)
    ensures forall i :: 0 <= i < Horizon(days) ==> Predictions(y, days, today)[i].predictedAqi == ClampRound(v)
  {
    var s := Smoothed(Alpha, y);
    SmoothedConstant(Alpha, y, v);
    assert s[|s| - 1] == v && s[|s| - 2] == v;
    assert Trend(s) == 0.0;
  }

  /** The forecast rises from day to day (or stays) when the last observation is at least the smoothed value before
    * it, and falls (or stays) when it is at most that value. */
  lemma {:induction false} FollowsLastObservation(y: seq<real>, days: int, today: int, i: int, j: int)
    requires |y| >= 3 && 0 <= i <= j < Horizon(days)
    ensures var r, s := Predictions(y, days, today), Smoothed(Alpha, y);
      && (s[|s| - 2] <= y[|y| - 1] ==> r[i].predictedAqi <= r[j].predictedAqi)
      && (s[|s| - 2] >= y[|y| - 1] ==> r[i].predictedAqi >= r[j].predictedAqi)
  {
    var s := Smoothed(Alpha, y);
    TrendOfLastStep(y);
    ClampedExtrapolateMonotone(s[|s| - 1], Trend(s), i, j);
  }
}
