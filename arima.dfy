/**
 * `ARIMAModel`, an ARIMA-like heuristic: the last value, extrapolated along the
 * average slope of a moving average, plus a weekly term that grows through the
 * week and vanishes every seventh day.
 */
module Arima {
  import opened Wrappers
  import opened Numeric
  import opened BaseModel
  import MovingAverage

  const Name: string := "Simple ARIMA"
  const Description: string := "Autoregressive integrated moving average forecasting"
  const MinDataPoints: nat := 7
  const BestFor: string := "Time series with trends and autocorrelation"

  /** The window for `n` values: a third of the series, at most 7 and at least 3. */
  function Window(n: nat): (w: nat)
    ensures 3 <= w <= 7
    ensures n >= 3 ==> w <= n
    ensures n / 3 >= 3 ==> w <= n / 3
    ensures w == 3 || w == n / 3 || w == 7
    ensures n / 3 >= 7 ==> w == 7
    ensures 3 <= n / 3 <= 7 ==> w == n / 3
    ensures n / 3 < 3 ==> w == 3
  {
    var w := if 7 <= n / 3 then 7 else n / 3;
    if w < 3 then 3 else w
  }

  /** The smoothed series the trend is read from. */
  function Averages(y: seq<real>): (ma: seq<real>)
    requires |y| >= MinDataPoints
    ensures |ma| == |y| - Window(|y|) + 1 >= 1
  {
    MovingAverages(y, Window(|y|))
  }

  /** The weekly term: the last week's mean minus the week before, once there are two weeks of values. */
  function SeasonalTerm(y: seq<real>): real
  {
    if |y| >= 14 then Mean(y[|y| - 7..]) - Mean(y[|y| - 14..|y| - 7]) else 0.0
  }

  /** `last + trend * (i + 1) + seasonal * ((i + 1) % 7)`, before rounding. */
  function ArimaPoint(last: real, trend: real, seasonal: real, i: int): real
  {
    Extrapolate(last, trend, i) + seasonal * ((i + 1) % 7) as real
  }

  /** The records of the forecast from its three components. */
  function ArimaRecords(last: real, trend: real, seasonal: real, days: int, today: int): (r: seq<Prediction>)
    ensures ForecastShape(r, days, today)
  {
    seq(Horizon(days), i => Record(today, i, ClampRound(ArimaPoint(last, trend, seasonal, i))))
  }

  /** What `forecast` returns for the extracted series `y`. */
  function Predictions(y: seq<real>, days: int, today: int): (r: seq<Prediction>)
    ensures ForecastShape(r, days, today)
  {
    if |y| < MinDataPoints then ModerateDefault(days, today)
    else ArimaRecords(y[|y| - 1], MovingAverage.Trend(Averages(y)), SeasonalTerm(y), days, today)
  }

  /** `ARIMAModel.forecast`. */
  method Forecast(data: seq<HistoricalPoint>, days: int, today: int) returns (r: seq<Prediction>)
    ensures r == Predictions(AqiValues(data), days, today)
  {
    var values := PrepareData(data);
    if |values| < 7 {
      r := DefaultForecast(days, today);
      return;
    }
    var window := if 7 <= |values| / 3 then 7 else |values| / 3;
    if window < 3 {
      window := 3;
    }
    assert window == Window(|values|);
    var ma := MovingAverages(values, window);
    var trend := 0.0;
    if |ma| > 1 {
      trend := (ma[|ma| - 1] - ma[0]) / |ma| as real;
    }
    assert ma == Averages(values) && trend == MovingAverage.Trend(ma);
    var seasonal := 0.0;
    if |values| >= 14 {
      var recentAvg := Mean(values[|values| - 7..]);
      var olderAvg := Mean(values[|values| - 14..|values| - 7]);
      seasonal := recentAvg - olderAvg;
    }
    assert seasonal == SeasonalTerm(values);
    r := ArimaLoop(values[|values| - 1], trend, seasonal, days, today);
  }

  /** The prediction loop of `forecast`. */
  method ArimaLoop(last: real, trend: real, seasonal: real, days: int, today: int) returns (r: seq<Prediction>)
    ensures r == ArimaRecords(last, trend, seasonal, days, today)
  {
    r := [];
    var i := 0;
    while i < days
      invariant 0 <= i <= Horizon(days)
      invariant r == ArimaRecords(last, trend, seasonal, days, today)[..i]
    {
      var predicted := ClampRound(ArimaPoint(last, trend, seasonal, i));
      r := r + [Prediction(today + 1 + i, predicted, AqiCategory(predicted), None)];
      i := i + 1;
    }
  }

  /** Fewer than seven values give the 75/"Moderate" default. */
  lemma ShortSeries(y: seq<real>, days: int, today: int)
    requires |y| < MinDataPoints
    ensures Predictions(y, days, today) == ModerateDefault(days, today)
  {
  }

  /** Every seventh day of the horizon the weekly term vanishes and only the trend remains. */
  lemma SeasonalVanishes(last: real, trend: real, seasonal: real, i: int)
    requires (i + 1) % 7 == 0
    ensures ArimaPoint(last, trend, seasonal, i) == Extrapolate(last, trend, i)
  {
  }

  /** A week later the weekly term repeats, so the forecast has moved by exactly seven days of trend. */
  lemma WeeklyPeriod(last: real, trend: real, seasonal: real, i: int)
    ensures ArimaPoint(last, trend, seasonal, i + 7) == ArimaPoint(last, trend, seasonal, i) + 7.0 * trend
  {
    assert (i + 7 + 1) % 7 == (i + 1) % 7;
    ExtrapolateShift(last, trend, i, 7);
  }

  /** Below two weeks of values there is no weekly term: the forecast is the last value extrapolated along the
    * trend. */
  lemma {:induction false} NoWeeklyTermBelowTwoWeeks(y: seq<real>, days: int, today: int)
    requires MinDataPoints <= |y| < 14
    ensures Predictions(y, days, today) == Extrapolated(y[|y| - 1], MovingAverage.Trend(Averages(y)), days, today)
  {
    var last, trend := y[|y| - 1], MovingAverage.Trend(Averages(y));
    forall i | 0 <= i < Horizon(days)
      ensures ArimaPoint(last, trend, 0.0, i) == Extrapolate(last, trend, i)
    {
    }
  }

  /** A constant series v has no trend and no weekly term: every day is v once rounded and clamped. */
  lemma {:induction false} ConstantSeries(y: seq<real>, v: real, days: int, today: int)
    requires |y| >= MinDataPoints && AllEqual(y, v)
    ensures forall i :: 0 <= i < Horizon(days) ==> Predictions(y, days, today)[i].predictedAqi == ClampRound(v)
  {
    var ma := Averages(y);
    MovingAveragesConstant(y, Window(|y|), v);
    assert ma[|ma| - 1] == v && ma[0] == v;
    assert MovingAverage.Trend(ma) == 0.0;
    if |y| >= 14 {
      var recent, older := y[|y| - 7..], y[|y| - 14..|y| - 7];
      assert AllEqual(recent, v) && AllEqual(older, v);
      MeanConstant(recent, v);
      MeanConstant(older, v);
    }
    assert SeasonalTerm(y) == 0.0;
    forall i | 0 <= i < Horizon(days)
      ensures ArimaPoint(v, 0.0, 0.0, i) == v
    {
    }
  }
}
