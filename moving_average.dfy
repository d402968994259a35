/**
 * `MovingAverageModel` with its default window of 7: the series is smoothed by a
 * valid-mode moving average and the last average is extrapolated along the
 * average slope of the smoothed series.
 */
module MovingAverage {
  import opened Wrappers
  import opened Numeric
  import opened BaseModel

  /** The constructor's default `window`, which every caller uses. */
  const DefaultWindow: nat := 7

  const Name: string := "Moving Average (window=7)"
  const Description: string := "Smoothing-based forecasting using moving averages"
  const BestFor: string := "Data with noise that needs smoothing"

  /** The declared minimum, although `forecast` already produces a model forecast from 3 values on
    * (see `ThreeValues`). */
  const MinDataPoints: nat := 5

  /** The number of values `forecast` computes a model forecast from; below it the default is returned. */
  const AcceptedMinimum: nat := 3

  /** The window `forecast` picks for `n` values: the default window, cut to half the series, but never below 3. */
  function Window(n: nat): (w: nat)
    ensures 3 <= w <= DefaultWindow
    ensures n >= AcceptedMinimum ==> w <= n
    ensures n / 2 >= 3 ==> w <= n / 2
    ensures w == 3 || w == n / 2 || w == DefaultWindow
    ensures n / 2 >= DefaultWindow ==> w == DefaultWindow
    ensures 3 <= n / 2 <= DefaultWindow ==> w == n / 2
    ensures n / 2 < 3 ==> w == 3
  {
    var w := if DefaultWindow <= n / 2 then DefaultWindow else n / 2;
    if 3 <= w then w else 3
  }

  /** `np.convolve(aqi_values, np.ones(window) / window, mode='valid')`. */
  function Averages(y: seq<real>): (ma: seq<real>)
    requires |y| >= AcceptedMinimum
    ensures |ma| == |y| - Window(|y|) + 1 >= 1
  {
    MovingAverages(y, Window(|y|))
  }

  /** The average slope of the smoothed series: its rise from first to last over its length, 0 for a single
    * average. */
  function Trend(ma: seq<real>): real
    requires |ma| > 0
  {
    if |ma| > 1 then (ma[|ma| - 1] - ma[0]) / |ma| as real else 0.0
  }

  /** The conditional expression for `last_ma`: the last average, or the mean of the series when there is
    * no average. */
  function LastOrMean(ma: seq<real>, y: seq<real>): real
    requires |y| > 0
  {
    if |ma| > 0 then ma[|ma| - 1] else Mean(y)
  }

  /** `last_ma`, the level the forecast starts from. Since `Averages` is never empty, it is the last average. */
  function Level(y: seq<real>): real
    requires |y| >= AcceptedMinimum
  {
    LastOrMean(Averages(y), y)
  }

  /** The `np.mean` fallback for `last_ma` is never taken: the level is always the last average. */
  lemma LevelIsLastAverage(y: seq<real>)
    requires |y| >= AcceptedMinimum
    ensures Level(y) == Averages(y)[|Averages(y)| - 1]
  {
  }

  /** What `forecast` returns for the extracted series `y`. */
  function Predictions(y: seq<real>, days: int, today: int): (r: seq<Prediction>)
    ensures ForecastShape(r, days, today)
  {
    if |y| < AcceptedMinimum then ModerateDefault(days, today)
    else
      Extrapolated(Level(y), Trend(Averages(y)), days, today)
  }

  /** `MovingAverageModel.forecast`. */
  method Forecast(data: seq<HistoricalPoint>, days: int, today: int) returns (r: seq<Prediction>)
    ensures r == Predictions(AqiValues(data), days, today)
  {
    var values := PrepareData(data);
    if |values| < 3 {
      r := DefaultForecast(days, today);
      return;
    }
    var window := if DefaultWindow <= |values| / 2 then DefaultWindow else |values| / 2;
    window := if 3 <= window then window else 3;
    assert window == Window(|values|);
    var ma := MovingAverages(values, window);
    var trend := 0.0;
    if |ma| > 1 {
      trend := (ma[|ma| - 1] - ma[0]) / |ma| as real;
    }
    assert ma == Averages(values) && trend == Trend(ma);
    var lastMa := LastOrMean(ma, values);
    assert lastMa == Level(values);
    r := ExtrapolatedForecast(lastMa, trend, days, today);
  }

  /** Fewer than three values give the 75/"Moderate" default. */
  lemma ShortSeries(y: seq<real>, days: int, today: int)
    requires |y| < AcceptedMinimum
    ensures Predictions(y, days, today) == ModerateDefault(days, today)
  {
  }

  /** The forecast in terms of the series itself: it starts from the mean of the last `w` values and rises by the
    * difference between the last and the first window mean, spread over the number of windows. */
  lemma {:induction false} FromWindowMeans(y: seq<real>, days: int, today: int)
    requires |y| >= AcceptedMinimum
    ensures var n, w := |y|, Window(|y|);
      && Level(y) == Mean(y[n - w..])
      && Trend(Averages(y)) == if n > w then (Mean(y[n - w..]) - Mean(y[..w])) / (n - w + 1) as real else 0.0
    ensures var n, w := |y|, Window(|y|);
      Predictions(y, days, today) == Extrapolated(Mean(y[n - w..]), Trend(Averages(y)), days, today)
  {
    var n, w := |y|, Window(|y|);
    var ma := Averages(y);
    assert y[n - w..] == y[|ma| - 1..|ma| - 1 + w];
    assert y[..w] == y[0..0 + w];
  }

  /** The level lies within the range of the data. */
  lemma {:induction false} LevelWithinRange(y: seq<real>, lo: real, hi: real)
    requires |y| >= AcceptedMinimum && AllWithin(y, lo, hi)
    ensures lo <= Level(y) <= hi
  {
    var ma := Averages(y);
    var j := |ma| - 1;
    var win := y[j..j + Window(|y|)];
    assert AllWithin(win, lo, hi) by {
      forall k | 0 <= k < |win|
        ensures lo <= win[k] <= hi
      {
        assert win[k] == y[j + k];
      }
    }
    MeanWithin(win, lo, hi);
  }

  /** The forecast follows the direction of the trend: never falling while the smoothed series rose, never rising
    * while it fell. */
  lemma {:induction false} FollowsTrend(y: seq<real>, days: int, today: int, i: int, j: int)
    requires |y| >= AcceptedMinimum && 0 <= i <= j < Horizon(days)
    ensures var r, ma := Predictions(y, days, today), Averages(y);
      && (ma[0] <= ma[|ma| - 1] ==> r[i].predictedAqi <= r[j].predictedAqi)
      && (ma[0] >= ma[|ma| - 1] ==> r[i].predictedAqi >= r[j].predictedAqi)
  {
    var ma := Averages(y);
    var trend := Trend(ma);
    if |ma| > 1 {
      var d, m := ma[|ma| - 1] - ma[0], |ma| as real;
      assert trend == d / m;
      if d >= 0.0 {
        assert d / m >= 0.0;
      }
      if d <= 0.0 {
        assert d / m <= 0.0;
      }
    }
    ClampedExtrapolateMonotone(Level(y), trend, i, j);
  }

  /** A constant series v gives v once rounded and clamped, every day. */
  lemma {:induction false} ConstantSeries(y: seq<real>, v: real, days: int, today: int)
    requires |y| >= AcceptedMinimum && AllEqual(y, v)
    ensures forall i :: 0 <= i < Horizon(days) ==> Predictions(y, days, today)[i].predictedAqi == ClampRound(v)
  {
    var ma := Averages(y);
    MovingAveragesConstant(y, Window(|y|), v);
    assert ma[|ma| - 1] == v && ma[0] == v;
    assert Trend(ma) == 0.0;
  }

  /** Three values, below the declared minimum of 5, already give a model forecast: a single window, hence no trend,
    * and every day is the mean of the three values. */
  lemma {:induction false} ThreeValues(y: seq<real>, days: int, today: int)
    requires |y| == 3
    ensures MinDataPoints > |y|
    ensures forall i :: 0 <= i < Horizon(days) ==> Predictions(y, days, today)[i].predictedAqi == ClampRound(Mean(y))
  {
    assert y[0..0 + 3] == y;
  }
}
