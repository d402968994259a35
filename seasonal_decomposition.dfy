/**
 * `SeasonalDecompositionModel` with its default season of 7 days: the mean of
 * the last week, a trend from the first to the last week, and a per-weekday
 * deviation taken from the means of the values at the same position in the
 * week. Below two weeks of data it hands over to the moving-average model.
 */
module SeasonalDecomposition {
  import opened Wrappers
  import opened Numeric
  import opened BaseModel
  import MovingAverage

  /** The constructor's default `season_length`, which every caller uses. */
  const SeasonLength: nat := 7

  const Name: string := "Seasonal Decomposition (period=7)"
  const Description: string := "Forecasting with seasonal pattern recognition"
  const MinDataPoints: nat := 14
  const BestFor: string := "Data with weekly or seasonal patterns"

  /** `[xs[i] for i in range(day, len(xs), 7)]`: the values at `day`, `day + 7`, `day + 14`, ...
    * (the stride is the season length, written as a literal so that the index arithmetic stays linear) */
  function DayValues(xs: seq<real>, day: nat): (d: seq<real>)
    ensures |d| == if day < |xs| then (|xs| - day + 7 - 1) / 7 else 0
  {
    if day < |xs| then
      var count := (|xs| - day + 7 - 1) / 7;
      seq(count, k requires 0 <= k < count => xs[day + k * 7])
    else []
  }

  /** `DayValues` holds exactly the values whose index is `day` plus a multiple of 7, in index order. */
  lemma DayValuesExact(xs: seq<real>, day: nat)
    ensures var d := DayValues(xs, day);
      forall k :: 0 <= k < |d| ==> day + k * 7 < |xs| && d[k] == xs[day + k * 7]
    ensures var d := DayValues(xs, day);
      forall i :: day <= i < |xs| && (i - day) % 7 == 0 ==> (i - day) / 7 < |d| && d[(i - day) / 7] == xs[i]
  {
  }

  /** `seasonal_component`: for each position in the week the mean of its values, or the overall mean when the
    * position has none. */
  function SeasonalComponent(xs: seq<real>): (sc: seq<real>)
    requires |xs| > 0
    ensures |sc| == SeasonLength
    ensures forall d :: 0 <= d < SeasonLength ==>
      sc[d] == if |DayValues(xs, d)| > 0 then Mean(DayValues(xs, d)) else Mean(xs)
  {
    seq(SeasonLength, d requires 0 <= d < SeasonLength => DayMean(xs, d))
  }

  /** One entry of `seasonal_component`. */
  function DayMean(xs: seq<real>, day: nat): real
    requires |xs| > 0
  {
    var dv := DayValues(xs, day);
    if |dv| > 0 then Mean(dv) else Mean(xs)
  }

  /** The loop that builds `seasonal_component`. */
  method SeasonalMeans(xs: seq<real>) returns (sc: seq<real>)
    requires |xs| > 0
    ensures sc == SeasonalComponent(xs)
  {
    sc := [];
    var day := 0;
    while day < SeasonLength
      invariant 0 <= day <= SeasonLength
      invariant sc == SeasonalComponent(xs)[..day]
    {
      var dayValues := DayValues(xs, day);
      if |dayValues| > 0 {
        sc := sc + [Mean(dayValues)];
      } else {
        sc := sc + [Mean(xs)];
      }
      day := day + 1;
    }
  }

  /** `base_aqi`, the mean of the last week. */
  function Base(y: seq<real>): real
    requires |y| > 0
  {
    Mean(LastK(y, 7))
  }

  /** The rise from the first week's mean to the last week's, spread over the whole series. */
  function Trend(y: seq<real>): real
    requires |y| > 0
  {
    (Mean(LastK(y, 7)) - Mean(FirstK(y, 7))) / |y| as real
  }

  /** The offset of one position in the week from the mean of the week. */
  function Deviation(sc: seq<real>, position: int): real
    requires |sc| == SeasonLength && 0 <= position < SeasonLength
  {
    sc[position] - Mean(sc)
  }

  /** `base + trend * (i + 1) + deviation`, before rounding. */
  function SeasonalPoint(base: real, trend: real, deviation: real, i: int): real
  {
    Extrapolate(base, trend, i) + deviation
  }

  /** The position in the week of day `i` of the horizon, from the weekday of its date. */
  function Position(today: int, i: int): (p: int)
    ensures 0 <= p < SeasonLength
  {
    Weekday(today + 1 + i) % SeasonLength
  }

  /** The unrounded forecast for day `i` of the horizon. */
  function DayForecast(y: seq<real>, today: int, i: int): real
    requires |y| > 0
  {
    SeasonalPoint(Base(y), Trend(y), Deviation(SeasonalComponent(y), Position(today, i)), i)
  }

  /** The records of the seasonal forecast from its three components. */
  function SeasonalRecords(base: real, trend: real, sc: seq<real>, days: int, today: int): (r: seq<Prediction>)
    requires |sc| == SeasonLength
    ensures ForecastShape(r, days, today)
  {
    seq(Horizon(days), i => Record(today, i, ClampRound(SeasonalPoint(base, trend, Deviation(sc, Position(today, i)), i))))
  }

  /** What `forecast` returns for the extracted series `y`. */
  function Predictions(y: seq<real>, days: int, today: int): (r: seq<Prediction>)
    ensures ForecastShape(r, days, today)
  {
    if |y| < MinDataPoints then MovingAverage.Predictions(y, days, today)
    else SeasonalRecords(Base(y), Trend(y), SeasonalComponent(y), days, today)
  }

  /** `SeasonalDecompositionModel.forecast`. */
  method Forecast(data: seq<HistoricalPoint>, days: int, today: int) returns (r: seq<Prediction>)
    ensures r == Predictions(AqiValues(data), days, today)
  {
    var values := PrepareData(data);
    if |values| < 14 {
      r := MovingAverage.Forecast(data, days, today);
      return;
    }
    var seasonal := SeasonalMeans(values);
    var trend := Trend(values);
    var base := Base(values);
    r := SeasonalLoop(base, trend, seasonal, days, today);
  }

  /** The prediction loop of `forecast`. */
  method SeasonalLoop(base: real, trend: real, seasonal: seq<real>, days: int, today: int) returns (r: seq<Prediction>)
    requires |seasonal| == SeasonLength
    ensures r == SeasonalRecords(base, trend, seasonal, days, today)
  {
    var seasonalMean := Mean(seasonal);
    r := [];
    var i := 0;
    while i < days
      invariant 0 <= i <= Horizon(days)
      invariant r == SeasonalRecords(base, trend, seasonal, days, today)[..i]
    {
      var date := today + 1 + i;
      var s := seasonal[Weekday(date) % SeasonLength];
      assert s - seasonalMean == Deviation(seasonal, Position(today, i));
      var predicted := ClampRound(SeasonalPoint(base, trend, s - seasonalMean, i));
      r := r + [Prediction(date, predicted, AqiCategory(predicted), None)];
      i := i + 1;
    }
  }

  /** Below two weeks of values the model is the moving-average model. */
  lemma ShortSeries(y: seq<real>, days: int, today: int)
    requires |y| < MinDataPoints
    ensures Predictions(y, days, today) == MovingAverage.Predictions(y, days, today)
  {
  }

  /** Once there are at least as many values as positions, every position has values of its own. */
  lemma {:induction false} EveryPositionFilled(xs: seq<real>, day: nat)
    requires |xs| >= SeasonLength && day < SeasonLength
    ensures |DayValues(xs, day)| >= 1
    ensures SeasonalComponent(xs)[day] == Mean(DayValues(xs, day))
  {
  }

  /** The deviations of the seven positions cancel out: the seasonal terms of any whole week add up to nothing. */
  lemma {:induction false} DeviationsCancel(sc: seq<real>)
    requires |sc| == SeasonLength
    ensures Sum(seq(SeasonLength, d requires 0 <= d < SeasonLength => Deviation(sc, d))) == 0.0
  {
    var u := seq(SeasonLength, d requires 0 <= d < SeasonLength => Deviation(sc, d));
    var m := seq(SeasonLength, d => Mean(sc));
    assert PointwiseDifference(u, sc, m);
    SumDifference(u, sc, m);
    SumConstant(m, Mean(sc));
    MeanTimesLength(sc);
  }

  /** A week later the same position recurs, so the forecast has moved by exactly seven days of trend. */
  lemma {:induction false} WeeklyPeriod(y: seq<real>, today: int, i: int)
    requires |y| > 0
    ensures DayForecast(y, today, i + 7) == DayForecast(y, today, i) + 7.0 * Trend(y)
  {
    assert Position(today, i + 7) == Position(today, i);
    ExtrapolateShift(Base(y), Trend(y), i, 7);
  }

  /** Every position of a constant series has mean v. */
  lemma {:induction false} ConstantComponent(y: seq<real>, v: real)
    requires |y| >= MinDataPoints && AllEqual(y, v)
    ensures AllEqual(SeasonalComponent(y), v)
  {
    var sc := SeasonalComponent(y);
    forall d | 0 <= d < SeasonLength
      ensures sc[d] == v
    {
      EveryPositionFilled(y, d);
      var dv := DayValues(y, d);
      assert AllEqual(dv, v);
      MeanConstant(dv, v);
    }
  }

  /** A constant series v has base v and no trend. */
  lemma {:induction false} ConstantLevel(y: seq<real>, v: real)
    requires |y| >= MinDataPoints && AllEqual(y, v)
    ensures Base(y) == v && Trend(y) == 0.0
  {
    var last, first := LastK(y, 7), FirstK(y, 7);
    assert AllEqual(last, v) && AllEqual(first, v);
    MeanConstant(last, v);
    MeanConstant(first, v);
  }

  /** A constant series v has no trend and no seasonal deviation: every day is v once rounded and clamped. */
  lemma {:induction false} ConstantSeries(y: seq<real>, v: real, days: int, today: int)
    requires |y| >= MinDataPoints && AllEqual(y, v)
    ensures forall i :: 0 <= i < Horizon(days) ==> Predictions(y, days, today)[i].predictedAqi == ClampRound(v)
  {
    var sc := SeasonalComponent(y);
    ConstantComponent(y, v);
    MeanConstant(sc, v);
    ConstantLevel(y, v);
    forall i | 0 <= i < Horizon(days)
      ensures DayForecast(y, today, i) == v
    {
      assert Deviation(sc, Position(today, i)) == 0.0;
    }
  }
}
