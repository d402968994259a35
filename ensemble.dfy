/**
 * `EnsembleModel`: the linear, moving-average, exponential-smoothing and
 * seasonal models run in that order; the forecasts of those that do not raise
 * are combined day by day with the weights 0.3, 0.25, 0.25, 0.2 taken by
 * position, renormalised when fewer than four forecasts are available. When
 * every sub-model raises, a mean-plus-trend forecast is used instead.
 *
 * Which sub-models raise is a parameter (`failed`): in exact arithmetic none of
 * their code paths can fail, so the exception is external to the model.
 */
module Ensemble {
  import opened Wrappers
  import opened Numeric
  import opened BaseModel
  import LinearRegression
  import MovingAverage
  import ExponentialSmoothing
  import SeasonalDecomposition

  const Name: string := "Ensemble (Multiple Models)"
  const Description: string := "Combines multiple forecasting methods for improved accuracy"
  const MinDataPoints: nat := 3
  const BestFor: string := "General purpose forecasting with improved accuracy"

  /** The entries of `sub_models`. */
  datatype SubModel = LinearModel | MovingAverageModel | ExponentialSmoothingModel | SeasonalModel

  /** The order in which `sub_models` is iterated. */
  const SubModels: seq<SubModel> := [LinearModel, MovingAverageModel, ExponentialSmoothingModel, SeasonalModel]

  /** The weight of each position among the forecasts that were obtained. */
  const Weights: seq<real> := [0.3, 0.25, 0.25, 0.2]

  /** What one sub-model's `forecast` returns for the extracted series `y`. */
  function SubForecast(m: SubModel, y: seq<real>, days: int, today: int): (r: seq<Prediction>)
    ensures ForecastShape(r, days, today)
  {
    match m
    case LinearModel => LinearRegression.Predictions(y, days, today)
    case MovingAverageModel => MovingAverage.Predictions(y, days, today)
    case ExponentialSmoothingModel => ExponentialSmoothing.Predictions(y, days, today)
    case SeasonalModel => SeasonalDecomposition.Predictions(y, days, today)
  }

  /** The sub-models of `ms` that do not raise, in their order. */
  function Survivors(ms: seq<SubModel>, failed: set<SubModel>): (s: seq<SubModel>)
    ensures |s| <= |ms|
    ensures forall m :: m in s <==> m in ms && m !in failed
  {
    if |ms| == 0 then []
    else
      var last := ms[|ms| - 1];
      Survivors(ms[..|ms| - 1], failed) + (if last in failed then [] else [last])
  }

  /** The position of a sub-model in `SubModels`. */
  function Rank(m: SubModel): (k: nat)
    ensures k < |SubModels| && SubModels[k] == m
  {
    match m
    case LinearModel => 0
    case MovingAverageModel => 1
    case ExponentialSmoothingModel => 2
    case SeasonalModel => 3
  }

  /** The sub-models of `s` appear in the order of `SubModels`, each at most once. */
  predicate InOrder(s: seq<SubModel>)
  {
    forall a, b :: 0 <= a < b < |s| ==> Rank(s[a]) < Rank(s[b])
  }

  /** Dropping the sub-models that raise keeps the others in their order. */
  lemma {:induction false} SurvivorsKeepOrder(ms: seq<SubModel>, failed: set<SubModel>)
    requires InOrder(ms)
    ensures InOrder(Survivors(ms, failed))
  {
    if |ms| > 0 {
      var init, last := ms[..|ms| - 1], ms[|ms| - 1];
      assert InOrder(init);
      SurvivorsKeepOrder(init, failed);
      var s0 := Survivors(init, failed);
      forall a | 0 <= a < |s0|
        ensures Rank(s0[a]) < Rank(last)
      {
        assert s0[a] in init;
        var k :| 0 <= k < |init| && init[k] == s0[a];
        assert ms[k] == s0[a];
      }
    }
  }

  /** For every choice of raising sub-models, the survivors keep the order of `SubModels`. */
  lemma SurvivorsInOrder(failed: set<SubModel>)
    ensures InOrder(Survivors(SubModels, failed))
  {
    SurvivorsKeepOrder(SubModels, failed);
  }

  /** `m` unless it raises. */
  function Keep(m: SubModel, failed: set<SubModel>): seq<SubModel>
  {
    if m in failed then [] else [m]
  }

  /** The survivors written out for every choice of raising sub-models. */
  lemma SurvivorsExplicit(failed: set<SubModel>)
    ensures Survivors(SubModels, failed)
      == Keep(LinearModel, failed) + Keep(MovingAverageModel, failed)
       + Keep(ExponentialSmoothingModel, failed) + Keep(SeasonalModel, failed)
  {
    assert SubModels[..1][..0] == [];
    assert Survivors(SubModels[..1], failed) == Keep(LinearModel, failed);
    assert SubModels[..2][..1] == SubModels[..1];
    assert Survivors(SubModels[..2], failed) == Keep(LinearModel, failed) + Keep(MovingAverageModel, failed);
    assert SubModels[..3][..2] == SubModels[..2];
    assert Survivors(SubModels[..3], failed)
      == Keep(LinearModel, failed) + Keep(MovingAverageModel, failed) + Keep(ExponentialSmoothingModel, failed);
    assert SubModels[..3] == SubModels[..|SubModels| - 1];
  }

  /** `predictions_list` once the sub-models `ms` have run. */
  function Forecasts(ms: seq<SubModel>, y: seq<real>, days: int, today: int): (list: seq<seq<Prediction>>)
    ensures |list| == |ms|
  {
    seq(|ms|, j requires 0 <= j < |ms| => SubForecast(ms[j], y, days, today))
  }

  /** `aqi_values` for day `i`: the `i`-th predicted AQI of every forecast long enough to have one, in order. */
  function DayValues(list: seq<seq<Prediction>>, i: int): (vals: seq<real>)
    ensures |vals| <= |list|
  {
    if |list| == 0 then []
    else
      var last := list[|list| - 1];
      DayValues(list[..|list| - 1], i) + (if 0 <= i < |last| then [last[i].predictedAqi as real] else [])
  }

  /** `sum(weights[:k])`. */
  function WeightTotal(k: nat): real
  {
    Sum(FirstK(Weights, k))
  }

  /** One term of the renormalised sum. */
  function NormalisedTerm(aqi: real, weight: real, total: real): real
    requires total != 0.0
  {
    aqi * weight / total
  }

  /** The weighted AQI of a day with `vals`: the weights by position over the first four values, or, with fewer than
    * four values, the first weights rescaled by their total. */
  function Combined(vals: seq<real>): real
    requires |vals| > 0
  {
    if |vals| < |Weights| then
      var total := WeightTotal(|vals|);
      WeightTotalPositive(|vals|);
      Sum(seq(|vals|, j requires 0 <= j < |vals| => NormalisedTerm(vals[j], Weights[j], total)))
    else
      Sum(seq(|Weights|, j requires 0 <= j < |Weights| => vals[j] * Weights[j]))
  }

  /** The combined AQI of a day: the weighted AQI rounded and clamped, or 75 when no forecast covers the day. */
  function DayAqi(vals: seq<real>): (aqi: int)
    ensures 0 <= aqi <= 500
  {
    if |vals| > 0 then ClampRound(Combined(vals)) else DefaultAqi
  }

  /** The ensemble records built from `predictions_list`. */
  function CombinedRecords(list: seq<seq<Prediction>>, days: int, today: int): (r: seq<Prediction>)
    ensures ForecastShape(r, days, today)
  {
    seq(Horizon(days), i => Record(today, i, DayAqi(DayValues(list, i))))
  }

  /** `_simple_average_forecast` on the extracted series `y`: the mean of the series plus, beyond a week of values,
    * the trend from the first week's mean to the last week's spread over the series. */
  function SimpleAverage(y: seq<real>, days: int, today: int): (r: seq<Prediction>)
    ensures ForecastShape(r, days, today)
  {
    if |y| == 0 then ModerateDefault(days, today)
    else Extrapolated(Mean(y), SimpleTrend(y), days, today)
  }

  function SimpleTrend(y: seq<real>): real
    requires |y| > 0
  {
    if |y| > 7 then (Mean(LastK(y, 7)) - Mean(FirstK(y, 7))) / |y| as real else 0.0
  }

  /** What `forecast` returns for the extracted series `y` when the sub-models in `failed` raise. */
  function Predictions(y: seq<real>, failed: set<SubModel>, days: int, today: int): (r: seq<Prediction>)
    ensures ForecastShape(r, days, today)
  {
    var list := Forecasts(Survivors(SubModels, failed), y, days, today);
    if |list| == 0 then SimpleAverage(y, days, today) else CombinedRecords(list, days, today)
  }

  // ----- the methods -----

  /** One sub-model's `forecast`. */
  method RunSubModel(m: SubModel, data: seq<HistoricalPoint>, days: int, today: int) returns (preds: seq<Prediction>)
    ensures preds == SubForecast(m, AqiValues(data), days, today)
  {
    match m
    case LinearModel => preds := LinearRegression.Forecast(data, days, today);
    case MovingAverageModel => preds := MovingAverage.Forecast(data, days, today);
    case ExponentialSmoothingModel => preds := ExponentialSmoothing.Forecast(data, days, today);
    case SeasonalModel => preds := SeasonalDecomposition.Forecast(data, days, today);
  }

  /** The first loop of `forecast`: run every sub-model, skipping those that raise. */
  method CollectForecasts(data: seq<HistoricalPoint>, failed: set<SubModel>, days: int, today: int)
    returns (list: seq<seq<Prediction>>)
    ensures list == Forecasts(Survivors(SubModels, failed), AqiValues(data), days, today)
  {
    list := [];
    var j := 0;
    while j < |SubModels|
      invariant 0 <= j <= |SubModels|
      invariant list == Forecasts(Survivors(SubModels[..j], failed), AqiValues(data), days, today)
    {
      ghost var before := Survivors(SubModels[..j], failed);
      assert SubModels[..j + 1][..j] == SubModels[..j];
      if SubModels[j] !in failed {
        var preds := RunSubModel(SubModels[j], data, days, today);
        list := list + [preds];
        ForecastsSnoc(before, SubModels[j], AqiValues(data), days, today);
      }
      j := j + 1;
    }
    assert SubModels[..|SubModels|] == SubModels;
  }

  /** Running one more sub-model appends its forecast. */
  lemma ForecastsSnoc(ms: seq<SubModel>, m: SubModel, y: seq<real>, days: int, today: int)
    ensures Forecasts(ms + [m], y, days, today) == Forecasts(ms, y, days, today) + [SubForecast(m, y, days, today)]
  {
  }

  /** The inner loop of `forecast`: collect day `i`'s values. */
  method CollectDay(list: seq<seq<Prediction>>, i: int) returns (vals: seq<real>)
    ensures vals == DayValues(list, i)
  {
    vals := [];
    var j := 0;
    while j < |list|
      invariant 0 <= j <= |list|
      invariant vals == DayValues(list[..j], i)
    {
      assert list[..j + 1][..j] == list[..j];
      if 0 <= i < |list[j]| {
        vals := vals + [list[j][i].predictedAqi as real];
      }
      j := j + 1;
    }
    assert list[..|list|] == list;
  }

  /** The outer loop of `forecast`: combine day by day. */
  method CombineDays(list: seq<seq<Prediction>>, days: int, today: int) returns (r: seq<Prediction>)
    ensures r == CombinedRecords(list, days, today)
  {
    r := [];
    var i := 0;
    while i < days
      invariant 0 <= i <= Horizon(days)
      invariant r == CombinedRecords(list, days, today)[..i]
    {
      var aqiValues := CollectDay(list, i);
      var predicted: int;
      if |aqiValues| > 0 {
        predicted := ClampRound(Combined(aqiValues));
      } else {
        predicted := 75;
      }
      r := r + [Prediction(today + 1 + i, predicted, AqiCategory(predicted), None)];
      i := i + 1;
    }
  }

  /** `_simple_average_forecast`. */
  method SimpleAverageForecast(data: seq<HistoricalPoint>, days: int, today: int) returns (r: seq<Prediction>)
    ensures r == SimpleAverage(AqiValues(data), days, today)
  {
    var values := PrepareData(data);
    if |values| == 0 {
      r := DefaultForecast(days, today);
      return;
    }
    var avg := Mean(values);
    var trend := SimpleTrend(values);
    r := ExtrapolatedForecast(avg, trend, days, today);
  }

  /** `EnsembleModel.forecast`. */
  method Forecast(data: seq<HistoricalPoint>, failed: set<SubModel>, days: int, today: int) returns (r: seq<Prediction>)
    ensures r == Predictions(AqiValues(data), failed, days, today)
  {
    var list := CollectForecasts(data, failed, days, today);
    if |list| == 0 {
      r := SimpleAverageForecast(data, days, today);
      return;
    }
    r := CombineDays(list, days, today);
  }

  // ----- properties -----

  lemma WeightTotalPositive(k: nat)
    ensures k > 0 ==> WeightTotal(k) > 0.0
  {
    var w := FirstK(Weights, k);
    if k > 0 {
      assert Nonnegative(w);
      SumNonnegative(w);
    }
  }

  /** The totals the renormalisation divides by; all four weights add up to 1. */
  lemma WeightTotals()
    ensures WeightTotal(1) == 0.3 && WeightTotal(2) == 0.55 && WeightTotal(3) == 0.8 && WeightTotal(4) == 1.0
  {
    SumOfFew(FirstK(Weights, 1));
    SumOfFew(FirstK(Weights, 2));
    SumOfFew(FirstK(Weights, 3));
    SumOfFew(FirstK(Weights, 4));
  }

  /** The combination written out: the j-th available value always gets the j-th weight, rescaled by the total of
    * the weights in use when fewer than four values are available; values beyond the fourth are ignored. */
  lemma {:induction false} CombinedExplicit(vals: seq<real>)
    requires |vals| > 0
    ensures |vals| == 1 ==> Combined(vals) == vals[0]
    ensures |vals| == 2 ==> Combined(vals) == (0.3 * vals[0] + 0.25 * vals[1]) / 0.55
    ensures |vals| == 3 ==> Combined(vals) == (0.3 * vals[0] + 0.25 * vals[1] + 0.25 * vals[2]) / 0.8
    ensures |vals| >= 4 ==> Combined(vals) == 0.3 * vals[0] + 0.25 * vals[1] + 0.25 * vals[2] + 0.2 * vals[3]
  {
    WeightTotals();
    var k := |vals|;
    if k < 4 {
      var total := WeightTotal(k);
      var terms := seq(k, j requires 0 <= j < k => NormalisedTerm(vals[j], Weights[j], total));
      SumOfFew(terms);
    } else {
      var terms := seq(4, j requires 0 <= j < 4 => vals[j] * Weights[j]);
      SumOfFew(terms);
    }
  }

  /** The weighted AQI lies between the least and the greatest of the values it combines. */
  lemma {:induction false} CombinedWithin(vals: seq<real>, lo: real, hi: real)
    requires |vals| > 0 && AllWithin(vals, lo, hi)
    ensures lo <= Combined(vals) <= hi
  {
    CombinedExplicit(vals);
  }

  /** When every value of a day is v, the day's weighted AQI is v. */
  lemma {:induction false} CombinedConstant(vals: seq<real>, v: real)
    requires |vals| > 0 && AllEqual(vals, v)
    ensures Combined(vals) == v
  {
    CombinedWithin(vals, v, v);
  }

  /** When every forecast covers day `i`, the day's values are their `i`-th predictions, one per forecast, in the
    * order of the forecasts. */
  lemma {:induction false} DayValuesFull(list: seq<seq<Prediction>>, i: int)
    requires 0 <= i && forall j :: 0 <= j < |list| ==> i < |list[j]|
    ensures |DayValues(list, i)| == |list|
    ensures forall j :: 0 <= j < |list| ==> DayValues(list, i)[j] == list[j][i].predictedAqi as real
  {
    if |list| > 0 {
      DayValuesFull(list[..|list| - 1], i);
    }
  }

  /** The weights go by position among the sub-models that did not raise, not by name: on every day of the horizon
    * the j-th value combined is the forecast of the j-th surviving sub-model. */
  lemma {:induction false} PositionalWeights(y: seq<real>, failed: set<SubModel>, days: int, today: int, i: int)
    requires 0 <= i < Horizon(days)
    ensures var s := Survivors(SubModels, failed);
      var vals := DayValues(Forecasts(s, y, days, today), i);
      && |vals| == |s|
      && forall j :: 0 <= j < |s| ==> vals[j] == SubForecast(s[j], y, days, today)[i].predictedAqi as real
  {
    var list := Forecasts(Survivors(SubModels, failed), y, days, today);
    DayValuesFull(list, i);
  }

  /** When only the linear model raises, the other three survive in their order. */
  lemma SurvivorsWithoutLinear()
    ensures Survivors(SubModels, {LinearModel}) == [MovingAverageModel, ExponentialSmoothingModel, SeasonalModel]
  {
    var f: set<SubModel> := {LinearModel};
    assert SubModels[..1][..0] == [];
    assert Survivors(SubModels[..1], f) == [];
    assert SubModels[..2][..1] == SubModels[..1];
    assert Survivors(SubModels[..2], f) == [MovingAverageModel];
    assert SubModels[..3][..2] == SubModels[..2];
    assert Survivors(SubModels[..3], f) == [MovingAverageModel, ExponentialSmoothingModel];
    assert SubModels[..3] == SubModels[..|SubModels| - 1];
  }

  /** For instance, when only the linear model raises, the moving-average forecast takes the first weight: the day's
    * weighted AQI is (0.3 * moving average + 0.25 * smoothing + 0.25 * seasonal) / 0.8. */
  lemma {:induction false} LinearModelFails(y: seq<real>, days: int, today: int, i: int)
    requires 0 <= i < Horizon(days)
    ensures var list := Forecasts(Survivors(SubModels, {LinearModel}), y, days, today);
      Combined(DayValues(list, i)) ==
        (0.3 * SubForecast(MovingAverageModel, y, days, today)[i].predictedAqi as real
         + 0.25 * SubForecast(ExponentialSmoothingModel, y, days, today)[i].predictedAqi as real
         + 0.25 * SubForecast(SeasonalModel, y, days, today)[i].predictedAqi as real) / 0.8
  {
    var s := Survivors(SubModels, {LinearModel});
    SurvivorsWithoutLinear();
    var vals := DayValues(Forecasts(s, y, days, today), i);
    PositionalWeights(y, {LinearModel}, days, today, i);
    var a := SubForecast(MovingAverageModel, y, days, today)[i].predictedAqi as real;
    var b := SubForecast(ExponentialSmoothingModel, y, days, today)[i].predictedAqi as real;
    var c := SubForecast(SeasonalModel, y, days, today)[i].predictedAqi as real;
    assert |vals| == 3 && vals[0] == a && vals[1] == b && vals[2] == c;
    CombinedExplicit(vals);
  }

  /** No sub-model survives when all of them raise. */
  lemma {:induction false} SurvivorsNone(ms: seq<SubModel>, failed: set<SubModel>)
    requires forall m :: m in ms ==> m in failed
    ensures Survivors(ms, failed) == []
  {
    if |ms| > 0 {
      SurvivorsNone(ms[..|ms| - 1], failed);
    }
  }

  /** If every sub-model raises, the result is the simple-average forecast. */
  lemma {:induction false} AllFail(y: seq<real>, failed: set<SubModel>, days: int, today: int)
    requires forall m: SubModel :: m in failed
    ensures Predictions(y, failed, days, today) == SimpleAverage(y, days, today)
  {
    SurvivorsNone(SubModels, failed);
  }

  /** While at least one sub-model succeeds every day of the horizon is covered, so the 75 of an uncovered day never
    * appears: each day is the combination of all the survivors' forecasts. */
  lemma {:induction false} EveryDayCovered(y: seq<real>, failed: set<SubModel>, days: int, today: int, i: int)
    requires |Survivors(SubModels, failed)| > 0 && 0 <= i < Horizon(days)
    ensures var list := Forecasts(Survivors(SubModels, failed), y, days, today);
      Predictions(y, failed, days, today)[i].predictedAqi == ClampRound(Combined(DayValues(list, i)))
  {
    PositionalWeights(y, failed, days, today, i);
  }

  /** With no values the simple average is the 75/"Moderate" default. */
  lemma EmptySimpleAverage(days: int, today: int)
    ensures SimpleAverage([], days, today) == ModerateDefault(days, today)
  {
  }

  /** With at most a week of values the simple average has no trend: every day is the mean. */
  lemma {:induction false} FlatSimpleAverage(y: seq<real>, days: int, today: int)
    requires 0 < |y| <= 7
    ensures forall i :: 0 <= i < Horizon(days) ==> SimpleAverage(y, days, today)[i].predictedAqi == ClampRound(Mean(y))
  {
  }

  /** A constant series v: each sub-model, and the simple average, forecasts v once rounded and clamped. */
  lemma {:induction false} SubModelsConstant(m: SubModel, y: seq<real>, v: real, days: int, today: int)
    requires |y| >= 3 && AllEqual(y, v)
    ensures forall i :: 0 <= i < Horizon(days) ==> SubForecast(m, y, days, today)[i].predictedAqi == ClampRound(v)
  {
    match m
    case LinearModel => LinearRegression.ConstantSeries(y, v, days, today);
    case MovingAverageModel => MovingAverage.ConstantSeries(y, v, days, today);
    case ExponentialSmoothingModel => ExponentialSmoothing.ConstantSeries(y, v, days, today);
    case SeasonalModel =>
      if |y| < SeasonalDecomposition.MinDataPoints {
        SeasonalDecomposition.ShortSeries(y, days, today);
        MovingAverage.ConstantSeries(y, v, days, today);
      } else {
        SeasonalDecomposition.ConstantSeries(y, v, days, today);
      }
  }

  lemma {:induction false} SimpleAverageConstant(y: seq<real>, v: real, days: int, today: int)
    requires |y| > 0 && AllEqual(y, v)
    ensures forall i :: 0 <= i < Horizon(days) ==> SimpleAverage(y, days, today)[i].predictedAqi == ClampRound(v)
  {
    MeanConstant(y, v);
    if |y| > 7 {
      var last, first := LastK(y, 7), FirstK(y, 7);
      assert AllEqual(last, v) && AllEqual(first, v);
      MeanConstant(last, v);
      MeanConstant(first, v);
    }
    assert SimpleTrend(y) == 0.0;
  }

  /** Rounding and clamping an AQI that is already a whole number in [0, 500] changes nothing. */
  lemma ClampRoundOfAqi(c: int)
    requires 0 <= c <= 500
    ensures ClampRound(c as real) == c
  {
    RoundOfInt(c);
  }

  /** A constant series v gives v once rounded and clamped, every day, whichever sub-models raise. */
  lemma {:induction false} ConstantSeries(y: seq<real>, v: real, failed: set<SubModel>, days: int, today: int)
    requires |y| >= 3 && AllEqual(y, v)
    ensures forall i :: 0 <= i < Horizon(days) ==> Predictions(y, failed, days, today)[i].predictedAqi == ClampRound(v)
  {
    var s := Survivors(SubModels, failed);
    if |s| == 0 {
      SimpleAverageConstant(y, v, days, today);
    } else {
      var c := ClampRound(v);
      forall i | 0 <= i < Horizon(days)
        ensures Predictions(y, failed, days, today)[i].predictedAqi == c
      {
        var list := Forecasts(s, y, days, today);
        var vals := DayValues(list, i);
        PositionalWeights(y, failed, days, today, i);
        forall j | 0 <= j < |s|
          ensures vals[j] == c as real
        {
          SubModelsConstant(s[j], y, v, days, today);
        }
        assert AllEqual(vals, c as real);
        CombinedConstant(vals, c as real);
        ClampRoundOfAqi(c);
      }
    }
  }
}
