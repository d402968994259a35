/**
 * `ForecastingService`: the dictionary from method names to the six models,
 * the dispatch of `forecast_aqi` with its metadata, the confidence intervals
 * added to a model's predictions, the random insufficient-data forecast and
 * `get_method_info`.
 *
 * An exception raised inside the `try` block is the oracle `raised` (its
 * message when one is raised); for the ensemble, the sub-models that raise are
 * the oracle `failed`. `random.randint(-15, 25)` is a nondeterministic choice
 * in that range.
 */
module ForecastingService {
  import opened Wrappers
  import opened Numeric
  import opened BaseModel
  import Aqi
  import LinearRegression
  import MovingAverage
  import ExponentialSmoothing
  import SeasonalDecomposition
  import Arima
  import Ensemble

  /** The entries of `self.models`. */
  datatype Method = LinearMethod | MovingAverageMethod | ExponentialSmoothingMethod | SeasonalMethod | ArimaMethod | EnsembleMethod

  /** The keys of `self.models`, in insertion order: what `get_available_methods` returns. */
  const MethodKeys: seq<string> := ["linear", "moving_average", "exponential_smoothing", "seasonal", "arima", "ensemble"]

  /** The key under which a model is registered. */
  function Key(m: Method): string
  {
    match m
    case LinearMethod => "linear"
    case MovingAverageMethod => "moving_average"
    case ExponentialSmoothingMethod => "exponential_smoothing"
    case SeasonalMethod => "seasonal"
    case ArimaMethod => "arima"
    case EnsembleMethod => "ensemble"
  }

  /** `self.models[name]` when `name` is a key. */
  function Lookup(name: string): (r: Option<Method>)
    ensures r.Some? <==> name in MethodKeys
    ensures r.Some? ==> Key(r.value) == name
  {
    if name == "linear" then Some(LinearMethod)
    else if name == "moving_average" then Some(MovingAverageMethod)
    else if name == "exponential_smoothing" then Some(ExponentialSmoothingMethod)
    else if name == "seasonal" then Some(SeasonalMethod)
    else if name == "arima" then Some(ArimaMethod)
    else if name == "ensemble" then Some(EnsembleMethod)
    else None
  }

  /** The method `forecast_aqi` runs: the named one, or the ensemble for a name that is not a key. */
  function Resolve(name: string): Method
  {
    match Lookup(name)
    case Some(m) => m
    case None => EnsembleMethod
  }

  /** Every model is found under its own key, and every key names a different model. */
  lemma KeyRoundTrip(m: Method)
    ensures Key(m) in MethodKeys
    ensures Lookup(Key(m)) == Some(m)
    ensures Resolve(Key(m)) == m
  {
  }

  /** A name that is not a key runs the ensemble; resolving twice changes nothing. */
  lemma ResolveUnknown(name: string)
    ensures name !in MethodKeys ==> Resolve(name) == EnsembleMethod
    ensures name in MethodKeys ==> Key(Resolve(name)) == name
    ensures Resolve(Key(Resolve(name))) == Resolve(name)
  {
    KeyRoundTrip(Resolve(name));
  }

  /** `get_available_methods`: exactly the names that have method information. */
  function AvailableMethods(): (r: seq<string>)
    ensures forall name :: name in r <==> GetMethodInfo(name).Some?
  {
    MethodKeys
  }

  /** What `get_name`, `get_description`, `get_min_data_points` and `get_best_for` return for one model. */
  datatype MethodInfo = MethodInfo(name: string, description: string, minDataPoints: nat, bestFor: string)

  function Info(m: Method): MethodInfo
  {
    match m
    case LinearMethod =>
      MethodInfo(LinearRegression.Name, LinearRegression.Description, LinearRegression.MinDataPoints, LinearRegression.BestFor)
    case MovingAverageMethod =>
      MethodInfo(MovingAverage.Name, MovingAverage.Description, MovingAverage.MinDataPoints, MovingAverage.BestFor)
    case ExponentialSmoothingMethod =>
      MethodInfo(ExponentialSmoothing.Name, ExponentialSmoothing.Description, ExponentialSmoothing.MinDataPoints,
                 ExponentialSmoothing.BestFor)
    case SeasonalMethod =>
      MethodInfo(SeasonalDecomposition.Name, SeasonalDecomposition.Description, SeasonalDecomposition.MinDataPoints,
                 SeasonalDecomposition.BestFor)
    case ArimaMethod => MethodInfo(Arima.Name, Arima.Description, Arima.MinDataPoints, Arima.BestFor)
    case EnsembleMethod => MethodInfo(Ensemble.Name, Ensemble.Description, Ensemble.MinDataPoints, Ensemble.BestFor)
  }

  /** `get_method_info`: the model's information for a key, the empty dictionary (`None`) for any other name. */
  function GetMethodInfo(name: string): (r: Option<MethodInfo>)
    ensures r.Some? <==> name in MethodKeys
    ensures r.Some? ==> r == Some(Info(Resolve(name)))
  {
    match Lookup(name)
    case Some(m) => Some(Info(m))
    case None => None
  }

  /** The information of a few methods, written out. */
  lemma MethodInfoVectors()
    ensures GetMethodInfo("seasonal") == Some(MethodInfo("Seasonal Decomposition (period=7)",
      "Forecasting with seasonal pattern recognition", 14, "Data with weekly or seasonal patterns"))
    ensures GetMethodInfo("moving_average").Some? && GetMethodInfo("moving_average").value.minDataPoints == 5
    ensures GetMethodInfo("arima").Some? && GetMethodInfo("arima").value.name == "Simple ARIMA"
    ensures GetMethodInfo("prophet") == None
  {
  }

  /** What one model's `forecast` returns for the extracted series `y`. */
  function ModelPredictions(m: Method, y: seq<real>, failed: set<Ensemble.SubModel>, days: int, today: int)
    : (r: seq<Prediction>)
    ensures ForecastShape(r, days, today)
  {
    match m
    case LinearMethod => LinearRegression.Predictions(y, days, today)
    case MovingAverageMethod => MovingAverage.Predictions(y, days, today)
    case ExponentialSmoothingMethod => ExponentialSmoothing.Predictions(y, days, today)
    case SeasonalMethod => SeasonalDecomposition.Predictions(y, days, today)
    case ArimaMethod => Arima.Predictions(y, days, today)
    case EnsembleMethod => Ensemble.Predictions(y, failed, days, today)
  }

  /** `model.forecast(historical_data, forecast_days)`. */
  method RunModel(m: Method, data: seq<HistoricalPoint>, failed: set<Ensemble.SubModel>, days: int, today: int)
    returns (preds: seq<Prediction>)
    ensures preds == ModelPredictions(m, AqiValues(data), failed, days, today)
  {
    match m
    case LinearMethod => preds := LinearRegression.Forecast(data, days, today);
    case MovingAverageMethod => preds := MovingAverage.Forecast(data, days, today);
    case ExponentialSmoothingMethod => preds := ExponentialSmoothing.Forecast(data, days, today);
    case SeasonalMethod => preds := SeasonalDecomposition.Forecast(data, days, today);
    case ArimaMethod => preds := Arima.Forecast(data, days, today);
    case EnsembleMethod => preds := Ensemble.Forecast(data, failed, days, today);
  }

  // ----- confidence intervals -----

  /** The least margin of each method. */
  function MarginFloor(m: Method): real
  {
    match m
    case EnsembleMethod => 5.0
    case LinearMethod => 8.0
    case MovingAverageMethod => 6.0
    case _ => 10.0
  }

  /** The margin of each method as a share of the AQI. */
  function MarginRate(m: Method): real
  {
    match m
    case EnsembleMethod => 0.15
    case LinearMethod => 0.20
    case MovingAverageMethod => 0.18
    case _ => 0.25
  }

  /** `max(floor, aqi * rate)`. */
  function Margin(m: Method, aqi: real): (margin: real)
    ensures margin >= MarginFloor(m) > 0.0
    ensures margin >= aqi * MarginRate(m)
    ensures margin == MarginFloor(m) || margin == aqi * MarginRate(m)
  {
    if aqi * MarginRate(m) > MarginFloor(m) then aqi * MarginRate(m) else MarginFloor(m)
  }

  /** For a non-negative AQI the ensemble has the narrowest margin, then the moving average, then linear regression,
    * then every other method. */
  lemma MarginOrder(aqi: real)
    requires aqi >= 0.0
    ensures Margin(EnsembleMethod, aqi) <= Margin(MovingAverageMethod, aqi)
    ensures Margin(MovingAverageMethod, aqi) <= Margin(LinearMethod, aqi)
    ensures forall m :: m !in {EnsembleMethod, MovingAverageMethod, LinearMethod} ==>
      Margin(LinearMethod, aqi) <= Margin(m, aqi)
  {
  }

  /** `x` plus or minus `d`, each rounded and clamped. */
  function Spread(x: real, d: real): Band
  {
    Band(ClampRound(x - d), ClampRound(x + d))
  }

  /** A wider spread encloses a narrower one. */
  lemma SpreadWithin(x: real, d: real, e: real)
    requires 0.0 <= d <= e
    ensures Spread(x, e).low <= Spread(x, d).low <= Spread(x, d).high <= Spread(x, e).high
  {
    ClampRoundMonotone(x - e, x - d);
    ClampRoundMonotone(x - d, x + d);
    ClampRoundMonotone(x + d, x + e);
  }

  /** A spread around an AQI in [0, 500] contains it. */
  lemma SpreadAround(aqi: int, d: real)
    requires 0 <= aqi <= 500 && d >= 0.0
    ensures Spread(aqi as real, d).low <= aqi <= Spread(aqi as real, d).high
  {
    RoundOfInt(aqi);
    ClampRoundMonotone(aqi as real - d, aqi as real);
    ClampRoundMonotone(aqi as real, aqi as real + d);
  }

  /** The 'confidence' entry for one prediction: the AQI plus or minus the margin, and plus or minus one and a half
    * margins, each rounded and clamped. */
  function Intervals(aqi: int, m: Method): Confidence
  {
    var margin := Margin(m, aqi as real);
    Confidence(Some(Spread(aqi as real, margin)), Some(Spread(aqi as real, margin * 1.5)))
  }

  /** Both pairs present, every bound in [0, 500], the 95 % pair around the 80 % pair, and for an AQI in [0, 500] the
    * 80 % pair around the AQI. */
  predicate Nested(c: Confidence, aqi: int)
  {
    && c.band80.Some? && c.band95.Some?
    && 0 <= c.band95.value.low <= c.band80.value.low <= c.band80.value.high <= c.band95.value.high <= 500
    && (0 <= aqi <= 500 ==> c.band80.value.low <= aqi <= c.band80.value.high)
  }

  lemma IntervalsNested(aqi: int, m: Method)
    ensures Nested(Intervals(aqi, m), aqi)
  {
    var margin := Margin(m, aqi as real);
    SpreadWithin(aqi as real, margin, margin * 1.5);
    if 0 <= aqi <= 500 {
      SpreadAround(aqi, margin);
    }
  }

  /** `_add_confidence_intervals` on values: every record keeps its date, AQI and category and gets the 'confidence'
    * entry of its AQI. */
  function WithIntervals(preds: seq<Prediction>, m: Method): (r: seq<Prediction>)
    ensures |r| == |preds|
    ensures forall i :: 0 <= i < |r| ==>
      && r[i].date == preds[i].date
      && r[i].predictedAqi == preds[i].predictedAqi
      && r[i].category == preds[i].category
      && r[i].confidence == Some(Intervals(preds[i].predictedAqi, m))
  {
    seq(|preds|, i requires 0 <= i < |preds| => preds[i].(confidence := Some(Intervals(preds[i].predictedAqi, m))))
  }

  /** `_add_confidence_intervals`: the records are updated in place, one at a time. */
  method AddConfidenceIntervals(a: array<Prediction>, m: Method)
    modifies a
    ensures a[..] == WithIntervals(old(a[..]), m)
  {
    var i := 0;
    while i < a.Length
      invariant 0 <= i <= a.Length
      invariant a[..i] == WithIntervals(old(a[..]), m)[..i]
      invariant forall k :: i <= k < a.Length ==> a[k] == old(a[k])
    {
      var aqi := a[i].predictedAqi;
      a[i] := a[i].(confidence := Some(Intervals(aqi, m)));
      assert a[..i + 1] == WithIntervals(old(a[..]), m)[..i + 1];
      i := i + 1;
    }
    assert a[..] == a[..a.Length];
  }

  // ----- the default forecast -----

  /** What `_default_forecast` may return: one record per day of the horizon, dated from tomorrow, with an AQI in
    * [45, 85] (60 plus a draw from [-15, 25]), its category, and no 'confidence' entry. */
  predicate DefaultShape(r: seq<Prediction>, days: int, today: int)
  {
    && |r| == Horizon(days)
    && forall i :: 0 <= i < |r| ==> DefaultRecord(r[i], today, i)
  }

  predicate DefaultRecord(p: Prediction, today: int, i: int)
  {
    && p.date == today + 1 + i
    && 45 <= p.predictedAqi <= 85
    && p.category == Aqi.Category(p.predictedAqi)
    && p.confidence == None
  }

  /** `_default_forecast`, with `random.randint(-15, 25)` as a choice. */
  method DefaultForecast(days: int, today: int) returns (r: seq<Prediction>)
    ensures DefaultShape(r, days, today)
  {
    r := [];
    var i := 0;
    while i < days
      invariant 0 <= i <= Horizon(days)
      invariant |r| == i
      invariant forall k :: 0 <= k < i ==> DefaultRecord(r[k], today, k)
    {
      var offset: int :| -15 <= offset <= 25;
      var aqi := ClampAqi(60 + offset);
      r := r + [Prediction(today + 1 + i, aqi, AqiCategory(aqi), None)];
      i := i + 1;
    }
  }

  /** Every default record is "Good" or "Moderate"; the clamp never acts. */
  lemma DefaultCategories(r: seq<Prediction>, days: int, today: int, i: int)
    requires DefaultShape(r, days, today) && 0 <= i < |r|
    ensures r[i].category == (if r[i].predictedAqi <= 50 then "Good" else "Moderate")
    ensures ClampAqi(r[i].predictedAqi) == r[i].predictedAqi
  {
    assert DefaultRecord(r[i], today, i);
  }

  // ----- forecast_aqi -----

  /** The metadata dictionary; `dataPoints` and `error` are `None` where the dictionary lacks the key. */
  datatype Metadata = Metadata(model: string, methodKey: string, dataPoints: Option<nat>, error: Option<string>,
                               confidence: string)

  /** The metadata `forecast_aqi` returns for `n` records, the method name asked for, and the exception raised in the
    * `try` block, if any. */
  function ServiceMetadata(n: nat, name: string, raised: Option<string>): Metadata
  {
    if n < 3 then Metadata("Default", "default", None, None, "low")
    else if raised.Some? then Metadata("Default", "default", None, Some(raised.value), "low")
    else
      var m := Resolve(name);
      Metadata(Info(m).name, Key(m), Some(n), None, if n > 30 then "high" else "medium")
  }

  /** The predictions `forecast_aqi` may return: a default forecast for fewer than three records or when the `try`
    * block raises; otherwise the resolved model's forecast with confidence intervals. */
  predicate ServiceOutcome(preds: seq<Prediction>, data: seq<HistoricalPoint>, days: int, name: string,
                           raised: Option<string>, failed: set<Ensemble.SubModel>, today: int)
  {
    if |data| < 3 || raised.Some? then DefaultShape(preds, days, today)
    else
      var m := Resolve(name);
      preds == WithIntervals(ModelPredictions(m, AqiValues(data), failed, days, today), m)
  }

  /** `forecast_aqi` as a plain call. */
  method ForecastAqi(data: seq<HistoricalPoint>, days: int, name: string, raised: Option<string>,
                     failed: set<Ensemble.SubModel>, today: int)
    returns (preds: seq<Prediction>, meta: Metadata)
    ensures ServiceOutcome(preds, data, days, name, raised, failed, today)
    ensures meta == ServiceMetadata(|data|, name, raised)
  {
    if |data| < 3 {
      preds := DefaultForecast(days, today);
      meta := Metadata("Default", "default", None, None, "low");
      return;
    }
    var m := EnsembleMethod;
    var found := Lookup(name);
    if found.Some? {
      m := found.value;
    }
    if raised.Some? {
      preds := DefaultForecast(days, today);
      meta := Metadata("Default", "default", None, Some(raised.value), "low");
      return;
    }
    var forecast := RunModel(m, data, failed, days, today);
    var a := new Prediction[|forecast|](k requires 0 <= k < |forecast| => forecast[k]);
    assert a[..] == forecast;
    AddConfidenceIntervals(a, m);
    preds := a[..];
    meta := Metadata(Info(m).name, Key(m), Some(|data|), None, if |data| > 30 then "high" else "medium");
  }

  /** The three kinds of metadata: "low" confidence exactly on the default paths, which carry no data count and an
    * error exactly when one was raised; otherwise the resolved model's name and key, and "high" exactly above 30
    * records. */
  lemma MetadataCases(n: nat, name: string, raised: Option<string>)
    ensures var meta := ServiceMetadata(n, name, raised);
      && (meta.confidence == "low" <==> n < 3 || raised.Some?)
      && (n < 3 ==> meta == Metadata("Default", "default", None, None, "low"))
      && (n >= 3 && raised.Some? ==> meta == Metadata("Default", "default", None, raised, "low"))
      && (n >= 3 && raised.None? ==>
            && meta.model == GetMethodInfo(Key(Resolve(name))).value.name
            && meta.methodKey in MethodKeys
            && meta.dataPoints == Some(n)
            && (meta.confidence == "high" <==> n > 30))
  {
    KeyRoundTrip(Resolve(name));
  }

  /** A name that is not a key behaves exactly as "ensemble", predictions and metadata alike. */
  lemma UnknownMethodIsEnsemble(preds: seq<Prediction>, data: seq<HistoricalPoint>, days: int, name: string,
                                raised: Option<string>, failed: set<Ensemble.SubModel>, today: int)
    requires name !in MethodKeys
    ensures ServiceOutcome(preds, data, days, name, raised, failed, today)
        <==> ServiceOutcome(preds, data, days, "ensemble", raised, failed, today)
    ensures ServiceMetadata(|data|, name, raised) == ServiceMetadata(|data|, "ensemble", raised)
  {
  }

  /** On success every record is a model record (dated from tomorrow, AQI in [0, 500], its category) carrying both
    * confidence pairs, nested around it. */
  lemma {:induction false} SuccessShape(preds: seq<Prediction>, data: seq<HistoricalPoint>, days: int, name: string,
                                        failed: set<Ensemble.SubModel>, today: int)
    requires |data| >= 3 && ServiceOutcome(preds, data, days, name, None, failed, today)
    ensures |preds| == Horizon(days)
    ensures forall i :: 0 <= i < |preds| ==>
      && preds[i].date == today + 1 + i
      && 0 <= preds[i].predictedAqi <= 500
      && preds[i].category == Aqi.Category(preds[i].predictedAqi)
      && preds[i].confidence.Some? && Nested(preds[i].confidence.value, preds[i].predictedAqi)
  {
    var m := Resolve(name);
    var base := ModelPredictions(m, AqiValues(data), failed, days, today);
    forall i | 0 <= i < |preds|
      ensures preds[i].confidence.Some? && Nested(preds[i].confidence.value, preds[i].predictedAqi)
    {
      IntervalsNested(base[i].predictedAqi, m);
    }
  }
}
