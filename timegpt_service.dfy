/**
 * The offline parts of `TimeGPTService`: turning the arrays of a forecast
 * response into prediction records (`_parse_timegpt_response`) and the
 * fallback forecast (`_fallback_forecast`) used whenever the remote call cannot
 * be made.
 *
 * The remote call itself is not modelled. Whether the fallback's first step,
 * the ensemble forecast of `ForecastingService`, raises is the oracle
 * `enhancedRaises`; `random.uniform(-0.1, 0.1)` is a nondeterministic choice
 * in that range.
 */
module TimeGptService {
  import opened Wrappers
  import opened Numeric
  import opened BaseModel
  import Aqi
  import Ensemble
  import ForecastingService

  /** The arrays under the response's "forecast" key; a missing key (or a missing "forecast") is the empty array. */
  datatype ForecastResponse = ForecastResponse(y: seq<real>, y80: seq<real>, y80Hi: seq<real>, y95: seq<real>,
                                               y95Hi: seq<real>)

  // ----- _parse_timegpt_response -----

  /** One confidence pair for day `i`: present exactly when both arrays reach that far, its bounds rounded and
    * clamped. */
  function Pair(lows: seq<real>, highs: seq<real>, i: nat): (b: Option<Band>)
    ensures b.Some? <==> i < |lows| && i < |highs|
    ensures b.Some? ==> b.value == Band(ClampRound(lows[i]), ClampRound(highs[i]))
  {
    if i < |lows| && i < |highs| then Some(Band(ClampRound(lows[i]), ClampRound(highs[i]))) else None
  }

  /** The 'confidence' entry of day `i`: the pairs that are present, and no entry at all when neither is. */
  function ConfidenceAt(resp: ForecastResponse, i: nat): (c: Option<Confidence>)
    ensures c.None? <==> Pair(resp.y80, resp.y80Hi, i).None? && Pair(resp.y95, resp.y95Hi, i).None?
    ensures c.Some? ==> c.value == Confidence(Pair(resp.y80, resp.y80Hi, i), Pair(resp.y95, resp.y95Hi, i))
  {
    var b80, b95 := Pair(resp.y80, resp.y80Hi, i), Pair(resp.y95, resp.y95Hi, i);
    if b80.None? && b95.None? then None else Some(Confidence(b80, b95))
  }

  /** The parsed records: one per day of `range(min(forecast_days, len(y)))`, dated from tomorrow, the rounded and
    * clamped forecast value with its category, and the available confidence pairs. */
  function ParsedRecords(resp: ForecastResponse, days: int, today: int): (r: seq<Prediction>)
    ensures |r| <= |resp.y| && |r| <= Horizon(days)
    ensures |r| == |resp.y| || |r| == Horizon(days)
    ensures forall i :: 0 <= i < |r| ==>
      && r[i].date == today + 1 + i
      && r[i].predictedAqi == ClampRound(resp.y[i])
      && r[i].category == Aqi.Category(r[i].predictedAqi)
      && r[i].confidence == ConfidenceAt(resp, i)
  {
    var count := Horizon(if days < |resp.y| then days else |resp.y|);
    seq(count, i requires 0 <= i < count => ParsedRecord(resp, today, i))
  }

  function ParsedRecord(resp: ForecastResponse, today: int, i: nat): Prediction
    requires i < |resp.y|
  {
    var aqi := ClampRound(resp.y[i]);
    Prediction(today + 1 + i, aqi, Aqi.Category(aqi), ConfidenceAt(resp, i))
  }

  /** `_parse_timegpt_response`. */
  method ParseResponse(resp: ForecastResponse, days: int, today: int) returns (r: seq<Prediction>)
    ensures r == ParsedRecords(resp, days, today)
  {
    var values, low80, high80, low95, high95 := resp.y, resp.y80, resp.y80Hi, resp.y95, resp.y95Hi;
    var count := if days < |values| then days else |values|;
    r := [];
    var i := 0;
    while i < count
      invariant 0 <= i <= Horizon(count)
      invariant r == ParsedRecords(resp, days, today)[..i]
    {
      var aqi := ClampRound(values[i]);
      var category := AqiCategory(aqi);
      var band80: Option<Band> := None;
      if i < |low80| && i < |high80| {
        band80 := Some(Band(ClampRound(low80[i]), ClampRound(high80[i])));
      }
      var band95: Option<Band> := None;
      if i < |low95| && i < |high95| {
        band95 := Some(Band(ClampRound(low95[i]), ClampRound(high95[i])));
      }
      var confidence: Option<Confidence> := None;
      if band80.Some? || band95.Some? {
        confidence := Some(Confidence(band80, band95));
      }
      r := r + [Prediction(today + 1 + i, aqi, category, confidence)];
      i := i + 1;
    }
  }

  /** Every parsed value, and every bound of a present pair, lies in [0, 500]; a day has a 'confidence' entry exactly
    * when one of its pairs is available. */
  lemma {:induction false} ParsedBounds(resp: ForecastResponse, days: int, today: int, i: int)
    requires 0 <= i < |ParsedRecords(resp, days, today)|
    ensures var p := ParsedRecords(resp, days, today)[i];
      && 0 <= p.predictedAqi <= 500
      && (p.confidence.Some? <==> (i < |resp.y80| && i < |resp.y80Hi|) || (i < |resp.y95| && i < |resp.y95Hi|))
      && (p.confidence.Some? && p.confidence.value.band80.Some? ==>
            0 <= p.confidence.value.band80.value.low <= 500 && 0 <= p.confidence.value.band80.value.high <= 500)
      && (p.confidence.Some? && p.confidence.value.band95.Some? ==>
            0 <= p.confidence.value.band95.value.low <= 500 && 0 <= p.confidence.value.band95.value.high <= 500)
  {
  }

  /** A fully populated three-day response gives three records, each with both confidence pairs. */
  lemma ParseExample(today: int)
    ensures var resp := ForecastResponse([80.0, 85.0, 90.0], [75.0, 80.0, 85.0], [85.0, 90.0, 95.0],
                                         [70.0, 75.0, 80.0], [90.0, 95.0, 100.0]);
      var r := ParsedRecords(resp, 3, today);
      && |r| == 3
      && (forall i :: 0 <= i < 3 ==> r[i].confidence.Some?)
      && r[0] == Prediction(today + 1, 80, "Moderate", Some(Confidence(Some(Band(75, 85)), Some(Band(70, 90)))))
  {
    RoundOfInt(80);
    RoundOfInt(75);
    RoundOfInt(85);
    RoundOfInt(70);
    RoundOfInt(90);
  }

  /** A response with fewer values than days yields only as many records as values. */
  lemma {:induction false} ShortResponse(resp: ForecastResponse, days: int, today: int)
    requires 0 <= |resp.y| <= days
    ensures |ParsedRecords(resp, days, today)| == |resp.y|
  {
  }

  // ----- _fallback_forecast -----

  /** `recent_avg`: the mean of the last week once there are seven values, else the mean of all of them. */
  function FallbackLevel(y: seq<real>): real
    requires |y| > 0
  {
    if |y| >= 7 then Sum(y[|y| - 7..]) / 7.0 else Sum(y) / |y| as real
  }

  /** `trend`: the change from the week before the last to the last, per day; without a second week that week
    * stands in for itself, and below seven values there is no trend. */
  function FallbackTrend(y: seq<real>): real
    requires |y| > 0
  {
    if |y| >= 7 then
      var recent := Sum(y[|y| - 7..]) / 7.0;
      var older := if |y| >= 14 then Sum(y[|y| - 14..|y| - 7]) / 7.0 else recent;
      (recent - older) / 7.0
    else 0.0
  }

  /** `recent_avg + trend * i`, day `i`'s value before the random variation. */
  function FallbackBase(y: seq<real>, i: int): real
    requires |y| > 0
  {
    FallbackLevel(y) + FallbackTrend(y) * i as real
  }

  /** `base * (1 + variation)`. */
  function Scaled(base: real, variation: real): real
  {
    base * (1.0 + variation)
  }

  /** `max(0, min(500, round(base * (1 + variation))))`. */
  function Varied(base: real, variation: real): (aqi: int)
    ensures 0 <= aqi <= 500
  {
    ClampRound(Scaled(base, variation))
  }

  /** An AQI the fallback can produce from `base`: some variation in [-0.1, 0.1] gives it. */
  ghost predicate Reachable(aqi: int, base: real)
  {
    exists v :: -0.1 <= v <= 0.1 && aqi == Varied(base, v)
  }

  ghost predicate FallbackRecord(p: Prediction, y: seq<real>, today: int, i: int)
    requires |y| > 0
  {
    && p.date == today + 1 + i
    && Reachable(p.predictedAqi, FallbackBase(y, i))
    && p.category == Aqi.Category(p.predictedAqi)
    && p.confidence == None
  }

  /** What the simple fallback may return for the present AQI values `y`: the 75/"Moderate" forecast when there are
    * none, otherwise one varied record per day of the horizon. */
  ghost predicate FallbackOutcome(r: seq<Prediction>, y: seq<real>, days: int, today: int)
  {
    if |y| == 0 then r == ModerateDefault(days, today)
    else |r| == Horizon(days) && forall i :: 0 <= i < |r| ==> FallbackRecord(r[i], y, today, i)
  }

  /** The simple fallback (everything after the `except` clauses). */
  method SimpleFallback(data: seq<HistoricalPoint>, days: int, today: int) returns (r: seq<Prediction>)
    ensures FallbackOutcome(r, AqiValues(data), days, today)
  {
    if |data| == 0 {
      r := DefaultForecast(days, today);
      return;
    }
    var values := PrepareData(data);
    if |values| == 0 {
      r := DefaultForecast(days, today);
      return;
    }
    var recent: real, trend: real;
    if |values| >= 7 {
      recent := Sum(values[|values| - 7..]) / 7.0;
      var older := if |values| >= 14 then Sum(values[|values| - 14..|values| - 7]) / 7.0 else recent;
      trend := (recent - older) / 7.0;
    } else {
      recent := Sum(values) / |values| as real;
      trend := 0.0;
    }
    assert recent == FallbackLevel(values) && trend == FallbackTrend(values);
    r := FallbackLoop(values, recent, trend, days, today);
  }

  /** The prediction loop of the simple fallback. */
  method FallbackLoop(y: seq<real>, recent: real, trend: real, days: int, today: int) returns (r: seq<Prediction>)
    requires |y| > 0 && recent == FallbackLevel(y) && trend == FallbackTrend(y)
    ensures |r| == Horizon(days)
    ensures forall i :: 0 <= i < |r| ==> FallbackRecord(r[i], y, today, i)
  {
    r := [];
    var i := 0;
    while i < days
      invariant 0 <= i <= Horizon(days)
      invariant |r| == i
      invariant forall k :: 0 <= k < i ==> FallbackRecord(r[k], y, today, k)
    {
      var base := recent + trend * i as real;
      assert base == FallbackBase(y, i);
      var variation: real :| -0.1 <= variation <= 0.1;
      var predicted := Varied(base, variation);
      r := r + [Prediction(today + 1 + i, predicted, AqiCategory(predicted), None)];
      i := i + 1;
    }
  }

  /** `_fallback_forecast`: the service's ensemble forecast unless that raises, the simple fallback otherwise. */
  method FallbackForecast(data: seq<HistoricalPoint>, days: int, today: int, enhancedRaises: bool,
                          raised: Option<string>, failed: set<Ensemble.SubModel>)
    returns (r: seq<Prediction>)
    ensures !enhancedRaises ==> ForecastingService.ServiceOutcome(r, data, days, "ensemble", raised, failed, today)
    ensures enhancedRaises ==> FallbackOutcome(r, AqiValues(data), days, today)
  {
    if !enhancedRaises {
      var meta;
      r, meta := ForecastingService.ForecastAqi(data, days, "ensemble", raised, failed, today);
      return;
    }
    r := SimpleFallback(data, days, today);
  }

  /** No present value gives 75/"Moderate" for every day of the horizon. */
  lemma FallbackEmpty(r: seq<Prediction>, y: seq<real>, days: int, today: int)
    requires |y| == 0 && FallbackOutcome(r, y, days, today)
    ensures |r| == Horizon(days)
    ensures forall i :: 0 <= i < |r| ==> r[i].predictedAqi == 75 && r[i].category == "Moderate"
  {
  }

  /** Every fallback record has the right date and an AQI in [0, 500] with its category. */
  lemma {:induction false} FallbackInRange(r: seq<Prediction>, y: seq<real>, days: int, today: int, i: int)
    requires FallbackOutcome(r, y, days, today) && 0 <= i < |r|
    ensures |r| == Horizon(days)
    ensures r[i].date == today + 1 + i
    ensures 0 <= r[i].predictedAqi <= 500 && r[i].category == Aqi.Category(r[i].predictedAqi)
  {
    if |y| > 0 {
      assert FallbackRecord(r[i], y, today, i);
      var v :| -0.1 <= v <= 0.1 && r[i].predictedAqi == Varied(FallbackBase(y, i), v);
    }
  }

  /** The level and trend by series length: the overall mean and no trend below a week; the last week's mean and no
    * trend below two weeks; otherwise the difference of the last two weekly means spread over a week. */
  lemma {:induction false} FallbackTrendCases(y: seq<real>)
    requires |y| > 0
    ensures |y| < 7 ==> FallbackLevel(y) == Mean(y) && FallbackTrend(y) == 0.0
    ensures |y| >= 7 ==> FallbackLevel(y) == Mean(LastK(y, 7))
    ensures 7 <= |y| < 14 ==> FallbackTrend(y) == 0.0
    ensures |y| >= 14 ==> FallbackTrend(y) == (Mean(LastK(y, 7)) - Mean(y[|y| - 14..|y| - 7])) / 7.0
  {
  }

  /** A variation in [-0.1, 0.1] keeps a non-negative base within ten percent of itself. */
  lemma VariationWithin(base: real, v: real)
    requires base >= 0.0 && -0.1 <= v <= 0.1
    ensures 0.9 * base <= Scaled(base, v) <= 1.1 * base
  {
    NonnegativeTimes(base, 0.1 + v);
    NonnegativeTimes(base, 0.1 - v);
  }

  /** For a non-negative base every reachable AQI lies between the base less and plus ten percent, rounded and
    * clamped. */
  lemma ReachableBounds(aqi: int, base: real)
    requires base >= 0.0 && Reachable(aqi, base)
    ensures ClampRound(0.9 * base) <= aqi <= ClampRound(1.1 * base)
  {
    var v :| -0.1 <= v <= 0.1 && aqi == Varied(base, v);
    var scaled := Scaled(base, v);
    VariationWithin(base, v);
    ClampRoundMonotone(0.9 * base, scaled);
    ClampRoundMonotone(scaled, 1.1 * base);
  }

  /** A constant non-negative series v gives, every day, an AQI within ten percent of v, rounded and clamped. */
  lemma {:induction false} FallbackConstant(r: seq<Prediction>, y: seq<real>, v: real, days: int, today: int, i: int)
    requires |y| > 0 && AllEqual(y, v) && v >= 0.0 && FallbackOutcome(r, y, days, today) && 0 <= i < |r|
    ensures ClampRound(0.9 * v) <= r[i].predictedAqi <= ClampRound(1.1 * v)
  {
    if |y| >= 7 {
      var last := y[|y| - 7..];
      assert AllEqual(last, v);
      SumConstant(last, v);
      if |y| >= 14 {
        var older := y[|y| - 14..|y| - 7];
        assert AllEqual(older, v);
        SumConstant(older, v);
      }
    } else {
      MeanConstant(y, v);
    }
    assert FallbackLevel(y) == v && FallbackTrend(y) == 0.0;
    assert FallbackBase(y, i) == v;
    assert FallbackRecord(r[i], y, today, i);
    ReachableBounds(r[i].predictedAqi, v);
  }
}
