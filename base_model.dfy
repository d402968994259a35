/**
 * What every forecasting model shares (`BaseForecastModel`): the records it
 * reads and writes, the extraction of the AQI series from the historical
 * records, the category lookup, and the 75/"Moderate" forecast that each model
 * returns when it has too little data.
 *
 * Dates are proleptic Gregorian ordinals, as Python's `date.toordinal()`;
 * `today` is the ordinal of the clock's current date, a parameter everywhere.
 */
module BaseModel {
  import opened Wrappers
  import opened Numeric
  import Aqi

  /** A historical record; `aqi` is `None` when the entry is missing or null. */
  datatype HistoricalPoint = HistoricalPoint(date: int, aqi: Option<real>)

  /** A `low`/`high` pair of a confidence entry. */
  datatype Band = Band(low: int, high: int)

  /** The 'confidence' entry of a prediction: the 80 % pair and the 95 % pair, each present or absent. */
  datatype Confidence = Confidence(band80: Option<Band>, band95: Option<Band>)

  /** A prediction record: 'date', 'predicted_aqi', 'category' and, when the key is present, 'confidence'. */
  datatype Prediction = Prediction(date: int, predictedAqi: int, category: string, confidence: Option<Confidence>)

  /** The value and label of the insufficient-data forecast. */
  const DefaultAqi: int := 75
  const DefaultCategory: string := "Moderate"

  /** `_get_aqi_category`: the calculator's own category. */
  function AqiCategory(aqi: int): string
  {
    Aqi.Category(aqi)
  }

  /** The weekday of an ordinal date, Monday being 0, exactly as Python's `date.weekday()` defines it. */
  function Weekday(date: int): (w: int)
    ensures 0 <= w < 7
  {
    (date + 6) % 7
  }

  /** The record a model emits for day `i` of the horizon with an already clamped AQI. */
  function Record(today: int, i: int, aqi: int): Prediction
  {
    Prediction(today + 1 + i, aqi, AqiCategory(aqi), None)
  }

  /** The shape every model forecast has: one record per day of `range(days)`, dated from tomorrow on, with an AQI in
    * [0, 500], the category of that AQI, and no 'confidence' key. */
  predicate ForecastShape(r: seq<Prediction>, days: int, today: int)
  {
    && |r| == Horizon(days)
    && forall i :: 0 <= i < |r| ==>
         && r[i].date == today + 1 + i
         && 0 <= r[i].predictedAqi <= 500
         && r[i].category == Aqi.Category(r[i].predictedAqi)
         && r[i].confidence == None
  }

  /** The AQI values `_prepare_data` keeps: the entries that are present, in input order. */
  function AqiValues(data: seq<HistoricalPoint>): (values: seq<real>)
    ensures |values| <= |data|
  {
    if |data| == 0 then []
    else
      var last := data[|data| - 1];
      AqiValues(data[..|data| - 1]) + (if last.aqi.Some? then [last.aqi.value] else [])
  }

  /** Extraction distributes over concatenation: together with the one-record case this says the result is the
    * present entries in input order and nothing else. */
  lemma {:induction false} AqiValuesConcat(a: seq<HistoricalPoint>, b: seq<HistoricalPoint>)
    ensures AqiValues(a + b) == AqiValues(a) + AqiValues(b)
    decreases |b|
  {
    if |b| == 0 {
      assert a + b == a;
    } else {
      var n := |b| - 1;
      assert (a + b)[..|a + b| - 1] == a + b[..n];
      assert (a + b)[|a + b| - 1] == b[n];
      AqiValuesConcat(a, b[..n]);
    }
  }

  lemma AqiValuesSingle(p: HistoricalPoint)
    ensures AqiValues([p]) == if p.aqi.Some? then [p.aqi.value] else []
  {
    assert [p][..0] == [];
  }

  /** When every record carries an AQI the result is the pointwise list of those values. */
  lemma {:induction false} AqiValuesAllPresent(data: seq<HistoricalPoint>)
    requires forall i :: 0 <= i < |data| ==> data[i].aqi.Some?
    ensures |AqiValues(data)| == |data|
    ensures forall i :: 0 <= i < |data| ==> AqiValues(data)[i] == data[i].aqi.value
  {
    if |data| > 0 {
      AqiValuesAllPresent(data[..|data| - 1]);
    }
  }

  /** `_prepare_data`: one pass appending each present entry. */
  method PrepareData(data: seq<HistoricalPoint>) returns (values: seq<real>)
    ensures values == AqiValues(data)
  {
    values := [];
    var i := 0;
    while i < |data|
      invariant 0 <= i <= |data|
      invariant values == AqiValues(data[..i])
    {
      assert data[..i + 1][..i] == data[..i];
      if data[i].aqi.Some? {
        values := values + [data[i].aqi.value];
      }
      i := i + 1;
    }
    assert data[..|data|] == data;
  }

  /** The insufficient-data forecast: 75 and "Moderate" for every day of the horizon. */
  function ModerateDefault(days: int, today: int): (r: seq<Prediction>)
    ensures ForecastShape(r, days, today)
    ensures forall i :: 0 <= i < |r| ==> r[i].predictedAqi == DefaultAqi && r[i].category == DefaultCategory
  {
    seq(Horizon(days), i => Record(today, i, DefaultAqi))
  }

  /** `_default_forecast` of the models (the same loop appears in each model file). */
  method DefaultForecast(days: int, today: int) returns (r: seq<Prediction>)
    ensures r == ModerateDefault(days, today)
  {
    r := [];
    var i := 0;
    while i < days
      invariant 0 <= i <= Horizon(days)
      invariant r == ModerateDefault(days, today)[..i]
    {
      r := r + [Prediction(today + 1 + i, DefaultAqi, DefaultCategory, None)];
      i := i + 1;
    }
  }

  /** The forecast that extrapolates `level` along `trend`: day `i` gets `level + trend * (i + 1)`, rounded and
    * clamped. The moving-average and exponential-smoothing models and the ensemble's simple average share it. */
  function Extrapolated(level: real, trend: real, days: int, today: int): (r: seq<Prediction>)
    ensures ForecastShape(r, days, today)
  {
    seq(Horizon(days), i => Record(today, i, ClampRound(Extrapolate(level, trend, i))))
  }

  /** The prediction loop of those models. */
  method ExtrapolatedForecast(level: real, trend: real, days: int, today: int) returns (r: seq<Prediction>)
    ensures r == Extrapolated(level, trend, days, today)
  {
    r := [];
    var i := 0;
    while i < days
      invariant 0 <= i <= Horizon(days)
      invariant r == Extrapolated(level, trend, days, today)[..i]
    {
      var predicted := ClampRound(Extrapolate(level, trend, i));
      r := r + [Prediction(today + 1 + i, predicted, AqiCategory(predicted), None)];
      i := i + 1;
    }
  }
}
