/**
 * The EPA AQI arithmetic of `AQICalculator`: per-pollutant breakpoint tables,
 * piecewise-linear interpolation of a concentration, the daily AQI as the
 * maximum over pollutants, the category labels and the alert threshold test.
 */
module Aqi {
  import opened Wrappers
  import opened Numeric

  /** One row of a breakpoint table: concentrations in [cLow, cHigh] map linearly onto AQI values in [aqiLow, aqiHigh]. */
  datatype Breakpoint = Breakpoint(cLow: real, cHigh: real, aqiLow: int, aqiHigh: int)

  const Pm25Bands: seq<Breakpoint> := [
    Breakpoint(0.0, 12.0, 0, 50),
    Breakpoint(12.1, 35.4, 51, 100),
    Breakpoint(35.5, 55.4, 101, 150),
    Breakpoint(55.5, 150.4, 151, 200),
    Breakpoint(150.5, 250.4, 201, 300),
    Breakpoint(250.5, 500.4, 301, 500)
  ]

  const Pm10Bands: seq<Breakpoint> := [
    Breakpoint(0.0, 54.0, 0, 50),
    Breakpoint(55.0, 154.0, 51, 100),
    Breakpoint(155.0, 254.0, 101, 150),
    Breakpoint(255.0, 354.0, 151, 200),
    Breakpoint(355.0, 424.0, 201, 300),
    Breakpoint(425.0, 604.0, 301, 500)
  ]

  const No2Bands: seq<Breakpoint> := [
    Breakpoint(0.0, 53.0, 0, 50),
    Breakpoint(54.0, 100.0, 51, 100),
    Breakpoint(101.0, 360.0, 101, 150),
    Breakpoint(361.0, 649.0, 151, 200),
    Breakpoint(650.0, 1249.0, 201, 300),
    Breakpoint(1250.0, 2049.0, 301, 500)
  ]

  const O3Bands: seq<Breakpoint> := [
    Breakpoint(0.0, 54.0, 0, 50),
    Breakpoint(55.0, 70.0, 51, 100),
    Breakpoint(71.0, 85.0, 101, 150),
    Breakpoint(86.0, 105.0, 151, 200),
    Breakpoint(106.0, 200.0, 201, 300),
    Breakpoint(201.0, 500.0, 301, 500)
  ]

  const So2Bands: seq<Breakpoint> := [
    Breakpoint(0.0, 35.0, 0, 50),
    Breakpoint(36.0, 75.0, 51, 100),
    Breakpoint(76.0, 185.0, 101, 150),
    Breakpoint(186.0, 304.0, 151, 200),
    Breakpoint(305.0, 604.0, 201, 300),
    Breakpoint(605.0, 1004.0, 301, 500)
  ]

  const CoBands: seq<Breakpoint> := [
    Breakpoint(0.0, 4.4, 0, 50),
    Breakpoint(4.5, 9.4, 51, 100),
    Breakpoint(9.5, 12.4, 101, 150),
    Breakpoint(12.5, 15.4, 151, 200),
    Breakpoint(15.5, 30.4, 201, 300),
    Breakpoint(30.5, 50.4, 301, 500)
  ]

  /** `AQI_BREAKPOINTS`: the table of each pollutant, keyed by its lower-case name. */
  const AqiBreakpoints: map<string, seq<Breakpoint>> := map[
    "pm25" := Pm25Bands,
    "pm10" := Pm10Bands,
    "no2" := No2Bands,
    "o3" := O3Bands,
    "so2" := So2Bands,
    "co" := CoBands
  ]

  /** `AQI_CATEGORIES`: each label keyed by the lowest AQI it covers. */
  const AqiCategories: map<int, string> := map[
    0 := "Good",
    51 := "Moderate",
    101 := "Unhealthy for Sensitive Groups",
    151 := "Unhealthy",
    201 := "Very Unhealthy",
    301 := "Hazardous"
  ]

  /** The six labels from least to most severe. */
  const CategoryLabels: seq<string> := [
    "Good", "Moderate", "Unhealthy for Sensitive Groups", "Unhealthy", "Very Unhealthy", "Hazardous"
  ]

  /** A table whose rows have a proper concentration range, AQI bounds inside [0, 500], and follow each other in increasing order. */
  predicate ValidBands(bands: seq<Breakpoint>)
  {
    && (forall i :: 0 <= i < |bands| ==> bands[i].cLow < bands[i].cHigh)
    && (forall i :: 0 <= i < |bands| ==> 0 <= bands[i].aqiLow <= bands[i].aqiHigh <= 500)
    && (forall i :: 0 < i < |bands| ==> bands[i - 1].cHigh < bands[i].cLow)
  }

  lemma Pm25Valid() ensures ValidBands(Pm25Bands) {}
  lemma Pm10Valid() ensures ValidBands(Pm10Bands) {}
  lemma No2Valid() ensures ValidBands(No2Bands) {}
  lemma O3Valid() ensures ValidBands(O3Bands) {}
  lemma So2Valid() ensures ValidBands(So2Bands) {}
  lemma CoValid() ensures ValidBands(CoBands) {}

  lemma TablesValid()
    ensures forall p :: p in AqiBreakpoints ==> ValidBands(AqiBreakpoints[p])
  {
    Pm25Valid();
    Pm10Valid();
    No2Valid();
    O3Valid();
    So2Valid();
    CoValid();
  }

  /** Rows that follow each other in increasing order are pairwise disjoint, every earlier row lying below every later one. */
  lemma {:induction false} BandsOrdered(bands: seq<Breakpoint>, i: nat, j: nat)
    requires ValidBands(bands)
    requires i < j < |bands|
    ensures bands[i].cHigh < bands[j].cLow
    decreases j - i
  {
    if i + 1 < j {
      BandsOrdered(bands, i + 1, j);
    }
  }

  /** ASCII case folding, which is all `str.lower()` needs to match the table keys: a character whose
    * lower-case form is one of the keys' letters and digits is already a plain ASCII letter or digit. */
  function LowerChar(c: char): (d: char)
    ensures 'A' <= c <= 'Z' ==> d as int == c as int + 32
    ensures !('A' <= c <= 'Z') ==> d == c
  {
    if 'A' <= c <= 'Z' then (c as int + 32) as char else c
  }

  function Lower(s: string): (r: string)
    ensures |r| == |s|
    ensures forall i :: 0 <= i < |s| ==> r[i] == LowerChar(s[i])
  {
    seq(|s|, i requires 0 <= i < |s| => LowerChar(s[i]))
  }

  /** The interpolation formula of one row. */
  function Interpolate(b: Breakpoint, c: real): real
    requires b.cLow < b.cHigh
  {
    ((b.aqiHigh - b.aqiLow) as real / (b.cHigh - b.cLow)) * (c - b.cLow) + b.aqiLow as real
  }

  /** Inside its row's concentration range the formula stays inside the row's AQI range. */
  lemma InterpolateWithin(b: Breakpoint, c: real)
    requires b.cLow < b.cHigh && b.aqiLow <= b.aqiHigh
    requires b.cLow <= c <= b.cHigh
    ensures b.aqiLow as real <= Interpolate(b, c) <= b.aqiHigh as real
  {
    var span := b.cHigh - b.cLow;
    var slope := (b.aqiHigh - b.aqiLow) as real / span;
    var t := c - b.cLow;
    assert 0.0 <= t <= span;
    assert slope >= 0.0;
    assert slope * t <= slope * span by {
      assert slope * (span - t) >= 0.0;
    }
    assert slope * span == (b.aqiHigh - b.aqiLow) as real;
  }

  /** The `for` loop of `calculate_aqi` as a recursion: the first row containing `c` decides; past every row, 500. */
  function ScanBands(bands: seq<Breakpoint>, c: real): (r: int)
    requires ValidBands(bands)
    ensures 0 <= r <= 500
  {
    if |bands| == 0 then 500
    else if bands[0].cLow <= c <= bands[0].cHigh then
      InterpolateWithin(bands[0], c);
      RoundBetween(Interpolate(bands[0], c), bands[0].aqiLow, bands[0].aqiHigh);
      Round(Interpolate(bands[0], c))
    else
      assert ValidBands(bands[1..]) by {
        forall i | 0 < i < |bands[1..]|
          ensures bands[1..][i - 1].cHigh < bands[1..][i].cLow
        {
          assert bands[1..][i - 1] == bands[i] && bands[1..][i] == bands[i + 1];
        }
      }
      ScanBands(bands[1..], c)
  }

  /** What `calculate_aqi` returns for a concentration (`None` when absent) and a pollutant name. */
  function AqiOf(concentration: Option<real>, pollutant: string): (r: Option<int>)
    ensures concentration.None? || concentration.value < 0.0 ==> r == None
    ensures Lower(pollutant) !in AqiBreakpoints ==> r == None
    ensures concentration.Some? && concentration.value >= 0.0 && Lower(pollutant) in AqiBreakpoints ==> r.Some?
    ensures r.Some? ==> 0 <= r.value <= 500
  {
    if concentration.None? || concentration.value < 0.0 then None
    else
      var p := Lower(pollutant);
      if p !in AqiBreakpoints then None
      else
        TablesValid();
        Some(ScanBands(AqiBreakpoints[p], concentration.value))
  }

  /** `AQICalculator.calculate_aqi`: the early-return scan over the pollutant's rows. */
  method CalculateAqi(concentration: Option<real>, pollutant: string) returns (r: Option<int>)
    ensures r == AqiOf(concentration, pollutant)
  {
    if concentration.None? || concentration.value < 0.0 {
      return None;
    }
    var p := Lower(pollutant);
    if p !in AqiBreakpoints {
      return None;
    }
    TablesValid();
    var aqi := ScanTable(AqiBreakpoints[p], concentration.value);
    return Some(aqi);
  }

  /** The `for` loop of `calculate_aqi`: the first row containing `c` returns its rounded interpolation. */
  method ScanTable(breakpoints: seq<Breakpoint>, c: real) returns (r: int)
    requires ValidBands(breakpoints)
    ensures r == ScanBands(breakpoints, c)
  {
    var i := 0;
    while i < |breakpoints|
      invariant 0 <= i <= |breakpoints|
      invariant ValidBands(breakpoints[i..])
      invariant ScanBands(breakpoints[i..], c) == ScanBands(breakpoints, c)
    {
      var b := breakpoints[i];
      if b.cLow <= c <= b.cHigh {
        return Round(Interpolate(b, c));
      }
      assert breakpoints[i..][1..] == breakpoints[i + 1..];
      i := i + 1;
    }
    return 500;
  }

  /** A concentration inside row `k` maps to the rounded interpolation of row `k`, which lies in that row's AQI range. */
  lemma {:induction false} ScanInBand(bands: seq<Breakpoint>, k: nat, c: real)
    requires ValidBands(bands)
    requires k < |bands| && bands[k].cLow <= c <= bands[k].cHigh
    ensures ScanBands(bands, c) == Round(Interpolate(bands[k], c))
    ensures bands[k].aqiLow <= ScanBands(bands, c) <= bands[k].aqiHigh
  {
    InterpolateWithin(bands[k], c);
    RoundBetween(Interpolate(bands[k], c), bands[k].aqiLow, bands[k].aqiHigh);
    if k > 0 {
      BandsOrdered(bands, 0, k);
      assert ValidBands(bands[1..]) by {
        forall i | 0 < i < |bands[1..]|
          ensures bands[1..][i - 1].cHigh < bands[1..][i].cLow
        {
          assert bands[1..][i - 1] == bands[i] && bands[1..][i] == bands[i + 1];
        }
      }
      ScanInBand(bands[1..], k - 1, c);
    }
  }

  /** A concentration in no row, above the last one or in a gap between two, maps to 500. */
  lemma {:induction false} ScanOutsideBands(bands: seq<Breakpoint>, c: real)
    requires ValidBands(bands)
    requires forall i :: 0 <= i < |bands| ==> !(bands[i].cLow <= c <= bands[i].cHigh)
    ensures ScanBands(bands, c) == 500
  {
    if |bands| > 0 {
      assert ValidBands(bands[1..]) by {
        forall i | 0 < i < |bands[1..]|
          ensures bands[1..][i - 1].cHigh < bands[1..][i].cLow
        {
          assert bands[1..][i - 1] == bands[i] && bands[1..][i] == bands[i + 1];
        }
      }
      assert forall i :: 0 <= i < |bands[1..]| ==> bands[1..][i] == bands[i + 1];
      ScanOutsideBands(bands[1..], c);
    }
  }

  /** `calculate_aqi` on a valid concentration inside row `k` of the pollutant's table. */
  lemma AqiInBand(concentration: real, pollutant: string, k: nat)
    requires concentration >= 0.0
    requires Lower(pollutant) in AqiBreakpoints
    requires k < |AqiBreakpoints[Lower(pollutant)]|
    requires AqiBreakpoints[Lower(pollutant)][k].cLow <= concentration <= AqiBreakpoints[Lower(pollutant)][k].cHigh
    ensures var b := AqiBreakpoints[Lower(pollutant)][k];
      && AqiOf(Some(concentration), pollutant) == Some(Round(Interpolate(b, concentration)))
      && b.aqiLow <= AqiOf(Some(concentration), pollutant).value <= b.aqiHigh
  {
    TablesValid();
    ScanInBand(AqiBreakpoints[Lower(pollutant)], k, concentration);
  }

  /** `calculate_aqi` on a valid concentration that no row of the pollutant's table contains. */
  lemma AqiOutsideBands(concentration: real, pollutant: string)
    requires concentration >= 0.0
    requires Lower(pollutant) in AqiBreakpoints
    requires forall b :: b in AqiBreakpoints[Lower(pollutant)] ==> !(b.cLow <= concentration <= b.cHigh)
    ensures AqiOf(Some(concentration), pollutant) == Some(500)
  {
    TablesValid();
    var bands := AqiBreakpoints[Lower(pollutant)];
    assert forall i :: 0 <= i < |bands| ==> bands[i] in bands;
    ScanOutsideBands(bands, concentration);
  }

  /** The values the PM2.5 unit test expects inside the first row of the table, its upper endpoint included. */
  lemma Pm25TestVectors()
    ensures AqiOf(Some(10.0), "pm25") == Some(42)
    ensures AqiOf(Some(12.0), "pm25") == Some(50)
  {
    assert Lower("pm25") == "pm25";
    AqiInBand(10.0, "pm25", 0);
    AqiInBand(12.0, "pm25", 0);
    assert Interpolate(Pm25Bands[0], 10.0) == 500.0 / 12.0;
    assert Interpolate(Pm25Bands[0], 12.0) == 50.0;
    RoundOfInt(50);
  }

  /** The value the ozone unit test expects inside the first row of the ozone table. */
  lemma O3TestVector()
    ensures AqiOf(Some(30.0), "o3") == Some(28)
  {
    assert Lower("o3") == "o3";
    AqiInBand(30.0, "o3", 0);
    assert Interpolate(O3Bands[0], 30.0) == 1500.0 / 54.0;
  }

  /** `calculate_aqi` for "pm25" is the scan of the PM2.5 table. */
  lemma Pm25Table(c: real)
    requires c >= 0.0
    ensures ValidBands(Pm25Bands) && AqiOf(Some(c), "pm25") == Some(ScanBands(Pm25Bands, c))
  {
    assert Lower("pm25") == "pm25";
    TablesValid();
  }

  /** The edge cases of the PM2.5 test: zero maps to 0, and a concentration above the last row maps to 500. */
  lemma EdgeCaseVectors()
    ensures AqiOf(Some(0.0), "pm25") == Some(0)
    ensures AqiOf(Some(1000.0), "pm25") == Some(500)
  {
    assert Lower("pm25") == "pm25";
    AqiInBand(0.0, "pm25", 0);
    assert Interpolate(Pm25Bands[0], 0.0) == 0.0;
    RoundOfInt(0);
    Pm25Table(1000.0);
    Pm25Valid();
    ScanOutsideBands(Pm25Bands, 1000.0);
  }

  /** PM2.5 values on either side of the first two row boundaries, including one in the gap between rows. */
  lemma Pm25BoundaryVectors()
    ensures AqiOf(Some(12.05), "pm25") == Some(500)
    ensures AqiOf(Some(12.1), "pm25") == Some(51)
    ensures AqiOf(Some(35.4), "pm25") == Some(100)
    ensures AqiOf(Some(35.5), "pm25") == Some(101)
  {
    Pm25Valid();
    Pm25Table(12.05);
    ScanOutsideBands(Pm25Bands, 12.05);
    Pm25Table(12.1);
    ScanInBand(Pm25Bands, 1, 12.1);
    assert Interpolate(Pm25Bands[1], 12.1) == 51.0;
    RoundOfInt(51);
    Pm25Table(35.4);
    ScanInBand(Pm25Bands, 1, 35.4);
    assert Interpolate(Pm25Bands[1], 35.4) == 100.0;
    RoundOfInt(100);
    Pm25Table(35.5);
    ScanInBand(Pm25Bands, 2, 35.5);
    assert Interpolate(Pm25Bands[2], 35.5) == 101.0;
    RoundOfInt(101);
  }

  /** Inside the second PM2.5 row the interpolation is not a round number: 25.0 maps to 78. */
  lemma Pm25InteriorVector()
    ensures AqiOf(Some(25.0), "pm25") == Some(78)
  {
    Pm25Valid();
    Pm25Table(25.0);
    ScanInBand(Pm25Bands, 1, 25.0);
    assert Interpolate(Pm25Bands[1], 25.0) == 49.0 / 23.3 * 12.9 + 51.0;
  }

  /** Unknown pollutants, negative concentrations and missing readings have no AQI. */
  lemma InvalidInputVectors()
    ensures AqiOf(Some(25.0), "invalid") == None
    ensures AqiOf(Some(-5.0), "pm25") == None
    ensures AqiOf(None, "pm25") == None
  {
    assert Lower("invalid") == "invalid";
  }

  /** The PM10 values of the unit tests: 30.0 maps to 28 and the top of the first row, 54.0, to 50. */
  lemma Pm10TestVectors()
    ensures AqiOf(Some(30.0), "pm10") == Some(28)
    ensures AqiOf(Some(54.0), "pm10") == Some(50)
  {
    assert Lower("pm10") == "pm10";
    AqiInBand(30.0, "pm10", 0);
    AqiInBand(54.0, "pm10", 0);
    assert Interpolate(Pm10Bands[0], 30.0) == 1500.0 / 54.0;
    assert Interpolate(Pm10Bands[0], 54.0) == 50.0;
    RoundOfInt(50);
  }

  /** `get_aqi_category`: the if-chain over the upper bounds 50, 100, 150, 200 and 300. */
  function Category(aqi: int): (name: string)
    ensures name in CategoryLabels
  {
    if aqi <= 50 then AqiCategories[0]
    else if aqi <= 100 then AqiCategories[51]
    else if aqi <= 150 then AqiCategories[101]
    else if aqi <= 200 then AqiCategories[151]
    else if aqi <= 300 then AqiCategories[201]
    else AqiCategories[301]
  }

  /** Position of a label in `CategoryLabels`, from least to most severe; -1 for any other string. */
  function Severity(name: string): (r: int)
    ensures -1 <= r < |CategoryLabels|
    ensures r >= 0 ==> CategoryLabels[r] == name
    ensures r == -1 <==> name !in CategoryLabels
  {
    if name == CategoryLabels[0] then 0
    else if name == CategoryLabels[1] then 1
    else if name == CategoryLabels[2] then 2
    else if name == CategoryLabels[3] then 3
    else if name == CategoryLabels[4] then 4
    else if name == CategoryLabels[5] then 5
    else -1
  }

  /** A higher AQI never gets a less severe category. */
  lemma CategoryMonotone(a: int, b: int)
    requires a <= b
    ensures 0 <= Severity(Category(a)) <= Severity(Category(b))
  {
  }

  /** The if-chain agrees with the keys of `AQI_CATEGORIES`: an integer AQI gets the label of the largest key not above it
    * (key 0 when the AQI is negative). */
  lemma CategoryFromLowerBound(aqi: int, k: int)
    requires k in AqiCategories
    requires k <= aqi || k == 0
    requires forall k' :: k' in AqiCategories && k' <= aqi ==> k' <= k
    ensures Category(aqi) == AqiCategories[k]
  {
    assert 0 in AqiCategories && 51 in AqiCategories && 101 in AqiCategories;
    assert 151 in AqiCategories && 201 in AqiCategories && 301 in AqiCategories;
    assert AqiCategories.Keys == {0, 51, 101, 151, 201, 301};
  }

  /** The boundary values on both sides of every cut-off, and the unit tests' values. */
  lemma CategoryTestVectors()
    ensures Category(0) == "Good" && Category(50) == "Good" && Category(51) == "Moderate"
    ensures Category(100) == "Moderate" && Category(101) == "Unhealthy for Sensitive Groups"
    ensures Category(150) == "Unhealthy for Sensitive Groups" && Category(151) == "Unhealthy"
    ensures Category(200) == "Unhealthy" && Category(201) == "Very Unhealthy"
    ensures Category(300) == "Very Unhealthy" && Category(301) == "Hazardous" && Category(500) == "Hazardous"
    ensures Category(25) == "Good" && Category(75) == "Moderate" && Category(125) == "Unhealthy for Sensitive Groups"
    ensures Category(175) == "Unhealthy" && Category(250) == "Very Unhealthy" && Category(400) == "Hazardous"
  {
  }

  /** `is_alert_threshold_exceeded`. */
  function AlertThresholdExceeded(aqi: int, threshold: int): bool
  {
    aqi > threshold
  }

  /** The alert test is strict: reaching the threshold is not enough, one more is; and a higher AQI stays over it. */
  lemma AlertThresholdStrict(aqi: int, higher: int, threshold: int)
    requires aqi <= higher
    ensures !AlertThresholdExceeded(threshold, threshold)
    ensures AlertThresholdExceeded(threshold + 1, threshold)
    ensures AlertThresholdExceeded(aqi, threshold) ==> AlertThresholdExceeded(higher, threshold)
    ensures !AlertThresholdExceeded(75, 100) && AlertThresholdExceeded(125, 100)
    ensures !AlertThresholdExceeded(100, 100) && AlertThresholdExceeded(101, 100)
  {
  }

  /** Python's `max(d.values())` on a non-empty dictionary. */
  method MaxValue(m: map<string, int>) returns (r: int)
    requires m != map[]
    ensures r in m.Values
    ensures forall k :: k in m ==> m[k] <= r
  {
    var k0 :| k0 in m;
    r := m[k0];
    var rest := m.Keys - {k0};
    while rest != {}
      invariant rest <= m.Keys
      invariant r in m.Values
      invariant forall k :: k in m && k !in rest ==> m[k] <= r
      decreases rest
    {
      var k :| k in rest;
      if m[k] > r {
        r := m[k];
      }
      rest := rest - {k};
    }
  }

  /** `calculate_daily_aqi`. The dictionary is visited in an arbitrary order, so the result is shown not to depend on
    * Python's insertion order. */
  method CalculateDailyAqi(measurements: map<string, Option<real>>) returns (daily: Option<int>, category: string, breakdown: map<string, int>)
    ensures forall p :: p in breakdown <==> p in measurements && AqiOf(measurements[p], p).Some?
    ensures forall p :: p in breakdown ==> AqiOf(measurements[p], p) == Some(breakdown[p])
    ensures daily.None? <==> breakdown == map[]
    ensures daily.None? ==> category == "Unknown"
    ensures daily.Some? ==> daily.value in breakdown.Values && category == Category(daily.value)
    ensures daily.Some? ==> forall p :: p in breakdown ==> breakdown[p] <= daily.value
  {
    var aqiValues: map<string, int> := map[];
    breakdown := map[];
    var rest := measurements.Keys;
    while rest != {}
      invariant rest <= measurements.Keys
      invariant aqiValues == breakdown
      invariant forall p :: p in breakdown <==> p in measurements && p !in rest && AqiOf(measurements[p], p).Some?
      invariant forall p :: p in breakdown ==> AqiOf(measurements[p], p) == Some(breakdown[p])
      decreases rest
    {
      var pollutant :| pollutant in rest;
      var aqi := CalculateAqi(measurements[pollutant], pollutant);
      if aqi.Some? {
        aqiValues := aqiValues[pollutant := aqi.value];
        breakdown := breakdown[pollutant := aqi.value];
      }
      rest := rest - {pollutant};
    }
    if aqiValues == map[] {
      return None, "Unknown", map[];
    }
    var m := MaxValue(aqiValues);
    daily := Some(m);
    category := Category(m);
  }
}
