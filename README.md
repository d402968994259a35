# Air-quality index and offline AQI forecasting, modelled in Dafny

This project models the numerical core of an air-pollution backend. It has two parts.

1. **The EPA AQI calculator** (`Aqi`).
   - Each pollutant has a table of breakpoint bands: concentration low/high and AQI low/high.
   - A concentration is interpolated linearly inside the band that contains it and then rounded.
   - A concentration outside every band gives 500.
   - A missing or negative concentration, or an unknown pollutant, gives no AQI.
   - The daily AQI is the largest of the pollutants' AQIs, together with the per-pollutant breakdown.
   - A six-step chain of cut-offs names the category.
   - The alert test is a strict comparison.

2. **The offline forecasters.** Each one turns a history of AQI readings into `forecast_days` prediction records. A record holds a date, an AQI clamped to [0, 500], the category of that AQI, and optional confidence bands.
   - The five point forecasters:
     - `LinearRegression`: an ordinary least-squares line;
     - `MovingAverage`: a valid-mode moving average and its trend;
     - `ExponentialSmoothing`: α = 0.3 and the trend of the last step;
     - `SeasonalDecomposition`: per-weekday means, a trend, and the moving average for short input;
     - `Arima`: a moving-average trend plus a 14-day weekly term.
   - Their shared base (`BaseModel`).
   - The positional weighted `Ensemble` of the first four forecasters.
   - The `ForecastingService`, which dispatches by method name, adds confidence bands and builds the metadata.
   - The `TimeGptService` array parser and fallback forecaster.

Modelling conventions:
- Numbers are exact `real`s. Python's `round` is the half-to-even `Numeric.Round`.
- `numpy.mean` and `numpy.convolve(..., 'valid')` are explicit sums over slices (`Numeric.Mean`, `Numeric.MovingAverages`).
- A date is a proleptic day number:
  - day `today + 1 + i` is the `i`-th forecast date;
  - `BaseModel.Weekday` is Python's `weekday()` for that day number.
- The clock is the parameter `today`.
- `range(forecast_days)` with a negative count is empty, so the horizon is `Numeric.Horizon(days)` = max(0, days).

Computations the source writes as loops are Dafny methods. Most are proved equal to a specification function:
- `CalculateAqi`/`ScanTable`;
- `PrepareData`;
- each model's prediction loop;
- the ensemble's collection and combination loops;
- the service's band loop over an array;
- the response parser.

Two loops draw random numbers, so no function can give their result. They are proved to meet a per-record predicate instead:
- `TimeGptService.FallbackLoop` meets `FallbackRecord`: each AQI is a ±10% variation of its base;
- `ForecastingService.DefaultForecast` meets `DefaultRecord`: each AQI is 60 plus an integer in [-15, 25].

`CalculateDailyAqi` is specified by the properties of its result: the exact breakdown, the maximum and its category.

The lemmas state what the source promises about those functions.

## Model

| member | source | states |
|---|---|---|
| Numeric.Round | backend/services/aqi.py:97 | The result is within 0.5 of x, and an exact tie goes to the even neighbour (Python's `round`) |
| Numeric.RoundMonotone | backend/services/aqi.py:95-97 | Rounding preserves order |
| Numeric.RoundBetween | backend/services/aqi.py:95-97 | A value between two integers rounds to a value between them |
| Numeric.ClampAqi | backend/forecasting/models/linear_regression.py:43 | `max(0, min(500, v))`: the identity on [0, 500], 0 below it, 500 above it |
| Numeric.ClampRound | backend/forecasting/models/linear_regression.py:43 | Rounding then clamping always lands in [0, 500] |
| Numeric.ClampRoundMonotone | backend/forecasting/models/linear_regression.py:43 | Rounding then clamping preserves order |
| Numeric.Horizon | backend/forecasting/models/linear_regression.py:40 | The number of iterations of `range(forecast_days)`: days when it is non-negative, else 0 |
| Numeric.Extrapolate | backend/forecasting/models/moving_average.py:41 | Definition of the step `base + trend·(i+1)`; its properties are in ExtrapolateMonotone, ExtrapolateShift and ClampedExtrapolateMonotone |
| Numeric.ExtrapolateMonotone | backend/forecasting/models/moving_average.py:40-41 | A non-negative trend gives non-decreasing unclamped values over the steps; a non-positive one gives non-increasing values |
| Numeric.ExtrapolateShift | backend/forecasting/models/arima.py:46 | k steps on, the value grows by exactly k·trend |
| Numeric.ClampedExtrapolateMonotone | backend/forecasting/models/moving_average.py:40-41 | A non-negative trend gives non-decreasing clamped forecasts over the horizon; a non-positive one gives non-increasing forecasts |
| Numeric.LastK | backend/forecasting/models/seasonal_decomposition.py:36-41 | The slice `s[-k:]` for k >= 1 (every call takes k = 7; at k = 0 it is empty, unlike `s[-0:]`): its length is min(k, \|s\|) and it holds the last elements in order |
| Numeric.FirstK | backend/forecasting/models/seasonal_decomposition.py:36 | The slice `s[:k]`: its length is min(k, \|s\|) and it holds the first elements in order |
| Numeric.MovingAverages | backend/forecasting/models/moving_average.py:27 | `np.convolve(x, ones(w)/w, 'valid')`: n-w+1 entries, where entry j is the mean of x[j..j+w] |
| Numeric.Mean | backend/forecasting/models/ensemble.py:79 | Definition of `np.mean` as the sum over the length; its properties are in MeanWithin and MeanConstant |
| Numeric.MeanWithin | backend/forecasting/models/ensemble.py:79 | The mean of values inside [lo, hi] is inside [lo, hi] |
| Numeric.MeanConstant | backend/forecasting/models/ensemble.py:79 | The mean of a constant series is that constant |
| Numeric.MovingAveragesConstant | backend/forecasting/models/moving_average.py:27 | The moving averages of a constant series are all that constant |
| Aqi.TablesValid | backend/services/aqi.py:12-61 | Every pollutant table's bands are proper (c_low < c_high, aqi_low <= aqi_high, within [0, 500]) and ordered with gaps between them |
| Aqi.BandsOrdered | backend/services/aqi.py:12-61 | In a valid table an earlier band ends below the start of every later band |
| Aqi.Lower | backend/services/aqi.py:87 | `str.lower` on ASCII: the same length, with each upper-case letter mapped to its lower-case letter |
| Aqi.Interpolate | backend/services/aqi.py:96 | Definition of the band interpolation; its properties are in InterpolateWithin, ScanInBand and AqiInBand |
| Aqi.InterpolateWithin | backend/services/aqi.py:95-96 | Interpolating inside a band gives a value between the band's AQI bounds |
| Aqi.ScanBands | backend/services/aqi.py:93-100 | The first-match scan over a valid table always yields an AQI in [0, 500] |
| Aqi.AqiOf | backend/services/aqi.py:84-100 | No AQI for a None or negative concentration or an unknown pollutant name (after lower-casing); otherwise an AQI in [0, 500] |
| Aqi.CalculateAqi | backend/services/aqi.py:73-100 | The method's result equals AqiOf |
| Aqi.ScanTable | backend/services/aqi.py:93-100 | The early-return loop over the bands equals the first-match scan ScanBands |
| Aqi.ScanInBand | backend/services/aqi.py:93-97 | A concentration inside band k gives the rounded interpolation in band k, which lies in [aqi_low, aqi_high] |
| Aqi.ScanOutsideBands | backend/services/aqi.py:99-100 | A concentration inside no band gives 500 |
| Aqi.AqiInBand | backend/services/aqi.py:84-97 | For a known pollutant, a valid concentration in band k gives the rounded interpolation, bounded by the band's AQI range |
| Aqi.AqiOutsideBands | backend/services/aqi.py:93-100 | A concentration above every band, or in a gap between bands, gives 500 |
| Aqi.Pm25Table | backend/services/aqi.py:86-93 | For any valid pm25 concentration the AQI is the scan of the pm25 table |
| Aqi.Pm25TestVectors | backend/tests/test_aqi.py:14-15 | pm25 10.0 → 42 and 12.0 → 50, the first row's upper endpoint |
| Aqi.O3TestVector | backend/tests/test_aqi.py:60 | o3 30.0 → 28 |
| Aqi.EdgeCaseVectors | backend/tests/test_aqi.py:117-124 | pm25 0.0 → 0, and 1000.0, above the last row, → 500 |
| Aqi.Pm25BoundaryVectors | backend/tests/test_aqi.py:127-128 | pm25 12.1 → 51, 35.4 → 100 and 35.5 → 101; 12.05 falls in the gap between bands and gives 500 |
| Aqi.Pm25InteriorVector | backend/services/aqi.py:93-97 | pm25 25.0 → 78 as the code computes it (see the note below the table) |
| Aqi.InvalidInputVectors | backend/tests/test_aqi.py:67-79 | "invalid" pollutant, -5.0 and None all give no AQI |
| Aqi.Pm10TestVectors | backend/tests/test_aqi.py:40-41 | pm10 30.0 → 28 and 54.0 → 50 |
| Aqi.Category | backend/services/aqi.py:133-146 | The label is always one of the six category labels |
| Aqi.Severity | backend/services/aqi.py:63-70 | The position of a label in the category list, and -1 exactly for a string that is not a label |
| Aqi.CategoryMonotone | backend/services/aqi.py:133-146 | A higher AQI never gets a less severe category |
| Aqi.CategoryFromLowerBound | backend/services/aqi.py:63-70 | The category is the one keyed by the greatest category lower bound not above the AQI; every AQI below 51 gets the one keyed by 0 |
| Aqi.CategoryTestVectors | backend/tests/test_aqi.py:101-108 | The cut-offs 50/51, 100/101, 150/151, 200/201 and 300/301, plus the test's six sample values |
| Aqi.AlertThresholdExceeded | backend/services/aqi.py:149-151 | Definition of the alert test; its properties are in AlertThresholdStrict |
| Aqi.AlertThresholdStrict | backend/services/aqi.py:149-151 | Strictness: equal to the threshold is not exceeded, one above it is; exceeding is monotone in the AQI; the test's vectors 75/125/100/101 against 100 |
| Aqi.MaxValue | backend/services/aqi.py:127 | `max(aqi_values.values())`: a value present in the map that is at least every value |
| Aqi.CalculateDailyAqi | backend/services/aqi.py:103-130 | The breakdown holds exactly the pollutants with an AQI, each with that AQI. With none: (None, "Unknown", {}). Otherwise the daily AQI is their maximum, with its category |
| BaseModel.AqiValues | backend/forecasting/models/base_model.py:37-44 | The extracted series is never longer than the input |
| BaseModel.AqiValuesConcat | backend/forecasting/models/base_model.py:40-43 | Extraction distributes over concatenation, so the order of the input is kept |
| BaseModel.AqiValuesSingle | backend/forecasting/models/base_model.py:41-43 | One point contributes its `aqi` exactly when that is not None |
| BaseModel.AqiValuesAllPresent | backend/forecasting/models/base_model.py:40-44 | When every point has an `aqi`, the result is the pointwise map of `aqi` |
| BaseModel.PrepareData | backend/forecasting/models/base_model.py:37-44 | The append loop equals AqiValues |
| BaseModel.Weekday | backend/forecasting/models/seasonal_decomposition.py:45-46 | A weekday is in [0, 7) |
| BaseModel.ModerateDefault | backend/forecasting/models/linear_regression.py:66-79 | `forecast_days` records, dated from tomorrow, each 75/"Moderate" |
| BaseModel.DefaultForecast | backend/forecasting/models/linear_regression.py:66-79 | The append loop equals ModerateDefault |
| BaseModel.Extrapolated | backend/forecasting/models/moving_average.py:40-49 | Level plus trend·(i+1), clamped: `forecast_days` records dated from tomorrow, in [0, 500], each categorised by its own AQI |
| BaseModel.ExtrapolatedForecast | backend/forecasting/models/moving_average.py:40-49 | The prediction loop equals Extrapolated |
| LinearRegression.Predictions | backend/forecasting/models/linear_regression.py:14-52 | The result has the forecast shape: `forecast_days` records, dated from tomorrow, in [0, 500], each categorised by its AQI |
| LinearRegression.Forecast | backend/forecasting/models/linear_regression.py:12-52 | The method's result equals Predictions on the extracted series |
| LinearRegression.ShortSeries | backend/forecasting/models/linear_regression.py:16-17 | Fewer than 3 values give the 75/"Moderate" default |
| LinearRegression.DenominatorPositive | backend/forecasting/models/linear_regression.py:28-31 | From 2 values on, the sum of squared index deviations is positive, so the zero-denominator default never fires once `forecast` gets past its length check |
| LinearRegression.Numerator | backend/forecasting/models/linear_regression.py:27 | Definition of the sum of cross deviations; its properties are in LeastSquares and LinearSeriesFit |
| LinearRegression.Denominator | backend/forecasting/models/linear_regression.py:28 | Definition of the sum of squared index deviations; its properties are in DenominatorPositive and LinearSeriesFit |
| LinearRegression.Slope | backend/forecasting/models/linear_regression.py:27-33 | Definition of the OLS slope; its properties are in LeastSquares and LinearSeriesFit |
| LinearRegression.Intercept | backend/forecasting/models/linear_regression.py:34 | Definition of the OLS intercept; its properties are in LeastSquares and LinearSeriesFit |
| LinearRegression.LinePoint | backend/forecasting/models/linear_regression.py:41-42 | Definition of `slope·(n+i) + intercept`; its properties are in LinearSeriesForecast and ConstantSeries |
| LinearRegression.LeastSquares | backend/forecasting/models/linear_regression.py:20-34 | The fitted line's residuals sum to 0 and are orthogonal to the indices: these are the normal equations of the least-squares fit against 0..n-1 |
| LinearRegression.LinearSeriesFit | backend/forecasting/models/linear_regression.py:27-34 | Values lying exactly on a + b·i give slope b and intercept a |
| LinearRegression.LinearSeriesForecast | backend/forecasting/models/linear_regression.py:40-43 | A series exactly on a line is extended along it: prediction i is clamp(round(b·(n+i) + a)) |
| LinearRegression.ConstantSeries | backend/forecasting/models/linear_regression.py:27-43 | A constant series v predicts clamp(round(v)) on every day |
| MovingAverage.Window | backend/forecasting/models/moving_average.py:23-24 | max(3, min(7, n // 2)) by cases: 3 when n // 2 < 3, n // 2 when it lies in [3, 7], 7 when n // 2 >= 7; hence in [3, 7] and at most n once n >= 3 |
| MovingAverage.Averages | backend/forecasting/models/moving_average.py:27 | The moving-average array is non-empty, with n - window + 1 entries |
| MovingAverage.Trend | backend/forecasting/models/moving_average.py:30-33 | Definition of `(ma[-1]-ma[0])/len(ma)`, 0 for one entry; its properties are in FromWindowMeans and FollowsTrend |
| MovingAverage.LastOrMean | backend/forecasting/models/moving_average.py:38 | Definition of `ma[-1] if len(ma) > 0 else np.mean(aqi_values)`; its properties are in LevelIsLastAverage |
| MovingAverage.Level | backend/forecasting/models/moving_average.py:38 | Definition of `last_ma` on the series's own averages; its properties are in LevelIsLastAverage, FromWindowMeans and LevelWithinRange |
| MovingAverage.LevelIsLastAverage | backend/forecasting/models/moving_average.py:38 | Every accepted series has a non-empty `ma`, so `last_ma` is always `ma[-1]` and the `np.mean` fallback is never taken |
| MovingAverage.Predictions | backend/forecasting/models/moving_average.py:15-51 | The result has the forecast shape |
| MovingAverage.Forecast | backend/forecasting/models/moving_average.py:15-51 | The method's result equals Predictions on the extracted series |
| MovingAverage.ShortSeries | backend/forecasting/models/moving_average.py:19-20 | Fewer than 3 values give the 75/"Moderate" default |
| MovingAverage.FromWindowMeans | backend/forecasting/models/moving_average.py:27-41 | The level is the mean of the last window and the trend is (mean of last window - mean of first window) / len(ma), or 0 for a single average; the forecast extrapolates the level with that trend |
| MovingAverage.LevelWithinRange | backend/forecasting/models/moving_average.py:38 | The level lies within the range of the input |
| MovingAverage.FollowsTrend | backend/forecasting/models/moving_average.py:30-41 | When ma[-1] >= ma[0] the forecasts do not decrease over the horizon; when ma[-1] <= ma[0] they do not increase |
| MovingAverage.ConstantSeries | backend/forecasting/models/moving_average.py:27-41 | A constant series v predicts clamp(round(v)) on every day |
| MovingAverage.ThreeValues | backend/forecasting/models/moving_average.py:19 | The declared minimum of 5 exceeds what `forecast` accepts: 3 values already forecast, flat at their mean |
| ExponentialSmoothing.Smoothed | backend/forecasting/models/exponential_smoothing.py:23-26 | smoothed has length n, smoothed[0] = x[0], and smoothed[i] = α·x[i] + (1-α)·smoothed[i-1] |
| ExponentialSmoothing.Smooth | backend/forecasting/models/exponential_smoothing.py:23-26 | The recurrence loop equals Smoothed |
| ExponentialSmoothing.Trend | backend/forecasting/models/exponential_smoothing.py:29-32 | Definition of `s[-1]-s[-2]`, 0 for one entry; its properties are in TrendOfLastStep and FollowsLastObservation |
| ExponentialSmoothing.Predictions | backend/forecasting/models/exponential_smoothing.py:15-50 | The result has the forecast shape |
| ExponentialSmoothing.Forecast | backend/forecasting/models/exponential_smoothing.py:15-50 | The method's result equals Predictions on the extracted series |
| ExponentialSmoothing.StepWithin | backend/forecasting/models/exponential_smoothing.py:25 | For α in [0, 1], one smoothing step stays between bounds that hold for both the observation and the previous value |
| ExponentialSmoothing.SmoothedWithin | backend/forecasting/models/exponential_smoothing.py:12-13 | For α in [0, 1], every smoothed value stays within the bounds of the input |
| ExponentialSmoothing.SmoothedConstant | backend/forecasting/models/exponential_smoothing.py:23-26 | Smoothing a constant series yields that constant throughout |
| ExponentialSmoothing.TrendOfLastStep | backend/forecasting/models/exponential_smoothing.py:29-32 | The trend smoothed[-1] - smoothed[-2] is α·(x[-1] - smoothed[-2]) |
| ExponentialSmoothing.FollowsLastObservation | backend/forecasting/models/exponential_smoothing.py:29-41 | Forecasts do not decrease when the last observation is at or above the previous smoothed value, and do not increase when it is at or below it |
| ExponentialSmoothing.ShortSeries | backend/forecasting/models/exponential_smoothing.py:19-20 | Fewer than 3 values give the 75/"Moderate" default |
| ExponentialSmoothing.ConstantSeries | backend/forecasting/models/exponential_smoothing.py:23-41 | A constant series v predicts clamp(round(v)) on every day |
| SeasonalDecomposition.DayValues | backend/forecasting/models/seasonal_decomposition.py:29 | `values[day::7]` has ceil((n - day) / 7) elements |
| SeasonalDecomposition.DayValuesExact | backend/forecasting/models/seasonal_decomposition.py:29 | Element k is values[day + 7k], and every index congruent to day (mod 7) appears |
| SeasonalDecomposition.SeasonalComponent | backend/forecasting/models/seasonal_decomposition.py:26-33 | Seven entries; entry d is the mean of values[d::7], or the overall mean when that slice is empty |
| SeasonalDecomposition.SeasonalMeans | backend/forecasting/models/seasonal_decomposition.py:26-33 | The append loop equals SeasonalComponent |
| SeasonalDecomposition.Trend | backend/forecasting/models/seasonal_decomposition.py:36 | Definition of `(mean(y[-7:])-mean(y[:7]))/len(y)`; its properties are in WeeklyPeriod and ConstantLevel |
| SeasonalDecomposition.Base | backend/forecasting/models/seasonal_decomposition.py:41 | Definition of `mean(y[-7:])`; its properties are in ConstantLevel |
| SeasonalDecomposition.Deviation | backend/forecasting/models/seasonal_decomposition.py:46-48 | Definition of `seasonal_component[p] - mean(seasonal_component)`; its properties are in DeviationsCancel and ConstantComponent |
| SeasonalDecomposition.SeasonalPoint | backend/forecasting/models/seasonal_decomposition.py:48 | Definition of `base + trend·(i+1) + deviation`; its properties are in WeeklyPeriod and ConstantSeries |
| SeasonalDecomposition.Position | backend/forecasting/models/seasonal_decomposition.py:45-46 | The forecast date's weekday mod the season length is a valid index |
| SeasonalDecomposition.SeasonalRecords | backend/forecasting/models/seasonal_decomposition.py:43-55 | The result has the forecast shape |
| SeasonalDecomposition.Predictions | backend/forecasting/models/seasonal_decomposition.py:15-57 | The result has the forecast shape |
| SeasonalDecomposition.Forecast | backend/forecasting/models/seasonal_decomposition.py:15-57 | The method's result equals Predictions on the extracted series |
| SeasonalDecomposition.SeasonalLoop | backend/forecasting/models/seasonal_decomposition.py:43-55 | The prediction loop equals SeasonalRecords |
| SeasonalDecomposition.ShortSeries | backend/forecasting/models/seasonal_decomposition.py:19-23 | Fewer than 14 values give exactly the moving-average model's forecast |
| SeasonalDecomposition.EveryPositionFilled | backend/forecasting/models/seasonal_decomposition.py:28-33 | With at least 7 values every weekday slot is non-empty, so the overall-mean fallback never fires |
| SeasonalDecomposition.DeviationsCancel | backend/forecasting/models/seasonal_decomposition.py:48 | The seven deviations seasonal[d] - mean(seasonal) sum to 0 |
| SeasonalDecomposition.WeeklyPeriod | backend/forecasting/models/seasonal_decomposition.py:41-48 | The forecast seven days on is the same weekday's forecast plus 7·trend |
| SeasonalDecomposition.ConstantComponent | backend/forecasting/models/seasonal_decomposition.py:26-33 | A constant series has a constant seasonal component |
| SeasonalDecomposition.ConstantLevel | backend/forecasting/models/seasonal_decomposition.py:36-41 | A constant series v has base v and trend 0 |
| SeasonalDecomposition.ConstantSeries | backend/forecasting/models/seasonal_decomposition.py:28-49 | A constant series v predicts clamp(round(v)) on every day |
| Arima.Window | backend/forecasting/models/arima.py:20-22 | max(3, min(7, n // 3)) by cases: 3 when n // 3 < 3, n // 3 when it lies in [3, 7], 7 when n // 3 >= 7; hence in [3, 7] and at most n once n >= 3 |
| Arima.Averages | backend/forecasting/models/arima.py:24 | The moving-average array is non-empty, with n - window + 1 entries |
| Arima.SeasonalTerm | backend/forecasting/models/arima.py:33-38 | Definition of `mean(y[-7:]) - mean(y[-14:-7])`, 0 below 14 values; its properties are in NoWeeklyTermBelowTwoWeeks and ConstantSeries |
| Arima.ArimaPoint | backend/forecasting/models/arima.py:46 | Definition of `last + trend·(i+1) + seasonal·((i+1)%7)`; its properties are in SeasonalVanishes and WeeklyPeriod |
| Arima.ArimaRecords | backend/forecasting/models/arima.py:45-54 | The result has the forecast shape |
| Arima.Predictions | backend/forecasting/models/arima.py:12-56 | The result has the forecast shape |
| Arima.Forecast | backend/forecasting/models/arima.py:12-56 | The method's result equals Predictions on the extracted series |
| Arima.ArimaLoop | backend/forecasting/models/arima.py:45-54 | The prediction loop equals ArimaRecords |
| Arima.ShortSeries | backend/forecasting/models/arima.py:16-17 | Fewer than 7 values give the 75/"Moderate" default |
| Arima.SeasonalVanishes | backend/forecasting/models/arima.py:46 | At every 7th step the seasonal term drops out, leaving last + trend·(i+1) |
| Arima.WeeklyPeriod | backend/forecasting/models/arima.py:46 | The unclamped forecast seven steps on is the current one plus 7·trend |
| Arima.NoWeeklyTermBelowTwoWeeks | backend/forecasting/models/arima.py:33-38 | With 7 to 13 values there is no seasonal term: a plain extrapolation from the last value |
| Arima.ConstantSeries | backend/forecasting/models/arima.py:24-47 | A constant series v predicts clamp(round(v)) on every day |
| Ensemble.SubForecast | backend/forecasting/models/ensemble.py:31 | Each sub-model's result has the forecast shape |
| Ensemble.Survivors | backend/forecasting/models/ensemble.py:29-35 | Exactly the sub-models that do not raise (no more of them than there are sub-models); their order is stated by SurvivorsKeepOrder, SurvivorsInOrder and SurvivorsExplicit |
| Ensemble.Rank | backend/forecasting/models/ensemble.py:17-22 | The position of each sub-model in the iteration order of `sub_models` |
| Ensemble.SurvivorsKeepOrder | backend/forecasting/models/ensemble.py:29-35 | Skipping the sub-models that raise keeps the others in their original relative order |
| Ensemble.SurvivorsInOrder | backend/forecasting/models/ensemble.py:17-35 | For every set of raising sub-models, the survivors appear in the order linear, moving average, exponential smoothing, seasonal, each at most once |
| Ensemble.SurvivorsExplicit | backend/forecasting/models/ensemble.py:17-35 | For every set of raising sub-models, the survivor list is written out: each of the four in iteration order, present exactly when it does not raise |
| Ensemble.Forecasts | backend/forecasting/models/ensemble.py:29-35 | One forecast per surviving sub-model |
| Ensemble.ForecastsSnoc | backend/forecasting/models/ensemble.py:32 | Running one more sub-model appends its forecast to the list |
| Ensemble.DayValues | backend/forecasting/models/ensemble.py:46-49 | No more of a day's values than there are forecasts |
| Ensemble.DayAqi | backend/forecasting/models/ensemble.py:51-61 | A day's combined AQI lies in [0, 500] |
| Ensemble.CombinedRecords | backend/forecasting/models/ensemble.py:45-68 | The combined result has the forecast shape |
| Ensemble.SimpleAverage | backend/forecasting/models/ensemble.py:72-96 | The simple-average fallback has the forecast shape |
| Ensemble.SimpleTrend | backend/forecasting/models/ensemble.py:80 | Definition of the fallback trend, 0 at 7 values or fewer; its properties are in FlatSimpleAverage |
| Ensemble.Predictions | backend/forecasting/models/ensemble.py:24-70 | The ensemble result has the forecast shape |
| Ensemble.RunSubModel | backend/forecasting/models/ensemble.py:31 | A sub-model call equals SubForecast on the extracted series |
| Ensemble.CollectForecasts | backend/forecasting/models/ensemble.py:26-35 | The try loop equals the forecasts of the surviving sub-models, in order |
| Ensemble.CollectDay | backend/forecasting/models/ensemble.py:46-49 | The inner loop equals DayValues |
| Ensemble.CombineDays | backend/forecasting/models/ensemble.py:43-70 | The outer loop equals CombinedRecords |
| Ensemble.SimpleAverageForecast | backend/forecasting/models/ensemble.py:72-96 | The method's result equals SimpleAverage on the extracted series |
| Ensemble.Forecast | backend/forecasting/models/ensemble.py:24-70 | The method's result equals Predictions |
| Ensemble.WeightTotalPositive | backend/forecasting/models/ensemble.py:56 | The renormalising total of a non-empty weight prefix is positive |
| Ensemble.WeightTotals | backend/forecasting/models/ensemble.py:42 | The weight prefixes sum to 0.3, 0.55, 0.8 and 1 |
| Ensemble.Combined | backend/forecasting/models/ensemble.py:53-57 | Definition of the weighted, renormalised day value; its properties are in CombinedExplicit, CombinedWithin and CombinedConstant |
| Ensemble.CombinedExplicit | backend/forecasting/models/ensemble.py:53-57 | The combination written out for 1, 2, 3 and at least 4 values: the j-th value gets weight j, renormalised when fewer than four are present; only the first four count when more are present |
| Ensemble.CombinedWithin | backend/forecasting/models/ensemble.py:53-57 | The weighted AQI lies between bounds that hold for every combined value |
| Ensemble.CombinedConstant | backend/forecasting/models/ensemble.py:51-59 | When all of a day's values equal v, the weighted AQI is v |
| Ensemble.DayValuesFull | backend/forecasting/models/ensemble.py:46-49 | When every forecast covers day i, the day's values are their i-th predictions, in order |
| Ensemble.PositionalWeights | backend/forecasting/models/ensemble.py:42-57 | The weights go by position among the survivors, not by sub-model name |
| Ensemble.SurvivorsWithoutLinear | backend/forecasting/models/ensemble.py:17-35 | When only the linear model raises, the survivors are moving average, exponential smoothing and seasonal, in that order |
| Ensemble.LinearModelFails | backend/forecasting/models/ensemble.py:42-57 | When only the linear model raises, the moving-average forecast takes the first weight, 0.3 |
| Ensemble.SurvivorsNone | backend/forecasting/models/ensemble.py:29-35 | When every sub-model raises, none survives |
| Ensemble.AllFail | backend/forecasting/models/ensemble.py:37-39 | When every sub-model raises, the result is the simple-average forecast |
| Ensemble.EveryDayCovered | backend/forecasting/models/ensemble.py:45-61 | With at least one survivor every day has a value, so the 75 of an uncovered day never appears |
| Ensemble.EmptySimpleAverage | backend/forecasting/models/ensemble.py:76-77 | The simple average of no values is the 75/"Moderate" default |
| Ensemble.FlatSimpleAverage | backend/forecasting/models/ensemble.py:79-87 | With 1 to 7 values the trend is 0 and every day is clamp(round(mean)) |
| Ensemble.SubModelsConstant | backend/forecasting/models/ensemble.py:31 | On a constant series every sub-model predicts clamp(round(v)) |
| Ensemble.SimpleAverageConstant | backend/forecasting/models/ensemble.py:79-87 | On a constant series the simple average predicts clamp(round(v)) |
| Ensemble.ClampRoundOfAqi | backend/forecasting/models/ensemble.py:59 | Rounding and clamping an AQI that is already a whole number in [0, 500] leaves it unchanged |
| Ensemble.ConstantSeries | backend/forecasting/models/ensemble.py:24-96 | A constant series v gives clamp(round(v)) every day, whichever sub-models raise |
| ForecastingService.Lookup | backend/forecasting/forecasting_service.py:23-30 | A name is found exactly when it is one of the six keys, and the method found has that key |
| ForecastingService.KeyRoundTrip | backend/forecasting/forecasting_service.py:23-30 | Looking up a method's key gives back that method |
| ForecastingService.ResolveUnknown | backend/forecasting/forecasting_service.py:57-58 | An unknown name becomes "ensemble"; a known one keeps its method; resolving is idempotent |
| ForecastingService.Resolve | backend/forecasting/forecasting_service.py:57-58 | Definition of the method actually run; its properties are in KeyRoundTrip, ResolveUnknown and UnknownMethodIsEnsemble |
| ForecastingService.AvailableMethods | backend/forecasting/forecasting_service.py:129-131 | The listed names are exactly those for which method info exists |
| ForecastingService.GetMethodInfo | backend/forecasting/forecasting_service.py:133-143 | Info exists exactly for the six keys, and it is that model's name, description, minimum and use case |
| ForecastingService.MethodInfoVectors | backend/forecasting/forecasting_service.py:133-143 | `get_method_info` filled from the models' getters: seasonal's full info (seasonal_decomposition.py:59-69), moving_average's minimum of 5 (moving_average.py:59-60), arima's name (arima.py:58-59); `{}` (no info) for "prophet" |
| ForecastingService.ModelPredictions | backend/forecasting/forecasting_service.py:61-62 | The chosen model's result has the forecast shape |
| ForecastingService.RunModel | backend/forecasting/forecasting_service.py:61-62 | Dispatching equals the chosen model's forecast on the extracted series |
| ForecastingService.Margin | backend/forecasting/forecasting_service.py:91-98 | The margin is the larger of the method's floor and rate·aqi: at least both, and equal to one of them |
| ForecastingService.MarginOrder | backend/forecasting/forecasting_service.py:91-98 | For aqi >= 0: the ensemble margin <= the moving-average margin <= the linear margin <= every other method's margin |
| ForecastingService.Spread | backend/forecasting/forecasting_service.py:100-105 | Definition of one band, clamp(round(aqi ∓ d)); its properties are in SpreadWithin and SpreadAround |
| ForecastingService.Intervals | backend/forecasting/forecasting_service.py:100-105 | Definition of the 80% and 95% bands of one AQI; its properties are in IntervalsNested |
| ForecastingService.SpreadWithin | backend/forecasting/forecasting_service.py:100-105 | A wider margin gives a band that contains the narrower one |
| ForecastingService.SpreadAround | backend/forecasting/forecasting_service.py:100-102 | For an AQI in [0, 500] the band contains the AQI |
| ForecastingService.IntervalsNested | backend/forecasting/forecasting_service.py:100-105 | low_95 <= low_80 <= aqi <= high_80 <= high_95, all in [0, 500], for every AQI in [0, 500] |
| ForecastingService.WithIntervals | backend/forecasting/forecasting_service.py:85-107 | Same length; in each record the date, AQI and category are kept and only the confidence is set |
| ForecastingService.AddConfidenceIntervals | backend/forecasting/forecasting_service.py:85-107 | Updating the array in place turns its contents into WithIntervals of the old contents |
| ForecastingService.DefaultForecast | backend/forecasting/forecasting_service.py:109-127 | `forecast_days` records dated from tomorrow, each with an AQI in [45, 85] and its own category, without confidence |
| ForecastingService.DefaultCategories | backend/forecasting/forecasting_service.py:118-124 | Every random default record is "Good" or "Moderate" and needs no clamping |
| ForecastingService.ServiceMetadata | backend/forecasting/forecasting_service.py:49-83 | Definition of the metadata of each path; its properties are in MetadataCases |
| ForecastingService.ServiceOutcome | backend/forecasting/forecasting_service.py:49-83 | Definition of the predictions of each path; its properties are in ForecastAqi, UnknownMethodIsEnsemble and SuccessShape |
| ForecastingService.ForecastAqi | backend/forecasting/forecasting_service.py:32-83 | Fewer than 3 points, or a model that raises, yield the random default; otherwise the resolved model's forecast with confidence bands. Metadata as in MetadataCases |
| ForecastingService.MetadataCases | backend/forecasting/forecasting_service.py:49-83 | Confidence is "low" exactly on the default paths ("Default"/"default", with the error text when the model raised); otherwise the model's name, the method, data_points = len(input), and "high" exactly when len > 30 |
| ForecastingService.UnknownMethodIsEnsemble | backend/forecasting/forecasting_service.py:57-58 | An unknown method name behaves exactly like "ensemble", metadata included |
| ForecastingService.SuccessShape | backend/forecasting/forecasting_service.py:60-74 | On success: `forecast_days` records dated from tomorrow, each in [0, 500], categorised by its AQI, with nested confidence bands |
| TimeGptService.Pair | backend/services/timegpt_service.py:168-173 | A band exists exactly when both of its lists reach index i, and it holds the two clamped, rounded values |
| TimeGptService.ConfidenceAt | backend/services/timegpt_service.py:166-176 | The confidence entry is omitted exactly when neither band pair is available |
| TimeGptService.ParsedRecords | backend/services/timegpt_service.py:155-178 | min(forecast_days, len(y)) records; record i is dated today+1+i with clamp(round(y[i])) and its category, plus the available bands |
| TimeGptService.ParseResponse | backend/services/timegpt_service.py:135-180 | The parsing loop equals ParsedRecords |
| TimeGptService.ParsedBounds | backend/services/timegpt_service.py:157-176 | Every parsed AQI and band value lies in [0, 500]; confidence is present exactly when one full pair reaches index i |
| TimeGptService.ParseExample | backend/tests/test_timegpt.py:132-150 | The fully populated 3-value response gives 3 records, all with confidence; the first is 80/"Moderate" with bands 75-85 and 70-90 |
| TimeGptService.ShortResponse | backend/services/timegpt_service.py:155 | A response shorter than the horizon yields one record per value it has |
| TimeGptService.Varied | backend/services/timegpt_service.py:258 | A varied prediction is in [0, 500] |
| TimeGptService.FallbackBase | backend/services/timegpt_service.py:254 | Definition of `recent_avg + trend·i`; its properties are in FallbackLoop, ReachableBounds and FallbackConstant |
| TimeGptService.SimpleFallback | backend/services/timegpt_service.py:207-268 | The simple fallback: 75/"Moderate" records without usable history; otherwise each day is a ±10 % variation of level + trend·i, clamped and categorised |
| TimeGptService.FallbackLoop | backend/services/timegpt_service.py:250-266 | The loop yields `forecast_days` records, each a reachable variation of its base |
| TimeGptService.FallbackForecast | backend/services/timegpt_service.py:182-268 | When the enhanced path does not raise, the service's ensemble outcome; when it raises, the simple fallback |
| TimeGptService.FallbackEmpty | backend/tests/test_timegpt.py:165-171 | No usable history gives `forecast_days` records of 75/"Moderate" |
| TimeGptService.FallbackInRange | backend/tests/test_timegpt.py:152-163 | Every fallback record is dated today+1+i and lies in [0, 500], with its category |
| TimeGptService.FallbackLevel | backend/services/timegpt_service.py:238-243 | Definition of the fallback level (recent_avg); its properties are in FallbackTrendCases |
| TimeGptService.FallbackTrend | backend/services/timegpt_service.py:238-244 | Definition of the fallback daily trend; its properties are in FallbackTrendCases |
| TimeGptService.FallbackTrendCases | backend/services/timegpt_service.py:238-244 | Under 7 values: the overall mean and trend 0. From 7 values: the level is mean(last 7). From 7 to 13 values the trend is 0; from 14 on it is (mean(last 7) - mean([-14:-7])) / 7 |
| TimeGptService.VariationWithin | backend/services/timegpt_service.py:256-258 | A ±10 % variation of a non-negative base lies in [0.9·base, 1.1·base] |
| TimeGptService.ReachableBounds | backend/services/timegpt_service.py:256-258 | A reachable prediction lies between clamp(round(0.9·base)) and clamp(round(1.1·base)) |
| TimeGptService.FallbackConstant | backend/services/timegpt_service.py:238-258 | On a constant non-negative history v, every fallback prediction lies in [clamp(round(0.9·v)), clamp(round(1.1·v))] |

In the code, pm25 25.0 interpolates to 51 + 12.9/23.3·49 ≈ 78.1, which is 78. The test vector at backend/tests/test_aqi.py:18 expects 75. The model follows the code (`Aqi.Pm25InteriorVector`). Several other mid-band vectors in the same test are approximations in the same way, e.g. 45.0 → 125 works out to 124 as written. The model does not restate those vectors.

## Left out

- Floating point: IEEE doubles and numpy's summation order are replaced by exact reals. The orderings and ties that rounding error could change are not modelled.
- `TimeGPTService.forecast_aqi` (backend/services/timegpt_service.py:34-133) and `get_forecast_metadata`: these are HTTP calls to an external API.
- The un-awaited call of `ForecastingService.forecast_aqi` at backend/services/timegpt_service.py:195 makes the enhanced path raise as written.
  - `TimeGptService.FallbackForecast` takes this as the oracle `enhancedRaises`.
  - When it is false, the service is modelled as a plain (awaited) function.
  - Coroutines themselves are not modelled.
- Exceptions cannot arise in exact arithmetic, so they are parameters:
  - the sub-models that raise (`failed`);
  - the model error text (`raised`);
  - `enhancedRaises`.
- Randomness becomes a nondeterministic choice inside the stated range:
  - `random.randint(-15, 25)` at backend/forecasting/forecasting_service.py:118;
  - `random.uniform(-0.1, 0.1)` at backend/services/timegpt_service.py:257.
  - Distributions are not modelled.
- `date.today()` (local date) and `datetime.utcnow().date()` (UTC date) are both the one parameter `today`. In `TimeGptService.FallbackForecast` the ensemble path dates its records from the local date (backend/forecasting/models/ensemble.py:63), while the parser and the simple fallback use the UTC date (backend/services/timegpt_service.py:153, 212, 248). Near midnight the two dates can differ by one day; the model does not capture that difference.
- Logging and the `print` of a failing sub-model's error are not modelled.
- Model constructor parameters are fixed to the defaults that every caller uses: moving-average window 7, α = 0.3, season length 7. `ExponentialSmoothing.SmoothedWithin` is stated for any α in [0, 1].
- Dead branches are modelled as written, and their unreachability is proved where it matters:
  - the moving-average `np.mean` fallback when `ma` is empty (`MovingAverage.LastOrMean`, never taken by `MovingAverage.LevelIsLastAverage`);
  - linear regression's zero denominator (`LinearRegression.DenominatorPositive`);
  - the ensemble's 75 for an uncovered day (`Ensemble.EveryDayCovered`).
- The per-pollutant wrappers `calculate_pm25_aqi` … `calculate_co_aqi` (backend/services/aqi.py:155-182) are `AqiOf` with a fixed pollutant name.
- Records are datatypes rather than dicts. The `.get('predicted_aqi', 0)` default in `_add_confidence_intervals` therefore never applies.
- `Aqi.CalculateDailyAqi`: the category of the maximum is stated. Which pollutant Python's `max` reports on ties is not stated, because only the value is returned.
- `Aqi.Lower` is ASCII lower-casing only. Python's Unicode case mapping is not modelled.
- The base class's default `get_min_data_points` of 3 (backend/forecasting/models/base_model.py:25-27) is overridden by every model, so no model's behaviour depends on it. The models' own minimums are in `ForecastingService.GetMethodInfo`.
- `BaseModel.AqiCategory` is defined as `Aqi.Category`, which is how `_get_aqi_category` delegates. It needs no contract of its own.
- HTTP routers, database caching, the OpenAQ and Telegram clients, the schemas and the setup scripts are outside the modelled core.
