# AquaWatch bloom-risk engine in Dafny

AquaWatch scores the risk of a harmful cyanobacterial (blue-green algae)
bloom on a lake from weather, satellite and land-use data. This project
models its deterministic engine and proves properties of that model:

- **Sub-scores in [0, 100]**: wind mixing, hydrological stagnation,
  stratification, nutrients, light (UV, cloud, photoperiod) and temperature
  (seasonal anomalies, percentile ranks, the 7-day trend, water temperature).
- **Growth rate**: a Monod-style product of four clipped limitation factors
  with the Rosso cardinal-temperature correction. The limiting factor is the
  first minimum, and the biomass trajectory has 8 points.
- **Aggregation and classification**: the weighted-sum and
  weighted-geometric-mean bloom probabilities, the four risk bands
  (25/50/75), the cells/mL estimate, the WHO severity bands
  (20,000 / 100,000 / 10,000,000 cells/mL) and the advisory tiers.
- **Forecast and confidence bands**: the 7-day forecast loop with its
  momentum term and padding, and the widening uncertainty bands written
  back into the forecast record.
- **Trend statistics**: the least-squares trend with its pseudo p-value,
  the Mann-Kendall S statistic with tie correction, and the Theil-Sen
  median slope.
- **Predictive alerts**: the single pass over the forecast that raises
  warning, critical, rapid-increase, heat, stagnation and nutrient-flush
  alerts, with its summary.
- **Supporting logic**:
  - the WHO comparison card, with thousands separators;
  - the historical z-score, percentile and flags;
  - the multi-site records and the stable descending ranking;
  - the feature-vector derivations;
  - the data pipeline's error accounting, confidence tier, land-use
    heuristic and thermal grid;
  - the CyFi cache fallback chain and the weather client's time-to-live memo
    with its response validation;
  - the demo-site catalogue and site search;
  - the PDF text sanitiser and table arithmetic;
  - the dashboard helpers in `app.py`.

Floating-point values are `real`. A NaN, a Python `None` or a missing
key is `None` of `Option` (two places where the code treats a JSON null
unlike a missing key are listed under "Left out"). `exp`, `ln`, `sqrt`, `pow`, the trigonometric functions, the
normal CDF and Python's `round` are fields of the record `Numerics.Ops`.
Each member assumes only the laws it needs, stated as ghost predicates
(`ExpLaws`, `RoundLaws`, ...). One of these laws is
`100 * exp(11.5) < 10,000,000`, which makes the "very high" WHO band
unreachable for risk scores up to 100. The clock, the random noise, HTTP
answers and the seasonal least-squares fit are parameters. Objects whose
fields the code updates in place are classes:

- the data pipeline and its `errors` dict;
- the CyFi client and its cache;
- the time-to-live memo;
- the forecast record that the confidence bands extend.

Two facts about the code as written come out of the proofs:

- The Rosso correction's raw ratio never exceeds 1 on (5, 40), so its upper
  clip never fires.
- A Mann-Kendall S of 0 always gives p = 1, so the "decreasing" branch
  cannot be taken for S = 0.

The stagnation helper's wind breakpoints (1 and 5) are in m/s, while the
feature pipeline supplies km/h with a default of 10.0. The model keeps this
mismatch as written.

## Model

| member | source | states |
|---|---|---|
| Stats.MeanBounds | analysis/historical_comparison.py:46 | the mean of values that all lie in a range lies in that range |
| Stats.MeanBetweenExtremes | analysis/historical_comparison.py:46-49 | the mean lies between the minimum and the maximum |
| Stats.PopStdConstant | temperature_features.py:70-71 | a constant series has zero (population) standard deviation |
| Stats.OlsSlopeLinear | analysis/trend_analysis.py:28-38 | least squares on the day index recovers the slope of scores lying on a line |
| Stats.CountLeMonotone | temperature_features.py:93 | a larger value has at least as many values at or below it |
| Stats.CountLeAll | temperature_features.py:93 | when every value lies at or below v, all of them are counted |
| Stats.CountLePositive | temperature_features.py:93 | a value of the record counts at least itself |
| Stats.SortSpec | analysis/trend_analysis.py:193 | the sort behind `np.median` is an ascending permutation of its input |
| Stats.MedianConstant | analysis/trend_analysis.py:193 | the median of a constant list is that constant |
| StagnationFeatures.WindMixingScore | stagnation_features.py:27-32 | the wind-mixing score lies in [0, 100]; it is 100 for a 7-day wind of at most 1 m/s and 0 from 5 m/s |
| StagnationFeatures.WindMixingNonIncreasing | stagnation_features.py:27-32 | more wind never raises the wind-mixing score |
| StagnationFeatures.WindMixingLipschitz | stagnation_features.py:27-32 | the score changes by at most 25 per m/s, so it is continuous at both breakpoints 1 and 5 |
| StagnationFeatures.WindMixingOrderedStep | stagnation_features.py:27-32 | between two ordered winds the score falls by at least 0 and at most 25 per m/s |
| StagnationFeatures.HydrologicalStagnation | stagnation_features.py:42-47 | the deficit is clamped to [0, 100]: 0 below 0, 100 from 100, the deficit itself in between |
| StagnationFeatures.DiurnalTerm | stagnation_features.py:57 | the diurnal-range term lies in [0, 60] |
| StagnationFeatures.WaterTempTerm | stagnation_features.py:58 | the water-temperature term lies in [0, 40] |
| StagnationFeatures.StratificationProxy | stagnation_features.py:57-59 | the stratification proxy is the sum of the two clamped terms, so it lies in [0, 100] |
| StagnationFeatures.StratificationMonotone | stagnation_features.py:57-59 | a larger diurnal range or warmer water never lowers the proxy |
| StagnationFeatures.CombinedStagnationIndex | stagnation_features.py:70-71 | the weighted 40/30/30 combination is clamped to [0, 100] |
| StagnationFeatures.CombinedClampIsNoOp | stagnation_features.py:70-71 | with sub-scores in [0, 100] the clamp does nothing, because the weights sum to 1 |
| StagnationFeatures.StagnationScore | stagnation_features.py:87-90 | the stagnation score is the combined index of the three sub-scores and lies in [0, 100] |
| StagnationFeatures.StagnationScoreMonotone | stagnation_features.py:87-90 | less wind, a larger deficit, a larger diurnal range or warmer water never lowers the stagnation score |
| StagnationModel.ComputeStagnationScore | models/stagnation_model.py:27-48 | missing keys default to wind 10.0, deficit 0.0, diurnal 8.0 and water 20.0; the score is the combined stagnation score, clipped and rounded to one decimal, in [0, 100]; the wind score is the wind-mixing score of the wind rounded to one decimal, the hydro score the hydrological stagnation of the deficit rounded, and the stratification score the stratification proxy clipped to [0, 100] and rounded, all in [0, 100]; wind and deficit are echoed |
| StagnationModel.DefaultWindScoreIsZero | models/stagnation_model.py:27-37 | with the default wind of 10.0 (or any wind of at least 5) the reported wind score is 0 |
| StagnationModel.ComputeStagnationScoreMonotone | models/stagnation_model.py:27-34 | less wind, a larger deficit, a larger diurnal range or warmer water never lowers the reported score |
| NutrientModel.AgricultureTerm | models/nutrient_model.py:24 | the agriculture term is 1.2 × the percentage clamped to [0, 50] |
| NutrientModel.UrbanTerm | models/nutrient_model.py:27 | the urban term is 1.5 × the percentage clamped to [0, 30] |
| NutrientModel.BufferReduction | models/nutrient_model.py:30 | the buffer reduction is 0.3 × (forest + wetland) clamped to [0, 20] |
| NutrientModel.NutrientTotal | models/nutrient_model.py:32 | the total is the two terms less the buffer, floored at 0; it never exceeds 80 since the positive terms cap at 50 + 30 |
| NutrientModel.ComputeNutrientScore | models/nutrient_model.py:18-46 | missing percentages default to 0 and are echoed; the agriculture, urban and buffer sub-scores are the agriculture term, the urban term and the buffer reduction each rounded to one decimal, in [0, 50], [0, 30] and [0, 20]; the score is the total rounded to one decimal, in [0, 80] |
| NutrientModel.NutrientTotalMonotone | models/nutrient_model.py:24-32 | the total is non-decreasing in agriculture and urban share and non-increasing in the buffer share |
| NutrientModel.BufferDependsOnSum | models/nutrient_model.py:30 | the buffer depends on forest and wetland only through their sum |
| NutrientModel.ComputeNutrientScoreMonotone | models/nutrient_model.py:18-33 | the score is non-decreasing in agricultural_pct and urban_pct and non-increasing in forest_pct + wetland_pct |
| LightFeatures.NormalizeUv | light_features.py:20-24 | the UV index over 11 clamped to [0, 1]: 0 for non-positive UV, 1 from 11 on |
| LightFeatures.CosHourAngle | light_features.py:40-48 | the sunset hour-angle cosine is clamped to [-1, 1] |
| LightFeatures.Photoperiod | light_features.py:27-54 | day length lies in [0, 24] hours for every latitude and day of year |
| LightFeatures.CloudSuppression | light_features.py:57-66 | covers up to 1 are read as fractions and larger ones as percentages; the result is 1 − fraction clamped to [0, 1] |
| LightFeatures.CloudSuppressionJump | light_features.py:65-66 | the reading jumps at 1: a cover of 1 suppresses all light (0) while 1.5 gives 0.985 |
| LightFeatures.DayFraction | light_features.py:83-84 | the normalised day length lies in [0, 1] |
| LightFeatures.ComputeLightScore | light_features.py:69-91 | the light score lies in [0, 100] and is at most 100 × each of the UV and cloud factors; zero UV or full cloud cover gives exactly 0 |
| LightFeatures.LightScoreMonotoneInUv | light_features.py:82-91 | more UV never lowers the light score |
| LightModel.ComputeLightModelScore | models/light_model.py:26-45 | missing keys default to UV 3.0, cloud 50, latitude 45.0 and day 180; the score is the helper score clipped and rounded to one decimal; uv_norm and cloud_factor are the helper values rounded to 3 decimals and day_length_h the photoperiod to 1, each in its range |
| LightModel.DarkGivesZero | models/light_model.py:26-33 | with no UV or full cloud cover the reported score is 0 |
| LightModel.DefaultFactors | models/light_model.py:26-38 | with every key missing, cloud_factor is round(0.5, 3) and uv_norm is round(3/11, 3) |
| TemperatureFeatures.NanMean | temperature_features.py:38 | the NaN-ignoring mean is NaN exactly when no value is present |
| TemperatureFeatures.CleanPairs | temperature_features.py:33-35 | the number of (day, temperature) pairs with neither NaN is at most the input length |
| TemperatureFeatures.SeasonalBaseline | temperature_features.py:29-59 | the baseline always has the input length; with fewer than 10 clean pairs or a failed fit every entry is the NaN-ignoring mean; otherwise an entry is NaN exactly where its day is NaN, and a present day holds the fitted curve at that day |
| TemperatureFeatures.Residuals | temperature_features.py:69 | residuals keep the length, and an entry is NaN exactly where the observation or the baseline is |
| TemperatureFeatures.NanStd | temperature_features.py:70 | the NaN-ignoring standard deviation is NaN exactly when no residual is present |
| TemperatureFeatures.ComputeAnomalies | temperature_features.py:62-73 | all zeros (NaN positions included) when the residual spread is 0 or NaN; otherwise residual / spread elementwise, NaN where the residual is NaN |
| TemperatureFeatures.ConstantResidualsGiveZeros | temperature_features.py:69-72 | when every residual is the same number the spread is 0, so every anomaly is 0 |
| TemperatureFeatures.PercentileRanking | temperature_features.py:76-94 | one rank per entry, each the percentile of that entry: 50 for NaN (and all 50 for an all-NaN input), otherwise 100 × the share of valid values at most it |
| TemperatureFeatures.PercentileInRange | temperature_features.py:93 | a valid entry's percentile lies in (0, 100] |
| TemperatureFeatures.PercentileMonotone | temperature_features.py:93 | a larger valid value never has a smaller percentile |
| TemperatureFeatures.PercentileOfMaximum | temperature_features.py:93 | the maximum valid value has percentile exactly 100 |
| TemperatureFeatures.PercentileSeries | temperature_features.py:83-94 | the rank series, as a value: one percentile per entry |
| TemperatureFeatures.RecentValid | temperature_features.py:107-108 | the non-NaN values among the last 7 entries, at most 7 of them |
| TemperatureFeatures.TrendSlope7Day | temperature_features.py:107-119 | the slope is 0 when fewer than 3 valid values remain in the last 7 |
| TemperatureFeatures.TrendSlopeUsesLastSeven | temperature_features.py:107 | entries before the last 7 never affect the slope |
| TemperatureFeatures.TrendSlopeLinear | temperature_features.py:112-119 | on 3 to 7 values lying on a line of slope b the least-squares slope is exactly b |
| TemperatureFeatures.EstimateWaterTemp | temperature_features.py:129 | the water estimate is round(0.97 × air − 3.24, 1) floored at 0, so it is never negative |
| TemperatureFeatures.EstimateWaterTempMonotone | temperature_features.py:129 | warmer air never gives colder water |
| TemperatureFeatures.AnomalyPart | temperature_features.py:151 | the anomaly part is 20 times the absolute z capped at 40, depends only on the absolute z, and is 40 for a NaN z |
| TemperatureFeatures.TrendPart | temperature_features.py:154 | the trend part lies in [0, 20], is 0 for a non-positive slope and 20 from a slope of 1 |
| TemperatureFeatures.WaterPart | temperature_features.py:157 | the logistic water part lies strictly between 0 and 40 |
| TemperatureFeatures.WaterPartMonotone | temperature_features.py:157 | warmer water never lowers the water part |
| TemperatureFeatures.CompositeRiskScore | temperature_features.py:151-160 | the composite is the sum of the three parts and lies in [0, 100], so the final clip never changes it |
| TemperatureFeatures.CompositeSymmetricInZ | temperature_features.py:151 | the composite is the same for z and −z |
| TemperatureFeatures.RoundOpt | temperature_features.py:195-196 | rounding keeps NaN as NaN and a number as a number |
| TemperatureFeatures.ExtractAllFeatures | temperature_features.py:163-206 | the baseline series is the seasonal baseline of the history, the anomaly series its z-score anomalies and the percentile series their ranks, all of the input length; the current baseline, z and percentile are the last entries rounded to 1, 2 and 1 decimals, anomaly_c is the air temperature minus the last baseline rounded (NaN for a NaN baseline); with no history the baseline is the air temperature, z and anomaly_c are 0 and the percentile 50; the slope is the 7-day slope rounded to 3 decimals, the water temperature the non-negative estimate from the air, and the composite the rounded composite risk of the current z, that slope and that water temperature, in [0, 100] |
| TemperatureFeatures.FeaturesAtLast | temperature_features.py:186-206 | the dictionary built from the three series: each scalar is the last entry rounded (air temperature, z 0 and percentile 50 for an empty history), the series are carried unchanged, and percentile and composite lie in [0, 100] |
| TemperatureFeatures.AnomalyC | temperature_features.py:197 | the air temperature minus the baseline, rounded to one decimal; NaN exactly when the baseline is NaN |
| TemperatureFeatures.CurrentPercentile | temperature_features.py:190 | the current percentile (50 for an empty series) lies in [0, 100] |
| TemperatureModel.AnomalyZ | models/temperature_model.py:26 | the z-score is anomaly / 3 in every case, the zero special case included |
| TemperatureModel.ProxyTrendSlope | models/temperature_model.py:29 | the proxy slope is anomaly / 7 for a positive anomaly and 0 otherwise, so it is never negative |
| TemperatureModel.DiurnalBonus | models/temperature_model.py:35 | the bonus is (12 − diurnal) × 1.5 clipped to [0, 15]: 0 from 12 °C and 15 up to 2 °C |
| TemperatureModel.TemperatureScore | models/temperature_model.py:32-37 | the score lies in [0, 100]; with a diurnal range of at least 12 and no warm anomaly it is the rounded composite of z = anomaly / 3 with zero slope |
| TemperatureModel.ComputeTemperatureScore | models/temperature_model.py:21-48 | missing keys default to water 20.0, anomaly 0.0 and diurnal 8.0 and are echoed; the composite sub-score is the composite temperature risk of z = anomaly / 3 and the proxy slope, rounded to one decimal, in [0, 100]; the bonus sub-score is the diurnal bonus rounded to one decimal, in [0, 15]; the score is the clipped, rounded sum in [0, 100] |
| TemperatureModel.WarmAnomalyScoresAtLeastCold | models/temperature_model.py:26-37 | a cold anomaly never scores above a warm anomaly of the same size, since only warm anomalies add trend risk |
| TemperatureModel.ScoreWarmAtLeastCold | models/temperature_model.py:26-37 | the same comparison on the score function |
| TemperatureModel.ScoreMonotoneInWaterTemp | models/temperature_model.py:21-37 | warmer water never lowers the reported score |
| TemperatureModel.ScoreMonotoneInWater | models/temperature_model.py:32-37 | the same monotonicity on the score function |
| GrowthRateModel.Factor | models/growth_rate_model.py:33-36 | each growth factor is score / 100 clipped to [0.01, 1.0], and equals score / 100 for scores in [1, 100] |
| GrowthRateModel.ArrheniusCorrection | models/growth_rate_model.py:72-94 | the temperature correction lies in [0.01, 1.0] and is exactly 0.01 at or below 5 °C and at or above 40 °C |
| GrowthRateModel.DenominatorSimplifies | models/growth_rate_model.py:86-91 | the cardinal denominator is −23·(T + 248), negative on (5, 40), so the zero-denominator guard never fires |
| GrowthRateModel.SquareTimes | models/growth_rate_model.py:85-89 | the product (T − 28)²·(T + 6) is non-negative when T + 6 is |
| GrowthRateModel.SquareTimesPositive | models/growth_rate_model.py:85-89 | that product is positive away from 28 °C on (5, 40) |
| GrowthRateModel.NumeratorMinusDenominator | models/growth_rate_model.py:85-89 | numerator − denominator = (T − 28)²·(T + 6) |
| GrowthRateModel.RawRatioAtMostOne | models/growth_rate_model.py:85-93 | on (5, 40) the raw Rosso ratio is at most 1, and equals 1 only at 28 °C |
| GrowthRateModel.CorrectionOnlyClippedBelow | models/growth_rate_model.py:93-94 | on (5, 40) only the lower clip can act, and the correction is 1 exactly at 28 °C |
| GrowthRateModel.CorrectionAtOptimum | models/growth_rate_model.py:77-94 | at 28 °C numerator and denominator are both −6348, so the correction is exactly 1 |
| GrowthRateModel.GrowthMu | models/growth_rate_model.py:42-43 | mu = 1.2 × the four factors × the correction lies in (0, 1.2] and is at most 1.2 × each factor, so the clamp never acts |
| GrowthRateModel.DoublingTime | models/growth_rate_model.py:46-49 | there is no doubling time exactly when mu ≤ 0.001; otherwise it is non-negative |
| GrowthRateModel.BiomassGrows | models/growth_rate_model.py:52-56 | for mu ≥ 0 the biomass is at least 1 and never shrinks from one day to the next |
| GrowthRateModel.BiomassTrajectory | models/growth_rate_model.py:51-56 | the loop builds 8 points, starting at exactly 1.0, each the rounded biomass of its day |
| GrowthRateModel.TrajectoryNonDecreasing | models/growth_rate_model.py:52-56 | the rounded trajectory is non-decreasing since mu ≥ 0 |
| GrowthRateModel.LimitingFactor | models/growth_rate_model.py:59-60 | the limiting factor has the minimal clipped value, and every factor listed before it has a strictly larger one (first wins ties); the temperature correction is not a candidate |
| GrowthRateModel.ComputeGrowthRate | models/growth_rate_model.py:16-69 | mu per day lies in [0, 1.2] and is the rounded product; the doubling time is absent exactly when mu ≤ 0.001; 8 non-decreasing trajectory points from 1.0; the limiting factor as above; the reported factor values and temperature correction are the factors and the correction rounded to three decimals, each in [0, 1] |
| BloomProbabilityModel.ClassifyRisk | models/bloom_probability_model.py:102-110 | SAFE below 25, LOW on [25, 50), WARNING on [50, 75), CRITICAL from 75, each an if-and-only-if, so 25, 50 and 75 belong to the higher band |
| BloomProbabilityModel.ClassifyRiskMatchesRiskLevels | models/bloom_probability_model.py:102-110 | for scores in [0, 100] the classifier picks the configured band that contains the score, with that band's name and colour |
| BloomProbabilityModel.WhoSeverity | models/bloom_probability_model.py:120-128 | low below 20,000 cells/mL, moderate below 100,000, high below 10,000,000 and very high otherwise, each an if-and-only-if |
| BloomProbabilityModel.WhoSeverityMatchesTables | models/bloom_probability_model.py:21-26 | every severity is a row of the WHO table, and the table's upper limits are the configured WHO thresholds |
| BloomProbabilityModel.EstimateCells | models/bloom_probability_model.py:113-117 | the cell estimate lies in [100, 20,000,000] and is 100 for non-positive scores |
| BloomProbabilityModel.EstimateCellsMonotone | models/bloom_probability_model.py:113-117 | a higher score never gives fewer cells |
| BloomProbabilityModel.VeryHighUnreachable | models/bloom_probability_model.py:113-128 | for scores up to 100 the estimate stays below 10,000,000, so very high severity is never reported |
| BloomProbabilityModel.WeightsSumToOne | models/bloom_probability_model.py:45 | the five weights sum to 1.0 |
| BloomProbabilityModel.GrowthScore | models/bloom_probability_model.py:47 | the growth score is mu / 1.2 × 100 clipped to [0, 100] |
| BloomProbabilityModel.SatelliteAdjustment | models/bloom_probability_model.py:57-66 | 15, 8 or 3 for cells strictly above 100,000, 20,000 or 5,000; 0 otherwise, including when there is no satellite count |
| BloomProbabilityModel.SatelliteAdjustmentMonotone | models/bloom_probability_model.py:57-66 | more cells never lower the adjustment, and a missing count adjusts least |
| BloomProbabilityModel.BaseScore | models/bloom_probability_model.py:49-55 | with sub-scores in [0, 100] the weighted sum lies in [0, 100]; equal sub-scores give that score back |
| BloomProbabilityModel.BaseScoreMonotone | models/bloom_probability_model.py:49-55 | raising any sub-score never lowers the weighted sum |
| BloomProbabilityModel.DeriveFromScore | models/bloom_probability_model.py:71-78 | level, cells and WHO severity are functions of the rounded score alone, and a score in [0, 100] never reaches very high severity |
| BloomProbabilityModel.BuildAdvisory | models/bloom_probability_model.py:131-166 | the advisory carries the level, severity and cells, and has a growth line exactly when mu > 0.01 and the doubling time is present and non-zero, naming the limiting factor ("Unknown" when missing) |
| BloomProbabilityModel.ComputeBloomProbability | models/bloom_probability_model.py:29-99 | the risk score is the weighted sum plus the satellite adjustment, clipped to [0, 100] and rounded; level, cells and severity derive from it; severity is never very high; confidence is echoed |
| BloomProbabilityModel.ComputeBloomProbabilityMonotone | models/bloom_probability_model.py:44-69 | raising any sub-score, mu or the satellite count never lowers the risk score |
| BloomProbabilityModel.WeightedRiskScore | models/bloom_probability_model.py:44-69 | the risk score for a known mu and satellite count, written out |
| BloomProbabilityModel.LogSafe | models/bloom_probability_model.py:201-205 | each score is clipped to [0.001, 100] before its logarithm |
| BloomProbabilityModel.LogSumOfEqualScores | models/bloom_probability_model.py:208-210 | equal sub-scores give a log-sum equal to the log of that score, since the weights sum to 1 |
| BloomProbabilityModel.InteractionBoost | models/bloom_probability_model.py:212-215 | the boost is 0.10 × min(T, N) (so above 6) when both T and N are strictly above 60, and 0 otherwise |
| BloomProbabilityModel.InteractionBoostMonotone | models/bloom_probability_model.py:212-215 | raising T or N never lowers the boost |
| BloomProbabilityModel.CalculateBloomRisk | models/bloom_probability_model.py:173-238 | the risk score is the geometric mean plus the boost, clipped to [0, 100] and rounded; level, cells and WHO level derive from it and the WHO level is never very high; components and boost are reported rounded |
| BloomProbabilityModel.CalculateBloomRiskMonotoneInTemperature | models/bloom_probability_model.py:201-218 | a higher temperature score never lowers the geometric-mean risk score |
| BloomProbabilityModel.BloomAdvisoryOf | models/bloom_probability_model.py:241-290 | a growth line appears exactly when the doubling time is present and positive: rapid below 24 h, moderate below 72 h, otherwise slow naming the limiting factor |
| BloomProbabilityModel.AdvisorySeverityMatchesClassifier | models/bloom_probability_model.py:250-267 | the advisory's severity bands are the classifier's 25/50/75 bands |
| Constants.RiskLevelsContiguous | config/constants.py:5-10 | four risk bands that tile [0, 100] without gaps, with boundaries 25, 50 and 75 |
| Constants.WhoThresholdsIncreasing | config/constants.py:12-19 | three WHO thresholds, strictly increasing: 20,000, 100,000 and 10,000,000 cells/mL |
| ForecastEngine.ForecastDays | analysis/forecast_engine.py:31 | the number of forecast days is min(7, number of raw dates) |
| ForecastEngine.Window | analysis/forecast_engine.py:31-32 | the slice taken from a list: its last 7 entries when there are more than 7 raw dates, otherwise its first min(n, length) entries |
| ForecastEngine.SafeSliceOf | analysis/forecast_engine.py:79-87 | the padded slice always has exactly min(7, number of raw dates) entries |
| ForecastEngine.SafeSlice | analysis/forecast_engine.py:79-87 | the loop builds that slice: a present value is kept, a missing entry or a position past the list's end gets the default |
| ForecastEngine.ForecastDates | analysis/forecast_engine.py:31-44 | always 7 dates: the last 7 raw dates when there are more, all of them when there are exactly 7, otherwise the 7 dates generated from today |
| ForecastEngine.OrDefault | analysis/forecast_engine.py:49-51 | Python's `x or d` on a number: d exactly when x is 0 |
| ForecastEngine.TempFactor | analysis/forecast_engine.py:49-54 | the temperature factor lies in [0, 1] |
| ForecastEngine.RainFactor | analysis/forecast_engine.py:50-55 | the rain factor lies in [0, 1] |
| ForecastEngine.WindFactor | analysis/forecast_engine.py:51-56 | the wind factor lies in [0, 1] |
| ForecastEngine.DayProjection | analysis/forecast_engine.py:58 | the projection lies between half the current risk and that plus 32.5 |
| ForecastEngine.DayScore | analysis/forecast_engine.py:60-62 | the first day's score is its clipped, rounded projection; a later day blends 70 % projection with 30 % of the previous score first |
| ForecastEngine.DayScoreInRange | analysis/forecast_engine.py:62 | every day's score lies in [0, 100] |
| ForecastEngine.ComputedScores | analysis/forecast_engine.py:47-62 | one score per computed day |
| ForecastEngine.ComputedScoresInRange | analysis/forecast_engine.py:47-62 | every computed score lies in [0, 100] |
| ForecastEngine.PadScores | analysis/forecast_engine.py:64-66 | padding gives exactly 7 scores, keeps the computed ones and repeats the last one (the current risk when none was computed) |
| ForecastEngine.ProjectRiskScores | analysis/forecast_engine.py:46-66 | the two loops give exactly 7 scores, the padded computed scores of the first min(7, days) days |
| ForecastEngine.MomentumReadsPreviousScore | analysis/forecast_engine.py:58-62 | each day after the first blends its projection with the score appended the day before; the first day has no blend |
| ForecastEngine.ComputedScoresPrefix | analysis/forecast_engine.py:47-62 | computing more days never changes the days already computed |
| ForecastEngine.Forecast.constructor | analysis/forecast_engine.py:68-76 | the forecast holds the given dates, scores and weather series, and has no uncertainty bands yet |
| ForecastEngine.Build7DayForecast | analysis/forecast_engine.py:11-76 | 7 dates and 7 risk scores; each weather series is its padded slice with defaults 20/10/0/10/3; the scores are the padded projections over those series |
| ForecastEngine.ForecastScoresInRange | analysis/forecast_engine.py:46-66 | with the current risk in [0, 100], all 7 stored scores lie in [0, 100] |
| ForecastEngine.NoDatesGivesCurrentRisk | analysis/forecast_engine.py:64-66 | with no raw dates every one of the 7 scores is the current risk |
| Uncertainty.BaseWidth | analysis/uncertainty.py:16-19 | the base width is 5 for HIGH, 10 for MEDIUM or a missing confidence, 18 for LOW and 12 for any other value |
| Uncertainty.BandsBracketScore | analysis/uncertainty.py:25-27 | the upper band never exceeds 100 and the lower band is never negative; a score in [0, 100] already on one decimal lies between its bands |
| Uncertainty.DayWidthGrows | analysis/uncertainty.py:25 | the band widens by exactly 2.5 per forecast day |
| Uncertainty.BandsOf | analysis/uncertainty.py:21-27 | the loop gives one upper and one lower bound per score, each the bound for that score and day |
| Uncertainty.ComputeConfidenceBands | analysis/uncertainty.py:8-32 | the same forecast object is returned with both bands set, one entry per score, and band_confidence set to the confidence ("MEDIUM" when missing); dates, scores and weather series are unchanged |
| TrendAnalysis.Neutral | analysis/trend_analysis.py:81-88 | the neutral result is STABLE with slope 0.0 and p-value 1.0 |
| TrendAnalysis.PseudoPValue | analysis/trend_analysis.py:47 | the sigmoid pseudo p-value 2 / (1 + e^abs(t)) lies in (0, 1], and is 1 for t = 0 |
| TrendAnalysis.ComputeTrend | analysis/trend_analysis.py:14-78 | fewer than 3 scores give the neutral result; otherwise WORSENING exactly when slope > 0.3 and p < 0.1, IMPROVING exactly when slope < −0.3 and p < 0.1, with the slope and p-value reported rounded |
| TrendAnalysis.LinearSeriesIsStable | analysis/trend_analysis.py:41-47 | on an exact line the residuals vanish, the standard error is 0, so the t-statistic is 0 and the trend is STABLE whatever the slope |
| TrendAnalysis.LinearIntercept | analysis/trend_analysis.py:30-41 | on an exact line the least-squares slope and intercept recover the line |
| TrendAnalysis.LinearStdErrorZero | analysis/trend_analysis.py:41-44 | on an exact line the slope's standard error is 0 |
| TrendAnalysis.ZeroResidualStdError | analysis/trend_analysis.py:43-44 | zero residual sum of squares gives a zero standard error |
| TrendAnalysis.NoResidualNoError | analysis/trend_analysis.py:43-44 | with a positive spread of the day indices, a zero residual sum gives a zero standard error whatever the window length |
| TrendAnalysis.Sign | analysis/trend_analysis.py:118-122 | the contribution of one pair: +1 for a rise, −1 for a fall, 0 for a tie |
| TrendAnalysis.PairsBeforeClosed | analysis/trend_analysis.py:117 | the pairs with first index below i number i·n − i(i+1)/2 |
| TrendAnalysis.AllPairs | analysis/trend_analysis.py:117 | `combinations(range(n), 2)` has n(n−1)/2 pairs |
| TrendAnalysis.RowSBounds | analysis/trend_analysis.py:117-122 | the pairs starting at i contribute between −(j−i−1) and j−i−1 |
| TrendAnalysis.PartSBounds | analysis/trend_analysis.py:116-122 | S after the first i rows is bounded by the number of pairs so far |
| TrendAnalysis.SStatisticBounds | analysis/trend_analysis.py:116-122 | the absolute value of S never exceeds n(n−1)/2 |
| TrendAnalysis.RowSIncreasing | analysis/trend_analysis.py:117-122 | on a strictly increasing series every pair of a row counts +1 |
| TrendAnalysis.PartSIncreasing | analysis/trend_analysis.py:116-122 | on a strictly increasing series S after i rows equals the pairs so far |
| TrendAnalysis.SStatisticIncreasing | analysis/trend_analysis.py:116-122 | a strictly increasing series has the maximal S = n(n−1)/2 |
| TrendAnalysis.ComputeS | analysis/trend_analysis.py:116-122 | the nested loop computes S, the sum of the signs of all later-minus-earlier differences |
| TrendAnalysis.RowSConstant | analysis/trend_analysis.py:117-122 | on a constant series each row contributes 0 |
| TrendAnalysis.PartSConstant | analysis/trend_analysis.py:116-122 | on a constant series S stays 0 |
| TrendAnalysis.RunLengths | analysis/trend_analysis.py:126 | the run lengths of a sorted series are non-empty exactly for a non-empty series and sum to its length |
| TrendAnalysis.TieCounts | analysis/trend_analysis.py:126 | the tie-group counts of `np.unique` sum to the series length |
| TrendAnalysis.RunLengthsConstant | analysis/trend_analysis.py:126 | a constant series is one tie group of size n |
| TrendAnalysis.TieCorrection | analysis/trend_analysis.py:127-130 | the loop sums t(t−1)(2t+5) over the tie groups with t > 1 |
| TrendAnalysis.TieTermSuperadditive | analysis/trend_analysis.py:130-132 | merging two tie groups never lowers the correction |
| TrendAnalysis.TieTermNonNegative | analysis/trend_analysis.py:130 | each tie term is non-negative |
| TrendAnalysis.TieSumAtMostTotal | analysis/trend_analysis.py:127-132 | the tie correction lies between 0 and the term of a single group of all n values |
| TrendAnalysis.VarianceNonNegative | analysis/trend_analysis.py:132 | var_S is never negative, because the tie correction never exceeds n(n−1)(2n+5) |
| TrendAnalysis.ZScore | analysis/trend_analysis.py:135-142 | z is 0 when var_S is 0 or S is within 1 of 0; otherwise it has the sign of S (continuity-corrected) |
| TrendAnalysis.NormalPValue | analysis/trend_analysis.py:146 | the two-tailed p-value lies in [0, 2] and is 1 for z = 0 |
| TrendAnalysis.MannKendallOf | analysis/trend_analysis.py:95-162 | fewer than 3 values give S 0, var 0, z 0, p 1, no trend, not significant; otherwise S is the pairwise sign sum |
| TrendAnalysis.MannKendallTrendMatchesSign | analysis/trend_analysis.py:148-153 | increasing exactly when significant with S > 0, decreasing exactly when significant with S < 0, no trend exactly when not significant; S = 0 is never labelled decreasing |
| TrendAnalysis.MannKendallConstant | analysis/trend_analysis.py:115-153 | a constant series has S = 0, var_S = 0 and z = 0, so it shows no significant trend |
| TrendAnalysis.MannKendallTest | analysis/trend_analysis.py:95-162 | the loops compute exactly the Mann-Kendall result above |
| TrendAnalysis.RowSlopes | analysis/trend_analysis.py:185-188 | the pairs starting at i give j − i − 1 slopes |
| TrendAnalysis.PartSlopes | analysis/trend_analysis.py:184-188 | the slopes of the first i rows number the pairs so far |
| TrendAnalysis.PairwiseSlopes | analysis/trend_analysis.py:184-188 | the nested loop collects every pairwise slope in `combinations` order, n(n−1)/2 of them |
| TrendAnalysis.DifferenceOverGap | analysis/trend_analysis.py:188 | on a line, the difference over the index gap is the line's slope |
| TrendAnalysis.RowSlopesLinear | analysis/trend_analysis.py:185-188 | on a line every slope of a row is b |
| TrendAnalysis.PartSlopesLinear | analysis/trend_analysis.py:184-188 | on a line every pairwise slope is b |
| TrendAnalysis.Intercepts | analysis/trend_analysis.py:196 | one intercept per observation |
| TrendAnalysis.SensSlopeOf | analysis/trend_analysis.py:165-203 | below 2 values slope 0 and intercept the single value (or 0) with no slopes; otherwise n(n−1)/2 slopes |
| TrendAnalysis.SensSlopeLinear | analysis/trend_analysis.py:184-203 | on an exact line a + b·i, Sen's slope is round(b, 6) and the intercept round(a, 4) |
| TrendAnalysis.SensSlope | analysis/trend_analysis.py:165-203 | the method computes exactly the Theil-Sen result above |
| PredictiveAlerts.FirstAtLeast | analysis/predictive_alerts.py:42-62 | the first index whose score reaches the threshold lies inside the forecast |
| PredictiveAlerts.FirstAtLeastSpec | analysis/predictive_alerts.py:42-62 | the index found reaches the threshold and every earlier score is below it; none is found only when every score is below |
| PredictiveAlerts.CrossingDay | analysis/predictive_alerts.py:39-62 | no crossing is reported when the current score already meets the threshold; a reported day lies in 1..7 |
| PredictiveAlerts.CrossingDaySpec | analysis/predictive_alerts.py:49-62 | the reported day is the 1-based first day whose score reaches the threshold; with the current score below it, none is reported only when no day reaches it |
| PredictiveAlerts.RapidDaysSpec | analysis/predictive_alerts.py:73-82 | a rapid-increase alert is raised on day d exactly when d ≥ 2 and its score exceeds the previous day's by more than 15, in increasing day order |
| PredictiveAlerts.MaxOfSpec | analysis/predictive_alerts.py:36-47 | the running maximum is at least the current score and every forecast score, and is one of them |
| PredictiveAlerts.FirstHeat | analysis/predictive_alerts.py:85-97 | a heat alert ends at a day index of at least 2 inside the temperature list |
| PredictiveAlerts.FirstHeatSpec | analysis/predictive_alerts.py:85-97 | the heat alert is at the first index ending three consecutive days above 30 °C, and none is raised when no such window exists (the `break` keeps one) |
| PredictiveAlerts.CalmDays | analysis/predictive_alerts.py:101 | the calm-day count is at most the number of days |
| PredictiveAlerts.HeavyRainDaysSpec | analysis/predictive_alerts.py:113-115 | the heavy-rain days are exactly the 1-based days with more than 15 mm (a missing value counting as 0), in increasing order |
| PredictiveAlerts.TrajectoryOf | analysis/predictive_alerts.py:126-134 | stable below two scores; otherwise worsening exactly when the last score exceeds the first by more than 10, improving exactly when it is more than 10 below |
| PredictiveAlerts.DaysOfConcat | analysis/predictive_alerts.py:33-124 | the days of one alert kind in a concatenation of alert lists are the days in each part |
| PredictiveAlerts.ScanAlertsAppend | analysis/predictive_alerts.py:42-82 | each pass of the score loop appends that day's alerts and nothing else |
| PredictiveAlerts.ScanStep | analysis/predictive_alerts.py:42-82 | the alert days of one kind grow by the alerts of the new day |
| PredictiveAlerts.DaysOfSingle | analysis/predictive_alerts.py:52-82 | a single alert contributes its day to its own kind only |
| PredictiveAlerts.DayAlertsSplit | analysis/predictive_alerts.py:49-82 | one day's alerts are its warning crossing, its critical crossing and its jump, in that order |
| PredictiveAlerts.CrossingAlertDays | analysis/predictive_alerts.py:49-71 | a crossing alert is raised on the day of the first crossing only |
| PredictiveAlerts.RapidAlertDays | analysis/predictive_alerts.py:73-82 | a jump alert is raised on day i + 1 exactly when the score jumped by more than 15 |
| PredictiveAlerts.ScanCrossingDays | analysis/predictive_alerts.py:42-71 | the score loop raises a WARNING (CRITICAL) alert exactly at the reported crossing day, and at most one |
| PredictiveAlerts.ScanCrossingStep | analysis/predictive_alerts.py:49-71 | one more day of the loop adds a crossing alert only at the first crossing |
| PredictiveAlerts.ScanRapidDays | analysis/predictive_alerts.py:73-82 | the score loop's jump alerts are exactly the rapid days |
| PredictiveAlerts.ScanOnlyScoreAlerts | analysis/predictive_alerts.py:42-82 | the score loop raises no heat, calm or rain alerts |
| PredictiveAlerts.AllAlertsSplit | analysis/predictive_alerts.py:33-124 | the alert list is the score-loop alerts, then heat, then calm, then rain |
| PredictiveAlerts.HeatAlertDays | analysis/predictive_alerts.py:85-97 | the heat section raises at most one alert, at the first hot window |
| PredictiveAlerts.CalmAlertDays | analysis/predictive_alerts.py:99-110 | the calm-wind alert (day 0) is raised exactly when there is wind data and at least 3 days are calm |
| PredictiveAlerts.RainAlertDays | analysis/predictive_alerts.py:112-124 | the nutrient-flush alert is raised at the first heavy-rain day exactly when there is one |
| PredictiveAlerts.ScanAlertsByKind | analysis/predictive_alerts.py:42-82 | the score loop's alerts, kind by kind: the warning and critical crossing days and the rapid days |
| PredictiveAlerts.AllAlertsByKind | analysis/predictive_alerts.py:33-124 | the full alert list, kind by kind: at most one WARNING and one CRITICAL crossing at the reported days, one jump per rapid day, the first heat spell, the calm alert when 3+ days are calm, the flush at the first heavy-rain day |
| PredictiveAlerts.ConcatKinds | analysis/predictive_alerts.py:33-124 | when each section only holds its own kind, the days of a kind come from its section alone |
| PredictiveAlerts.ScanScores | analysis/predictive_alerts.py:33-82 | the score loop yields the scanned alerts, the running maximum and the two crossing days |
| PredictiveAlerts.HeatAlert | analysis/predictive_alerts.py:84-97 | the heat loop yields exactly the heat alerts, stopping at the first |
| PredictiveAlerts.CrossingDayStep | analysis/predictive_alerts.py:49-62 | extending the scanned prefix by one day keeps an earlier crossing and otherwise records this day if it crosses |
| PredictiveAlerts.MaxOfStep | analysis/predictive_alerts.py:46-47 | the running maximum is replaced only by a strictly larger score |
| PredictiveAlerts.BuildPredictiveAlerts | analysis/predictive_alerts.py:10-151 | the report holds all alerts, the two crossing days, the maximum rounded to one decimal, the trajectory, the alert count and the summary of the alerts |
| WhoComparison.RiskColor | analysis/who_comparison.py:18-26 | green below 25, yellow on [25, 50), orange on [50, 75), red from 75, each an if-and-only-if |
| WhoComparison.RiskColorMatchesClassifier | analysis/who_comparison.py:18-26 | the card's colour is always the risk classifier's colour for the same score |
| WhoComparison.ProximityOf | analysis/who_comparison.py:28-48 | below 20,000 cells/mL, exceeding low up to 100,000, exceeding moderate up to 10,000,000, far exceeding high otherwise, each an if-and-only-if |
| WhoComparison.ProximityMatchesSeverity | analysis/who_comparison.py:28-48 | the proximity text's band is the WHO severity's band for the same count, at the configured thresholds |
| WhoComparison.Digits | analysis/who_comparison.py:52 | the decimal digits of a count: non-empty, all digits, no leading zero |
| WhoComparison.DigitsRoundTrip | analysis/who_comparison.py:52 | reading the digits back gives the count |
| WhoComparison.Group | analysis/who_comparison.py:52 | grouping by thousands inserts one comma per full group of three after the first digit and nothing else |
| WhoComparison.UngroupGroup | analysis/who_comparison.py:52 | removing the commas from a grouped digit string gives it back |
| WhoComparison.FormatThousands | analysis/who_comparison.py:52 | `f"{n:,}"` is non-empty and starts with a minus sign exactly for negative counts |
| WhoComparison.FormatThousandsRoundTrip | analysis/who_comparison.py:52 | parsing the formatted count gives the count back |
| WhoComparison.FormatWhoComparison | analysis/who_comparison.py:8-56 | the card carries the configured WHO thresholds, the severity echoed, the formatted count that parses back to the estimate, the classifier's colour and the proximity band of the estimate |
| HistoricalComparison.ZScore | analysis/historical_comparison.py:60-63 | with a positive standard deviation the z-score times it is the deviation from the mean; the score is positive exactly when today is warmer than the mean and negative exactly when cooler, and zero without a positive spread |
| HistoricalComparison.SignOfQuotient | analysis/historical_comparison.py:60-63 | dividing by a positive spread keeps the sign of the deviation, in both directions |
| HistoricalComparison.PercentileBelow | analysis/historical_comparison.py:67-68 | the share of strictly cooler historical days is a percentage in [0, 100] |
| HistoricalComparison.PercentileBelowExtremes | analysis/historical_comparison.py:67-68 | the percentile is 0 exactly when no historical day is cooler and 100 exactly when every historical day is cooler |
| HistoricalComparison.CountLtNone | analysis/historical_comparison.py:68 | no value below today exactly when every value is at least today's |
| HistoricalComparison.CountLtEvery | analysis/historical_comparison.py:68 | every value below today exactly when the count equals the length |
| HistoricalComparison.ZFlag | analysis/historical_comparison.py:71-81 | a flag is raised exactly when the absolute z-score exceeds 1.5; it is red exactly beyond 2, records the absolute sigma, and says warmer exactly for a positive z |
| HistoricalComparison.FlagSentenceOf | analysis/historical_comparison.py:130-135 | the "within normal range" sentence exactly when there is no flag, otherwise the count of flags |
| HistoricalComparison.SummaryStats | analysis/historical_comparison.py:46-57 | the summary counts every historical day, has a standard deviation, and orders minimum, mean and maximum |
| HistoricalComparison.Flags | analysis/historical_comparison.py:71-105 | the z-score flag, if any, comes first; an Isolation Forest flag with its score is appended exactly when the forest calls today anomalous; at most two flags |
| HistoricalComparison.BuildHistoricalComparison | analysis/historical_comparison.py:12-139 | fewer than 30 days or no history gives the unavailable result; otherwise the result is available, carries the summary statistics, the z-score and percentile rounded as printed, the flags of that z-score, the forest verdict and a sentence whose flag count matches the flags |
| HistoricalComparison.RoundPercent | analysis/historical_comparison.py:69 | rounding a percentage to one decimal keeps it in [0, 100] |
| MultiSiteComparison.TemperatureAxis | analysis/multi_site_comparison.py:42 | the temperature axis lies in [0, 100]: 0 at or below 10 degrees, 100 at or above 35 |
| MultiSiteComparison.StagnationAxis | analysis/multi_site_comparison.py:44 | the stagnation axis lies in [0, 100]: 100 for no wind, 0 from 30 km/h |
| MultiSiteComparison.TemperatureAxisMonotone | analysis/multi_site_comparison.py:42 | warmer water never lowers the temperature axis |
| MultiSiteComparison.StagnationAxisAntitone | analysis/multi_site_comparison.py:44 | more wind never raises the stagnation axis |
| MultiSiteComparison.CappedAxis | analysis/multi_site_comparison.py:43-46 | the nutrient, light and growth axes are capped at 100 and otherwise unchanged |
| MultiSiteComparison.RadarOf | analysis/multi_site_comparison.py:41-47 | temperature and stagnation axes in [0, 100]; the other three at most 100 |
| MultiSiteComparison.SiteRecordOf | analysis/multi_site_comparison.py:22-48 | each field is the pipeline's value or the source's default (score 0, "SAFE", "#2ecc71", "STABLE", "LOW", water 0), and the radar is that site's radar |
| MultiSiteComparison.InsertByScore | analysis/multi_site_comparison.py:51 | inserting one site into the ranking adds exactly one index, all valid |
| MultiSiteComparison.InsertByScoreMembers | analysis/multi_site_comparison.py:51 | the insertion holds exactly the inserted site and the sites already there |
| MultiSiteComparison.OrderedCons | analysis/multi_site_comparison.py:51 | a site ranked before every ranked site can be put in front of an ordered ranking |
| MultiSiteComparison.InsertByScoreOrdered | analysis/multi_site_comparison.py:51 | inserting a later site keeps the ranking ordered by descending score, ties in input order |
| MultiSiteComparison.RankOrder | analysis/multi_site_comparison.py:51 | the stable descending sort of the first n sites has n valid indices |
| MultiSiteComparison.RankOrderSpec | analysis/multi_site_comparison.py:51 | that sort is ordered by descending score with ties in input order, holds every site and no site twice |
| MultiSiteComparison.Scores | analysis/multi_site_comparison.py:51 | the sort key of each site is its risk score |
| MultiSiteComparison.SiteOrder | analysis/multi_site_comparison.py:51 | the sorted order is one valid index per site |
| MultiSiteComparison.Ranking | analysis/multi_site_comparison.py:56-59 | ranks run 1, 2, ... and each entry carries the key, score and level of the site sorted into that place |
| MultiSiteComparison.RankingOrdered | analysis/multi_site_comparison.py:51 | the ranking never rises in score, and equal scores keep the input order, as Python's stable `sorted(..., reverse=True)` does |
| MultiSiteComparison.RankingIsPermutation | analysis/multi_site_comparison.py:51 | every site is ranked exactly once |
| MultiSiteComparison.BuildMultiSiteComparison | analysis/multi_site_comparison.py:8-60 | no input gives the unavailable result; otherwise one record per site in input order and the ranking of those records |
| FeaturePipeline.DaysSinceSignificantRain | features/feature_pipeline.py:96-109 | the count is the length of the run of dry days (below 5 mm or missing) that ends the series: every counted day is dry and the day before them, if any, is wet |
| FeaturePipeline.RainSeries | features/feature_pipeline.py:98-109 | the rainfall history is walked when it has rows, the daily precipitation list otherwise |
| FeaturePipeline.Rain48hAtMost7d | features/feature_pipeline.py:92-94 | with no negative readings, the 48-hour total is non-negative and never exceeds the 7-day total |
| FeaturePipeline.PresentSumNonNegative | features/feature_pipeline.py:93 | a sum of non-negative readings, skipping missing ones, is non-negative |
| FeaturePipeline.PresentSumSuffix | features/feature_pipeline.py:93-94 | dropping older non-negative readings cannot raise the total |
| FeaturePipeline.RainfallDeficit | features/feature_pipeline.py:111-117 | 30 mm without rainfall history; otherwise non-negative, zero exactly when the 30-day total reaches 75 mm, and with the total at least 75 mm |
| FeaturePipeline.RainfallDeficitAtMost75 | features/feature_pipeline.py:112-115 | with non-negative readings the deficit never exceeds 75 mm |
| FeaturePipeline.RecentMean | features/feature_pipeline.py:55-58 | missing exactly when the last k entries hold no value; otherwise between their smallest and largest value |
| FeaturePipeline.AvgWind7d | features/feature_pipeline.py:80-82 | 10 km/h when the last 168 hours hold no reading, otherwise between the smallest and largest of those readings |
| FeaturePipeline.DiurnalRange | features/feature_pipeline.py:51-62 | 8 degrees when either recent list is empty of values, otherwise the recent mean maximum minus the recent mean minimum |
| FeaturePipeline.DiurnalRangeNonNegative | features/feature_pipeline.py:51-62 | when every recent maximum is at least every recent minimum the range is not negative |
| FeaturePipeline.StagnationIndex | features/feature_pipeline.py:119-120 | the index lies in [0, 1] and reaches 1 after two dry weeks without wind |
| FeaturePipeline.StagnationIndexMonotone | features/feature_pipeline.py:120 | more dry days or less wind never lowers the index |
| FeaturePipeline.RoundedStagnationIndexInRange | features/feature_pipeline.py:133 | the index rounded to three decimals stays in [0, 1] |
| FeaturePipeline.TemperatureFactors | features/feature_pipeline.py:220-228 | warm water exactly from 25 degrees; above normal exactly beyond +2 and below normal exactly beyond -2; nothing else, at most two |
| FeaturePipeline.StagnationFactors | features/feature_pipeline.py:123-126 | low wind exactly below 8 km/h, a dry spell exactly beyond 7 days, nothing else |
| FeaturePipeline.NutrientFactors | features/feature_pipeline.py:142-148 | high agriculture exactly above 25 %, urban runoff exactly above 10 %, a rain flush exactly within 2 days of rain after more than 10 mm in 48 hours |
| FeaturePipeline.LightFactors | features/feature_pipeline.py:171-174 | high UV exactly above 6, clear skies exactly below 30 % cloud |
| FeaturePipeline.SeasonalAnomaly | features/feature_pipeline.py:191-202 | with no history or fewer than 30 rows, today's temperature rounded to one decimal and no anomaly; otherwise the last-day baseline and anomaly of the temperature features |
| FeaturePipeline.TempColumn | features/feature_pipeline.py:197 | the temperature column has one entry per history row, that row's mean temperature |
| FeaturePipeline.DoyColumn | features/feature_pipeline.py:198 | the day-of-year column has one entry per history row, that row's day |
| FeaturePipeline.BuildFeatureVector | features/feature_pipeline.py:20-186 | every block of the vector is the corresponding feature of the raw bundle with the source's defaults (20 degrees air, 3 UV, 50 % cloud, latitude 45, 0 land use): the air temperature is echoed in the temperature block, all four land-use shares become percentages, the water temperature is shared by the blocks and non-negative, and the stagnation index lies in [0, 1] |
| DataFetch.KeyNamesDistinct | data_fetch/data_pipeline.py:99-186 | the five error keys ("weather", "historical_temp", "rainfall_history", "land_use", "cyfi") are pairwise distinct, so each source owns one entry |
| DataFetch.ConfidenceTier | data_fetch/data_pipeline.py:40-48 | HIGH exactly when at most one source failed, MEDIUM exactly when two failed, LOW exactly when three or more failed |
| DataFetch.QualityOf | data_fetch/data_pipeline.py:57-62 | the sources ok and the failures add up to the five sources, the errors are echoed, and confidence is HIGH exactly with at most one failure |
| DataFetch.SourcesOkInRange | data_fetch/data_pipeline.py:40-59 | at most five errors can be recorded, so between 0 and 5 sources count as ok |
| DataFetch.CurrentOf | data_fetch/data_pipeline.py:74-82 | the current block takes each reading or its default (0, and 180 degrees for the wind direction) |
| DataFetch.DailyOf | data_fetch/data_pipeline.py:85-92 | the daily block takes each forecast list, or the empty list when it is missing |
| DataFetch.DropMissingMean | data_fetch/data_pipeline.py:119 | dropping days without a mean temperature keeps exactly the measured days, and keeps every day when none is missing |
| DataFetch.HistoricalFrame | data_fetch/data_pipeline.py:113-120 | the frame is built exactly when the four columns have the same length, and keeps only dates of the response |
| DataFetch.RainfallFrame | data_fetch/data_pipeline.py:135-140 | the frame is built exactly when the three columns have the same length, with one row per date carrying that day's values |
| DataFetch.BandOf | data_fetch/data_pipeline.py:163-171 | the latitude band: polar beyond 60 degrees, boreal beyond 45, temperate beyond 25, tropical otherwise, each an if-and-only-if |
| DataFetch.HeuristicLandUse | data_fetch/data_pipeline.py:160-171 | exactly the four land classes, each strictly between 0 and 1, summing below 1; forest dominates cropland exactly in the polar band |
| DataFetch.HeuristicSymmetric | data_fetch/data_pipeline.py:163 | the guess depends on the absolute latitude only |
| DataFetch.HeuristicIsPositive | data_fetch/data_pipeline.py:151-158 | the fallback always has a positive share |
| DataFetch.GridGeometry | data_fetch/data_pipeline.py:196-207 | every grid point is within 0.01 degree of the location on each axis, the middle point is the location and no two points coincide |
| DataFetch.WeatherResult | data_fetch/data_pipeline.py:69-101 | no weather exactly when either call raised; otherwise the current and daily blocks of the two responses |
| DataFetch.WeatherError | data_fetch/data_pipeline.py:99-101 | the weather key is recorded exactly when the weather is missing, with the message of the call that raised |
| DataFetch.HistoricalResult | data_fetch/data_pipeline.py:104-123 | no history exactly when the call raised or the columns differ in length; otherwise the frame |
| DataFetch.HistoricalError | data_fetch/data_pipeline.py:121-123 | the historical key is recorded exactly when there is no history, with the call's message or the length-mismatch message |
| DataFetch.RainfallResult | data_fetch/data_pipeline.py:126-143 | no rainfall history exactly when the call raised or the columns differ in length; otherwise the frame |
| DataFetch.RainfallError | data_fetch/data_pipeline.py:141-143 | the rainfall key is recorded exactly when there is no rainfall history, with the call's message or the length-mismatch message |
| DataFetch.LandUseResult | data_fetch/data_pipeline.py:146-158 | the raster's shares when it read and had a positive share, the latitude heuristic otherwise; always some positive share |
| DataFetch.LandUseError | data_fetch/data_pipeline.py:157 | the land-use message is recorded exactly when the heuristic is used |
| DataFetch.CyfiResult | data_fetch/data_pipeline.py:174-186 | the prediction tagged "cyfi_api" when it has a cell count, otherwise all fields missing and source "none"; a count is present exactly with source "cyfi_api" |
| DataFetch.CyfiError | data_fetch/data_pipeline.py:185 | the CyFi message is recorded exactly when no cell count came back |
| DataFetch.FetchErrorsRecordFailures | data_fetch/data_pipeline.py:31-36 | after one full fetch each source's key is present exactly when that source failed or fell back |
| DataFetch.MergedKeys | data_fetch/data_pipeline.py:31-36 | in the merge of the five single-source error dictionaries each key comes from its own source |
| DataFetch.DataPipeline.constructor | data_fetch/data_pipeline.py:26-28 | a new pipeline has no errors |
| DataFetch.DataPipeline.FetchWeather | data_fetch/data_pipeline.py:69-101 | returns the weather result and adds the weather error, if any, to the errors already recorded |
| DataFetch.DataPipeline.FetchHistorical | data_fetch/data_pipeline.py:104-123 | returns the historical result and adds its error, if any |
| DataFetch.DataPipeline.FetchRainfallHistory | data_fetch/data_pipeline.py:126-143 | returns the rainfall result and adds its error, if any |
| DataFetch.DataPipeline.FetchLandUse | data_fetch/data_pipeline.py:146-158 | returns the raster or heuristic shares and adds the land-use message when the heuristic is used |
| DataFetch.DataPipeline.FetchCyfi | data_fetch/data_pipeline.py:174-186 | returns the CyFi report and adds the CyFi message when no cell count came back |
| DataFetch.DataPipeline.BuildThermalGrid | data_fetch/data_pipeline.py:189-208 | 25 points, the k-th at row k / 5 and column k % 5, 0.005 degree apart, with the base temperature plus the k-th noise value rounded to one decimal |
| DataFetch.DataPipeline.FetchSources | data_fetch/data_pipeline.py:31-36 | the five results in order, with this call's errors merged into those already recorded |
| DataFetch.DataPipeline.FetchAll | data_fetch/data_pipeline.py:31-66 | the raw bundle holds the five results, the 25-point grid and a quality block computed from every error recorded on the object (so between 0 and 5 sources ok) |
| CyfiClient.CacheKey | cyfi_client.py:40-41 | the key is the two rendered coordinates and the date joined by two underscores |
| CyfiClient.CacheKeyInjective | cyfi_client.py:40-41 | two requests share a cache key exactly when their rendered coordinates and dates agree |
| CyfiClient.SplitAtSeparator | cyfi_client.py:41 | a prefix free of underscores followed by an underscore is determined by the string |
| CyfiClient.NoSeparatorBefore | cyfi_client.py:41 | the first underscore of the key comes right after the rendered latitude |
| CyfiClient.ClassifyWhoSeverity | cyfi_client.py:46-55 | "Low" below 20,000 cells/mL, "Moderate" below 100,000, "High" below 10,000,000, "Very High" otherwise, each an if-and-only-if on the WHO table's thresholds |
| CyfiClient.ClassifyAgreesWithBloomModel | cyfi_client.py:46-55 | on whole counts the client's four labels coincide with the bloom model's WHO severity levels |
| CyfiClient.ParseApiResponse | cyfi_client.py:57-81 | a prediction exactly when the call answered with a `cells_per_mL` key whose severity can be had; a missing severity is classified from the count and a missing timestamp is the request date, present ones are kept |
| CyfiClient.FieldsOf | cyfi_client.py:99-103 | the answer from a cached entry carries the entry's three fields |
| CyfiClient.Stored | cyfi_client.py:107-109 | a fetched prediction is stored with its fields and the fetch time as `cache_timestamp` |
| CyfiClient.Respond | cyfi_client.py:94-130 | a fresh cache hit answers from the cache and leaves it unchanged; otherwise a fetched prediction is answered and stored under the key; otherwise a stale entry is served, else all fields are missing; no other key is touched |
| CyfiClient.FreshHitIgnoresEndpoint | cyfi_client.py:96-103 | a fresh hit never depends on what the endpoint would say |
| CyfiClient.FetchThenHit | cyfi_client.py:105-115 | after a successful fetch, the same request within the hour is a fresh hit answering the same fields |
| CyfiClient.FallbackOrder | cyfi_client.py:117-130 | when the endpoint fails a stale entry is served, and with no entry every field is missing and the cache is unchanged |
| CyfiClient.CyFiClient.constructor | cyfi_client.py:17-30 | the client starts with the loaded cache (empty when the file is absent or corrupt) |
| CyfiClient.CyFiClient.GetCyfiPrediction | cyfi_client.py:83-130 | the answer and the new cache are those of one request against the old cache at the request's key |
| WeatherClient.StrLessIrreflexive | weather_client.py:22 | no keyword name sorts before itself |
| WeatherClient.StrLessTransitive | weather_client.py:22 | the string order used by `sorted` is transitive |
| WeatherClient.StrLessTotal | weather_client.py:22 | any two distinct names are ordered one way or the other |
| WeatherClient.StrLessAsymmetric | weather_client.py:22 | two names are never ordered both ways |
| WeatherClient.InsertItem | weather_client.py:22 | inserting a keyword item adds exactly that item |
| WeatherClient.SortItems | weather_client.py:22 | sorting the keyword items is a permutation of them |
| WeatherClient.InsertItemSorted | weather_client.py:22 | inserting an item with a new name into a sorted list keeps it strictly sorted |
| WeatherClient.SortItemsSorted | weather_client.py:22 | keyword items with distinct names come out strictly sorted by name |
| WeatherClient.SortedTail | weather_client.py:22 | the tail of a strictly sorted list is strictly sorted |
| WeatherClient.SortedUnique | weather_client.py:22 | two strictly sorted lists with the same items are equal |
| WeatherClient.KeyOf | weather_client.py:22 | the memo key keeps the positional arguments and a permutation of the keyword items |
| WeatherClient.KeyIgnoresKeywordOrder | weather_client.py:22 | the same keyword arguments in any order give the same memo key |
| WeatherClient.MemoCall | weather_client.py:21-30 | a call adds at most its own key and leaves every other entry alone; on a miss the answer is what the function did |
| WeatherClient.HitSkipsCall | weather_client.py:24-27 | a hit returns the stored result, leaves the memo unchanged and never depends on the function |
| WeatherClient.ExpiryIsStrict | weather_client.py:26-29 | an entry exactly the time to live old is stale: the function is called and its result replaces the entry |
| WeatherClient.CallThenHit | weather_client.py:28-30 | a value computed at one moment answers every call with the same key until the time to live has passed |
| WeatherClient.TtlCache.constructor | weather_client.py:17-19 | a new memo is empty, with the decorator's time to live |
| WeatherClient.TtlCache.Call | weather_client.py:21-30 | the answer and the new memo are those of one wrapped call at the call's key |
| WeatherClient.ValidateResponse | weather_client.py:49-60 | accepted exactly when the status is 200 and the parsed body holds one of the four weather keys by Python's `in`: a key of an object, an element of an array or a substring of a string; a bad status and invalid JSON are reported as such, and a number, boolean or null body raises TypeError (NotIterable); an object is accepted exactly when it shares a key with the four |
| DemoSites.CatalogueOf | config/demo_sites.py:6-229 | the catalogue has 24 sites, under the 24 keys in the source's order |
| DemoSites.DescriptionAt | config/demo_sites.py:6-229 | a site has a description exactly when one is supplied for its position |
| DemoSites.Keys | config/demo_sites.py:245 | `list(DEMO_SITES.keys())`: one key per site, in catalogue order |
| DemoSites.SiteKeysDistinct | config/demo_sites.py:6-229 | the 24 site keys are pairwise distinct |
| DemoSites.CatalogueKeysDistinct | config/demo_sites.py:6-229 | no two catalogue entries share a key, so the dictionary literal loses no site |
| DemoSites.CatalogueLatitudesValid | config/demo_sites.py:6-229 | every site's latitude lies in [-90, 90] |
| DemoSites.CatalogueLongitudesValid | config/demo_sites.py:6-229 | every site's longitude lies in [-180, 180] |
| DemoSites.CatalogueLabelled | config/demo_sites.py:6-229 | every site has a description and an expected risk of "HIGH RISK" or "LOW RISK" |
| DemoSites.Lookup | config/demo_sites.py:234 | `DEMO_SITES[key]`: missing exactly when no entry has the key, otherwise an entry under that key |
| DemoSites.LookupFindsEntry | config/demo_sites.py:234 | with distinct keys, looking up an entry's key gives that entry's site |
| DemoSites.GetSiteDisplayName | config/demo_sites.py:232-235 | "City, Country — Site Name" of the site under the key, and no name exactly when the key is unknown (where the source raises `KeyError`) |
| DemoSites.DisplayNameOfEachSite | config/demo_sites.py:232-235 | every catalogue key has its own site's display name |
| DemoSites.MatchingPositions | config/demo_sites.py:247-253 | the positions of exactly the matching entries, in increasing order |
| DemoSites.Filter | config/demo_sites.py:246-254 | the keys of the matching entries, in catalogue order |
| DemoSites.SearchSites | config/demo_sites.py:238-254 | the loop returns the search result: every key for a blank query, otherwise the matching keys in order |
| DemoSites.BlankQueryReturnsAll | config/demo_sites.py:243-245 | a query of only whitespace returns every key in catalogue order |
| DemoSites.SearchMembership | config/demo_sites.py:246-253 | for a non-blank query a key is returned exactly when its entry's lower-cased city, country, name, description and key, joined by spaces, contain the lower-cased stripped query |
| DemoSites.SearchNoDuplicates | config/demo_sites.py:246-254 | with distinct keys no key is returned twice |
| DemoSites.ContainsInLoweredHead | config/demo_sites.py:248-252 | a query found in the lowered start of the searchable text is found in the whole of it |
| DemoSites.MatchInHead | config/demo_sites.py:248-252 | a query found in the lowered city, country and name matches the entry |
| DemoSites.UsaLakeNormalised | config/demo_sites.py:243 | "usa lake" is unchanged by lower-casing and stripping |
| DemoSites.SpanningOccurrence | config/demo_sites.py:248-251 | a query spanning the space between two joined fields occurs in the joined text |
| DemoSites.LoweredToledo | config/demo_sites.py:8-11 | "usa lake" occurs in the lowered "Toledo USA Lake Erie — Western Basin" at position 7 |
| DemoSites.UsaLakeFindsLakeErie | config/demo_sites.py:238-254 | searching "usa lake" returns "lake_erie", a match that spans the country and name fields |
| Text.LeadingSpaces | config/demo_sites.py:243 | the length of the whitespace run that starts the string |
| Text.TrailingSpaces | config/demo_sites.py:243 | the length of the whitespace run that ends the string |
| Text.Strip | config/demo_sites.py:243 | `str.strip()`: empty exactly for an all-whitespace string, otherwise neither starting nor ending with whitespace, and a contiguous part of the input |
| Text.StripRemovesOnlySpace | config/demo_sites.py:243 | stripping removes only whitespace, from both ends |
| Text.StripIdempotent | config/demo_sites.py:243 | stripping twice is stripping once |
| Text.LowerChar | config/demo_sites.py:243 | capital ASCII letters (A to Z) and the Latin-1 capitals À to Þ other than × are raised by 32 code points to their small letters; every other character stays |
| Text.Lower | config/demo_sites.py:243 | `str.lower()` keeps the length and lowers each character |
| Text.Contains | config/demo_sites.py:252 | `q in s` exactly when `q` occurs at some position of `s` |
| Text.WitnessIndex | config/demo_sites.py:252 | a position where the query occurs, when it occurs at all |
| ReportGenerator.DeleteAll | visualization/report_generator.py:374 | `str.replace(pat, "")` never lengthens the text and only keeps characters it had |
| ReportGenerator.DropStars | visualization/report_generator.py:374 | the text with exactly its asterisks removed |
| ReportGenerator.DeleteStarIsDropStars | visualization/report_generator.py:374 | removing every "*" removes exactly the asterisks |
| ReportGenerator.DeletePairsKeepsNonStars | visualization/report_generator.py:374 | removing "**" first changes no character other than asterisks |
| ReportGenerator.StarsRemoved | visualization/report_generator.py:374 | the two replacements together remove exactly the asterisks, whatever their grouping |
| ReportGenerator.DeleteAbsentPattern | visualization/report_generator.py:374 | a pattern starting with "*" leaves a text without asterisks unchanged |
| ReportGenerator.Latin1Only | visualization/report_generator.py:375 | the regular-expression substitution keeps exactly the characters up to U+00FF |
| ReportGenerator.Latin1OnlyKeeps | visualization/report_generator.py:375 | a text already in Latin-1 is unchanged |
| ReportGenerator.Safe | visualization/report_generator.py:371-376 | the sanitised text has no asterisk and no character beyond Latin-1, neither starts nor ends with whitespace, and only holds characters of the input |
| ReportGenerator.SafeIdempotent | visualization/report_generator.py:371-376 | sanitising twice is sanitising once |
| ReportGenerator.ScoreColor | visualization/report_generator.py:337-345 | red exactly from 75, green exactly below 25 |
| ReportGenerator.RowLevel | visualization/report_generator.py:132 | CRITICAL from 75, WARNING on [50, 75), LOW on [25, 50), SAFE below 25, each an if-and-only-if |
| ReportGenerator.ScoreColorAgreesWithRowLevel | visualization/report_generator.py:337-353 | a score's bar colour is the risk-box colour of its forecast-row level |
| ReportGenerator.RowLevelIsConfiguredBand | visualization/report_generator.py:132 | on [0, 100] the printed level is the name of the configured risk band that holds the score |
| ReportGenerator.ForecastTable | visualization/report_generator.py:127-136 | no table exactly when either list is empty; otherwise one row per pair of `zip(dates, scores)`, with that score's level |
| ReportGenerator.IntSumConstant | visualization/report_generator.py:321 | k equal widths sum to k times the width |
| ReportGenerator.HeaderWidthsFillPage | visualization/report_generator.py:315-324 | the header fails exactly with no columns; otherwise the widths fill 190 mm exactly, all but the last are `190 // k`, and the last is wider by the remainder `190 % k` |
| ReportGenerator.TableHeaderWidths | visualization/report_generator.py:319-321 | the array computation gives the header widths of that many columns |
| ReportGenerator.DrawBar | visualization/report_generator.py:328-334 | a rectangle exactly for a positive width, at most 108 wide and never wider than asked, exact when the width fits, in the given colour or the default blue |
| ReportGenerator.Trunc | visualization/report_generator.py:174 | Python's `int()` on a float: truncation toward zero, on both signs |
| ReportGenerator.ProbabilityBar | visualization/report_generator.py:174-180 | a probability's bar width lies in [0, 110], and no bar is drawn exactly when the probability times 110 is below 1 |
| AppHelpers.Normalize | app.py:874-876 | the clipped quotient lies in [0, 1], and is 0 at or below the lower bound of a proper range |
| AppHelpers.NormalizeMonotone | app.py:874-876 | on a proper range normalising preserves order, maps the lower bound to 0, stays below 1 inside the range, and saturates at 1 from the upper bound plus 1e-9 |
| AppHelpers.QuotientMonotone | app.py:876 | dividing by the positive range width preserves order |
| AppHelpers.QuotientBelowOne | app.py:876 | an offset below the range width gives a quotient below 1 |
| AppHelpers.QuotientAtLeastOne | app.py:876 | an offset of at least the range width gives a quotient of at least 1 |
| AppHelpers.RiskLevelLabel | app.py:1314-1321 | "Low" exactly below 30, "Moderate" exactly on [30, 60), "High" exactly from 60 |
| AppHelpers.QuickViewBandsDifferFromClassifier | app.py:1314-1321 | the quick-view label and the risk classifier disagree: a score on [25, 30) is "Low" here but LOW-band only there, and a score on [60, 75) is "High" here while the classifier says WARNING |
| AppHelpers.TrendPointBounds | app.py:866-869 | each proxy risk, the logistic of the temperature terms times 100 rounded to one decimal, lies in [0, 100] |
| AppHelpers.TrendPoints | app.py:866-869 | one proxy risk per recent row, in row order |
| AppHelpers.TrendSeries | app.py:847-871 | the series is never empty and ends with the current score; it is just the current score without at least 10 historical days; otherwise it covers the last 30 days, with or without the appended current score |
| AppHelpers.FlatHistoryRepeatsCurrent | app.py:859-862 | a recent window of one repeated temperature gives the current score once per recent row |
| AppHelpers.VaryingSeries | app.py:864-871 | when the recent temperatures vary, their sample deviation is present and nonzero and the series is the proxy risks of the recent rows followed by the current score |
| AppHelpers.TrendPointsBounds | app.py:866-869 | every proxy risk of a recent row lies in [0, 100] |
| AppHelpers.VaryingHistoryScores | app.py:864-871 | when the recent temperatures vary, each recent row gets a proxy risk in [0, 100], followed by the current score |
| AppHelpers.BuildTrendSeries | app.py:847-871 | the row-by-row loop builds the trend series |
| AppHelpers.HourlyRiskScore | app.py:899-918 | each hour's stored score lies in [0, 1] |
| AppHelpers.HotAndWetNeverLowers | app.py:909-911 | the 20 % hot-and-wet boost never lowers the clipped, rounded score |
| AppHelpers.RowCount | app.py:896 | the row count is the length of the shortest of the four hourly lists |
| AppHelpers.RowsUpTo | app.py:897-919 | the first n rows, the i-th built from the i-th entry of each list |
| AppHelpers.HourlyRiskFrame | app.py:879-923 | as written: fails exactly when times and temperatures are present but the shortest list is empty; otherwise one row per hour up to the shortest list, and the empty table without weather, times or temperatures |
| AppHelpers.BuildHourlyRiskDf | app.py:879-923 | the hour-by-hour loop builds that frame, failing when no row was appended |
| AppHelpers.HourlyFrameFailsWithoutPrecipitation | app.py:896-922 | one hour of time, temperature and wind with an empty precipitation list makes the construction raise |
| AppHelpers.HourlyRiskTable | app.py:879-923 | corrected: agrees with the frame whenever that succeeds, has exactly one row per hour up to the shortest list, is empty without weather, times or temperatures, and every score lies in [0, 1] |
| AppHelpers.HourlyRowScore | app.py:899-918 | each row carries its hour's time and the clipped, rounded raw risk, which is 1.2 times the weighted geometric mean exactly for hot and wet hours |
| AppHelpers.TrendLabel | app.py:1812-1815 | "Increasing" exactly when significant with positive tau, "Decreasing" exactly when significant otherwise, "No significant trend" exactly when p is at least 0.05 |
| AppHelpers.HourlyTrendOf | app.py:1797-1819 | no panel exactly with fewer than 2 hourly rows; "Insufficient data" with slope 0, tau 0 and p 1 below 10 points; otherwise a direction label |
| AppHelpers.HourlySlopeOfLinearWindow | app.py:1801-1810 | when the last 24 scores lie on a line, the median pairwise slope is that line's slope |
| AppHelpers.HourlyTrendPanel | app.py:1797-1819 | the double loop over pairs builds the hourly trend panel |

## Left out

- Network, file and clock I/O are outside the model. The Open-Meteo and CyFi HTTP calls, the rasterio land-use read and `time.time()` / `datetime.now()` are parameters: outcomes, parsed answers and clock readings. Reading and saving the CyFi JSON cache file is not part of this model.
- Random noise is a parameter: the thermal grid's temperature noise is a sequence of given values.
- Transcendental functions and Python `round` are not re-implemented. They are fields of `Numerics.Ops`, and each proof assumes only the laws it names. IEEE floating point (rounding error, infinities, NaN propagation beyond "missing") is modelled as exact `real` arithmetic.
- The least-squares harmonic fit in `seasonal_baseline` (temperature_features.py:41-59) is a parameter, because it is numerical linear algebra. Only the degraded branch and the output length are modelled.
- `compute_temperature_features` (temperature_features.py:209-249) is not modelled. It is a dict wrapper around `extract_all_features`, which is modelled.
- The exception fallback of `_compute_seasonal_anomaly_via_tf` (features/feature_pipeline.py:203-217) is not modelled. The model covers the guard and the regular path only.
- The Isolation Forest (analysis/historical_comparison.py:84-107) is not modelled. Its verdict is a parameter; only how the verdict becomes a flag is modelled.
- The yearly-average groupby (analysis/historical_comparison.py:109-122) is not modelled, because it is pandas plumbing that no other part reads.
- Unused inputs of `build_historical_comparison` are omitted.
- `kendalltau` in the dashboard's hourly trend is a parameter (its tau and p). `pd.to_datetime` is not modelled: times stay strings.
- `models/ml_risk_model.py` (scikit-learn), `analysis/nl_summary.py` (clock-stamped prose) and `alert_delivery.py` (messaging) are not part of this model. Neither are the spatial-risk modules, the random heat-map grids, `land_use_reader.py`, the Plotly/matplotlib/folium figures, the PDF page layout and the Streamlit page body.
- Prose and number formatting are reduced to datatypes:
  - advisory lines, comparison sentences and alert messages carry their parameters rather than their wording;
  - the WHO card's thousands separators are the one rendering that is modelled as text.
- Text.LowerChar / Text.Lower: `str.lower` is modelled for ASCII and Latin-1 capitals only, the characters the site catalogue uses. Other Unicode case mappings are left out, such as the Kelvin sign to 'k' and mappings that change the length ('İ').
- The catalogue's description texts are a parameter of `DemoSites.CatalogueOf`. Every catalogue fact is proved for any descriptions, and the keys, names, cities, countries, coordinates and labels are written out.
- Python dicts are records with optional fields, or maps keyed by an enumeration (the pipeline's five error keys). A missing `"hourly"` block and a block with empty lists are the same input to the hourly helpers.
- DataFetch.CurrentOf: a JSON null reading in the current-weather block is read as the key's default (0, or 180 for the wind direction). In the code, `.get(key, 0)` returns the null itself (data_fetch/data_pipeline.py:75-81), and the feature pipeline then raises a TypeError in `estimate_water_temp` (features/feature_pipeline.py:36-39). The model does not distinguish a null reading from a missing key, so that failure is not modelled.
- CyfiClient.Respond: a cached entry whose `cache_timestamp` is a JSON null is treated as stale (its timestamp read as 0). In the code, `_is_cache_fresh` raises a TypeError on it (cyfi_client.py:43-44, 98). The model does not capture that failure.
- Raising an exception is an `Err`/`Raised` value. Tracebacks and exception types are not modelled.
- Concurrency is not modelled: Streamlit reruns and sharing the memo between threads are out of scope.

## Findings

| source | as written | input that shows it | evidently intended | confidence | as-written member | corrected member |
|---|---|---|---|---|---|---|
| app.py:896-922 | the row count is the minimum of the four hourly list lengths, so an empty precipitation or wind list gives no rows; the frame then has no "time" column and `df["time"]` raises KeyError outside any try | hourly block with one time "2024-07-01T00:00", temperature 20.0, wind 3.0 and an empty precipitation list | an empty hourly table, as when the times or temperatures are missing | not executed | AppHelpers.HourlyFrameFailsWithoutPrecipitation | AppHelpers.HourlyRiskTable |
