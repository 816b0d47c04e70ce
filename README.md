# SensorAnalyzer: a verified model of the QorSense analysis engine

QorSense rates the health of an industrial sensor from a series of readings.
Its engine, the `SensorAnalyzer` class in `backend/analysis.py`, runs one fixed
pipeline. It fills gaps and removes spikes. It splits the signal into a trend
and residuals. It measures bias, slope, noise, hysteresis and a detrended
fluctuation analysis (DFA) exponent. A rule engine turns those metrics into a
score from 0 to 100 with a Green/Yellow/Red status, a diagnosis, flags and a
recommendation. A linear projection of the trend gives a remaining-useful-life
(RUL) estimate.

This project models that pipeline in Dafny and proves what the code promises
about it. Numbers are exact `real`s. A missing reading (NaN) is `None`.

Modules, one per stage:

- `Wrappers`: `Option`, and `Result` with the error cases.
- `Stats`: sums, means, variance, peak-to-peak, ordinary least squares.
- `Config`: the `SensorConfig` record and its defaults (0.1, 0.05, 2.0, 1.0,
  1.5, 0.5, 0.8, 50).
- `External`: the library routines taken as given functions.
- `Preprocess`: the pandas gap fill and the zero-padded scipy median filter.
- `Decompose`: the Savitzky–Golay window and order arithmetic, and the trend.
- `Metrics`: bias, slope and hysteresis.
- `Dfa`: DFA, with its nested loops over scales and segments as methods.
- `Rul`: time buckets and texts of the RUL estimate.
- `Health`: the scoring rules as functions.
- `Analyzer`: the `SensorAnalyzer` class. It holds the configuration, fixed at
  construction. Its methods follow the source's imperative steps, and each is
  proved equal to a specification function.

The scorer keeps the source's shape: score, diagnosis list, flag list and
recommendation are updated check by check. Each check method is proved to
append exactly its rule's flags and messages and to subtract exactly its
rule's penalties. `GetHealthScore` is proved equal to `Health.Score`, and the
properties of the verdict are lemmas about `Score`. In the same way, `Analyze`
is proved equal to `AnalysisOf`, and `CalcDfa` to `DfaSpec`.

## Model

| member | source | states |
|---|---|---|
| Analyzer.SensorAnalyzer.constructor | backend/analysis.py:12-13 | the analyzer keeps the configuration it is given |
| Analyzer.SensorAnalyzer.Preprocessing | backend/analysis.py:15-35 | fails exactly when there are fewer than min_data_points readings (InsufficientData with the count and the minimum) or none is present (NoValidReadings); otherwise returns as many cleaned values as there were readings |
| Preprocess.Lerp | backend/analysis.py:29 | the linear interpolation between two readings takes the first reading at its index and the second at its index |
| Preprocess.Interpolate | backend/analysis.py:29 | the interpolation stage keeps the length and every present reading |
| Preprocess.BFill | backend/analysis.py:29 | after bfill a position is still missing exactly when no reading is present at or after it |
| Preprocess.FFill | backend/analysis.py:29 | after ffill a position is still missing exactly when no reading is present at or before it |
| Preprocess.GapFill | backend/analysis.py:29 | interpolate, then bfill, then ffill, in the source's order, keeping the length; its effect on each kind of gap is stated by the GapFill lemmas below |
| Preprocess.FillStagesKeepPresent | backend/analysis.py:29 | interpolate, bfill and ffill each leave a present reading unchanged |
| Preprocess.GapFillKeepsPresent | backend/analysis.py:29 | the gap fill leaves every present reading unchanged |
| Preprocess.GapFillComplete | backend/analysis.py:29 | once one reading is present, no gap is left |
| Preprocess.GapFillShortRun | backend/analysis.py:29 | in a run of gaps between two readings, the first five gaps get the linear interpolation between them |
| Preprocess.GapFillLongRun | backend/analysis.py:29 | gaps beyond the fifth in such a run take the next reading |
| Preprocess.GapFillLeadingRun | backend/analysis.py:29 | gaps before the first reading take that reading |
| Preprocess.InterpolateAfterLast | backend/analysis.py:29 | after the last reading, interpolation fills five gaps with it and leaves the rest |
| Preprocess.GapFillTrailingRun | backend/analysis.py:29 | gaps after the last reading take that reading |
| Preprocess.FillStagesKeepLevel | backend/analysis.py:29 | a fill stage creates no new level: if every present reading is c, so is every filled one |
| Preprocess.GapFillConstant | backend/analysis.py:29 | readings that are all c where present come out as c everywhere |
| Preprocess.Insert | backend/analysis.py:33 | inserting into a sorted window gives a sorted window holding the same values plus one |
| Preprocess.Sort | backend/analysis.py:33 | the result is sorted and a permutation of the window |
| Preprocess.Median | backend/analysis.py:33 | the median is an element of its window |
| Preprocess.Window | backend/analysis.py:33 | the zero-padded window has the kernel's width |
| Preprocess.MedFilt | backend/analysis.py:33 | the output keeps the length, and each output value is a member of its zero-padded window |
| Preprocess.MedianOfThreeMajority | backend/analysis.py:33 | the median of three values, two of which are v, is v |
| Preprocess.MedFiltAt | backend/analysis.py:33 | where two of the three window values are v, the filter gives v |
| Preprocess.MedFiltConstant | backend/analysis.py:33 | a constant signal of any length other than 1 passes the width-3 filter unchanged |
| Preprocess.MedFiltRemovesSpike | backend/analysis.py:33 | a single spike at least two samples from either end of a constant signal is removed |
| Analyzer.SensorAnalyzer.PreprocessingOfLevel | tests/test_analysis.py:9-15 | level readings with gaps come out with no gap, at the same length and at that level |
| Analyzer.SensorAnalyzer.PreprocessingRemovesSpike | backend/analysis.py:29-33 | complete level readings with one interior spike come out flat |
| Decompose.WindowLength | backend/analysis.py:183-185 | the window is odd, with 3 <= w <= 51; it does not exceed the length once the length is at least 3; it is 51 from length 51 on |
| Decompose.WindowLengthIsLargestOdd | backend/analysis.py:183-185 | no odd size in [3, 51] that fits the sequence is larger than the window |
| Decompose.PolyOrder | backend/analysis.py:187-189 | the order lies in [0, w), and it is 3 unless w = 3, where it is 2 |
| Decompose.MedianKernel | backend/analysis.py:195 | the fallback kernel is odd, at most 11 and at most the length; it is 11 from length 11 on |
| Decompose.Trend | backend/analysis.py:191-195 | the trend has the data's length; it is the Savitzky–Golay fit when the filter succeeds, and otherwise each value is a member of its median-filter window |
| Analyzer.SensorAnalyzer.DecomposeSignal | backend/analysis.py:172-198 | trend[i] + residual[i] = data[i] everywhere; below min_data_points the result is (data, zeros), and otherwise the trend is `Decompose.Trend` |
| Metrics.RefWindow | backend/analysis.py:40 | the reference window has at least one point, and from 10 points on it holds a tenth of the points, rounded down |
| Metrics.CalcBias | backend/analysis.py:37-43 | the bias is 0 below 10 points |
| Metrics.BiasOfLevels | backend/analysis.py:40-43 | when the first window sits at level a and the last at level b, the bias is b - a |
| Metrics.BiasConstant | backend/analysis.py:37-43 | constant data has zero bias |
| Metrics.BiasShiftInvariant | backend/analysis.py:37-43 | adding the same offset to every reading leaves the bias unchanged |
| Metrics.BiasStepExample | tests/test_analysis.py:17-21 | the bias of [0, 5 x 8, 10] is 10 |
| Metrics.CalcSlope | backend/analysis.py:45-50 | the slope is 0 below 2 points |
| Stats.OlsOfLine | backend/analysis.py:48-49 | least squares recovers the slope and intercept of data on an exact line |
| Stats.OlsSlope | backend/analysis.py:48-49 | linregress's slope over the index: centred products over centred squares; OlsOfLine states it on a line |
| Stats.OlsIntercept | backend/analysis.py:267 | linregress's intercept at index 0; OlsOfLine states it on a line |
| Stats.Variance | backend/analysis.py:216 | the population variance behind np.std (ddof 0); VarianceNonNegative and VarianceConst state it |
| Stats.VarianceNonNegative | backend/analysis.py:216 | the variance whose root np.std takes is never negative |
| Stats.VarianceConst | backend/analysis.py:216 | a constant series has variance 0 |
| Metrics.SlopeOfLine | backend/analysis.py:45-50 | the slope of a + b*i is b |
| Metrics.SlopeConstant | backend/analysis.py:45-50 | constant data has zero slope |
| Metrics.SlopeOfIndex | tests/test_analysis.py:23-27 | the slope of 0, 1, ..., n-1 is 1 |
| Metrics.SmoothOfConstant | backend/analysis.py:88 | the back- and forward-filled centred rolling mean of a constant series is that constant everywhere, ends included |
| Metrics.DiffsTelescope | backend/analysis.py:89 | the consecutive differences add up to the last value less the first |
| Metrics.IsEdgeMatchesThreshold | backend/analysis.py:92-95 | the square-free edge test is the source's d > 0.5*std (rising) and d < -0.5*std (falling) |
| Metrics.EdgeIndices | backend/analysis.py:94-95 | exactly the indices of the edges, in increasing order: each listed index is an edge, each edge is listed, and the list is empty iff there is no edge |
| Metrics.CalcHysteresis | backend/analysis.py:80-108 | neutral below 5 points; from 5 points on, neutral exactly when the differences of the smoothing have no rising edge or no falling edge; a non-neutral result returns the data and its smoothing |
| Metrics.EdgeScore | backend/analysis.py:100-106 | the score of two non-empty edge sets: the gap between the mean readings at rising and at falling edges over the range, 1 standing in for a zero range; EdgeScoreBounded states its bounds |
| Metrics.HysteresisFlatIsNeutral | backend/analysis.py:97-105 | data with zero range has no rising edge, so the fallback divisor is never used |
| Metrics.EdgeScoreBounded | backend/analysis.py:100-106 | the score of a non-neutral result lies in [0, 1] |
| Metrics.HysteresisScoreBounded | backend/analysis.py:80-108 | the hysteresis score always lies in [0, 1] |
| Dfa.ProfileEndsAtZero | backend/analysis.py:118 | the profile of the mean-removed data ends at 0 |
| Dfa.MaxScaleGuardUnreachable | backend/analysis.py:120-124 | the N // 4 < 4 guard cannot fire once N >= 20 |
| Dfa.Profile | backend/analysis.py:118 | cumsum(data - mean(data)), one value per reading; ProfileSteps and ProfileEndsAtZero state it |
| Dfa.ProfileSteps | backend/analysis.py:118 | the profile starts at the first centred reading and adds one centred reading per step |
| Dfa.AboveOrder | backend/analysis.py:127 | keeps exactly the scales above order + 2 |
| Dfa.AboveOrderIncreasing | backend/analysis.py:126-127 | the filter keeps the candidates' order: np.unique's increasing candidates stay increasing |
| Dfa.Arange | backend/analysis.py:130 | strictly increasing values in [lo, hi), empty iff lo >= hi |
| Dfa.ArangeValues | backend/analysis.py:130 | the j-th value is lo + j * step, and one more step would reach hi |
| Dfa.LinearScales | backend/analysis.py:130-132 | the j-th fallback scale is 4 + j * step, strictly increasing inside [4, N // 4) |
| Dfa.LinearStep | backend/analysis.py:130 | the fallback step max(1, (N // 4 - 4) // 5) is at least 1 |
| Dfa.Scales | backend/analysis.py:126-132 | every scale used lies in (order + 2, N // 4] |
| Dfa.SegmentsFit | backend/analysis.py:140-142 | n_segments * scale <= N, and the dropped tail is shorter than one scale |
| Dfa.SegmentsCover | backend/analysis.py:140-142 | at least one whole segment fits |
| Dfa.LineResiduals | backend/analysis.py:150-152 | one residual per point of the segment, about its order-1 least-squares line; SegmentRssOfLine states that a straight segment leaves none |
| Dfa.SegmentRss | backend/analysis.py:149-152 | the residual sum of squares of a segment's order-1 fit is never negative |
| Dfa.SegmentRssOfLine | backend/analysis.py:149-152 | a segment on an exact line has no residual |
| Dfa.TotalRss | backend/analysis.py:148-152 | the accumulated total is never negative |
| Dfa.SquaredFluctuation | backend/analysis.py:154 | F^2 is never negative |
| Dfa.SegmentTotal | backend/analysis.py:140-152 | the inner loop's accumulated total is the sum of the segment residuals over the N // scale whole segments |
| Dfa.ScaleFluctuations | backend/analysis.py:136-155 | the outer loop yields F^2 for every scale, in order |
| Dfa.Significant | backend/analysis.py:158 | exactly the indices whose F^2 exceeds 1e-20, in increasing order |
| Dfa.SignificanceMatchesSource | backend/analysis.py:154-158 | for F = sqrt(F^2), the source's F > 1e-10 is F^2 > 1e-20 |
| Dfa.DfaSpec | backend/analysis.py:110-166 | the DFA result of the whole input as one definition; CalcDfa computes it, and DfaNeutralCases and DfaResultShape state its cases |
| Dfa.CalcDfa | backend/analysis.py:110-170 | the imperative DFA computes `DfaSpec` |
| Dfa.DfaNeutralCases | backend/analysis.py:116-159 | neutral (0.5, 0.0, [], []) below 20 points, with fewer than 2 scales, and with fewer than 3 significant fluctuations |
| Dfa.DfaResultShape | backend/analysis.py:159-166 | a non-neutral result pairs at least three scales, each in (order + 2, N // 4], with fluctuations that are all significant |
| Rul.Whole | backend/analysis.py:295-301 | int() of a non-negative quotient: the largest whole number of units not above the value |
| Rul.Bucket | backend/analysis.py:292-302 | strict thresholds: over a year is stable; days are in 1..365, hours in 1..24, minutes in 0..60; never threshold-exceeded |
| Rul.NatToString | backend/analysis.py:296-302 | decimal digits only, with a single digit exactly below 10 |
| Rul.NatToStringValue | backend/analysis.py:296-302 | the digits written for n, read most significant first, denote n |
| Rul.Text | backend/analysis.py:261-302 | the strings calc_rul returns for each estimate: the two fixed texts, and the count followed by " days", " hours" or " mins" |
| Rul.Headroom | backend/analysis.py:266-283 | the distance from the end of the fitted line to data[0] + bias_critical when rising, or to data[0] - bias_critical otherwise; HeadroomOfLine states it on a line |
| Rul.HeadroomOfLine | backend/analysis.py:266-283 | on an exact line, the distance left is bias_critical less the drift since the first reading |
| Analyzer.SensorAnalyzer.CalcRul | backend/analysis.py:257-302 | |slope| < 1e-6 is stable whatever the data; otherwise threshold-exceeded iff the distance is <= 0, and else the bucket of distance / |slope|; fewer than 2 points fail as a degenerate regression |
| Analyzer.SensorAnalyzer.RulOfLine | backend/analysis.py:257-302 | on an exact line, the threshold is exceeded iff the drift reaches bias_critical, and otherwise the time left is the remaining margin over |slope| |
| Health.MetricsMap | backend/analysis.py:226-240 | the scorer reads every metric under its key and never falls back to a default |
| Health.Clamp | backend/analysis.py:407 | the result lies in [0, 100] and equals the input when the input is already within it |
| Health.SlopeRule | backend/analysis.py:313-352 | the slope rule's flag: above slope_critical PROCESS_CHANGE or DRIFT_CRITICAL, above slope_warning PROCESS_VAR or DRIFT_WARNING, split on noise_std < 0.5; PenaltyBounded and RecommendationOnlyFromSlope state its effect |
| Health.BiasRule | backend/analysis.py:355-363 | the bias rule's flag: BIAS_CRITICAL above bias_critical, BIAS_WARNING above bias_warning |
| Health.NoiseRule | backend/analysis.py:366-381 | the noise rule's flag: NOISE_CRITICAL above 2.0, else the two SNR bands; HighNoisePreemptsSnr states the precedence |
| Health.HysteresisRule | backend/analysis.py:384-388 | the hysteresis rule's flag above hysteresis_critical |
| Health.DfaRule | backend/analysis.py:391-405 | the DFA rule's flag: DFA_UNRELIABLE below R^2 0.9, else persistence or antipersistence; UnreliableDfaNotScored states the first case |
| Health.TotalPenalty | backend/analysis.py:306-405 | the points the raised flags cost are never negative and are at least the cost of any one flag |
| Health.Join | backend/analysis.py:419 | Python's "; ".join of the diagnosis list; DiagnosisOfFlags states the joined text |
| Health.RecommendationOf | backend/analysis.py:309-352 | the recommendation the slope rule's flag selects, or the default; RecommendationOnlyFromSlope states it |
| Health.VerdictOf | backend/analysis.py:407-422 | the returned dictionary for a list of raised flags: clamped score, status band, joined diagnosis, flags and recommendation; ScoreIsPenalised, StatusBands and DiagnosisOfFlags state its fields |
| Health.Score | backend/analysis.py:304-422 | the scorer's verdict on a metrics map as one definition; GetHealthScore computes it, and the Health lemmas state its properties |
| Health.MessagesAppend | backend/analysis.py:333-404 | the diagnosis entries of two flag lists in sequence are the entries of the first followed by those of the second, so each check appends its own messages |
| Health.PenaltyBounded | backend/analysis.py:306-405 | the penalties come to between 0 and 105 points |
| Health.FlagsInRuleOrder | backend/analysis.py:327-405 | at most five flags, in rule order, none twice |
| Health.PenaltyByRule | backend/analysis.py:306-405 | the total penalty is the sum of the five rules' penalties |
| Health.MessagesByRule | backend/analysis.py:333-404 | the diagnosis entries are the five rules' messages, in rule order |
| Health.ScoreIsPenalised | backend/analysis.py:306-407 | the score is 100 minus the penalties, floored at 0, so it lies in [0, 100] |
| Health.StatusBands | backend/analysis.py:409-411 | Red iff score < 60, Yellow iff 60 <= score < 85, Green iff score >= 85 |
| Health.DiagnosisOfFlags | backend/analysis.py:413-419 | the joined diagnosis is "System Normal" iff no flag was raised, and otherwise the flags' messages joined by "; " |
| Health.DiagnosisMatchesFlags | backend/analysis.py:413-419 | the same for the verdict of any metrics and configuration |
| Health.RecommendationOnlyFromSlope | backend/analysis.py:309-352 | the recommendation differs from the default iff PROCESS_CHANGE, DRIFT_CRITICAL or DRIFT_WARNING was raised; PROCESS_VAR leaves it alone |
| Health.SlopeAtCriticalIsWarning | backend/analysis.py:328-352 | a slope equal to slope_critical falls into the warning branch |
| Health.BiasAtCriticalIsWarning | backend/analysis.py:355-363 | a bias equal to bias_critical falls into the warning branch |
| Health.HighNoisePreemptsSnr | backend/analysis.py:370-381 | noise_std > 2.0 raises NOISE_CRITICAL whatever the SNR |
| Health.UnreliableDfaNotScored | backend/analysis.py:391-396 | below R^2 = 0.9, or with R^2 missing, DFA_UNRELIABLE is raised at no cost |
| Health.NeutralIsHealthy | tests/test_analysis.py:37-49 | neutral metrics give 100, Green, no flag, "System Normal" and the default recommendation |
| Health.StrictBiasCosts20 | tests/test_analysis.py:51-72 | bias 1.5 against bias_critical 1.0 costs exactly 20 points: 80, Yellow |
| Health.CriticalIsRed | tests/test_analysis.py:74-86 | the critical metric set costs 25 + 20 + 15 + 10 + 30 = 100 points: score 0, Red |
| Health.WorstCaseFloored | backend/analysis.py:328-407 | the worst case, 105 points, is floored at 0 |
| Analyzer.SensorAnalyzer.SlopeCheck | backend/analysis.py:313-352 | appends exactly the slope rule's flags and messages, subtracts exactly its penalty, and sets the recommendation |
| Analyzer.SensorAnalyzer.BiasCheck | backend/analysis.py:355-363 | appends exactly the bias rule's flags and messages and subtracts exactly its penalty |
| Analyzer.SensorAnalyzer.NoiseCheck | backend/analysis.py:366-381 | appends exactly the noise rule's flags and messages and subtracts exactly its penalty |
| Analyzer.SensorAnalyzer.HysteresisCheck | backend/analysis.py:384-388 | appends exactly the hysteresis rule's flags and messages and subtracts exactly its penalty |
| Analyzer.SensorAnalyzer.DfaCheck | backend/analysis.py:391-405 | appends exactly the DFA rule's flags and messages and subtracts exactly its penalty |
| Analyzer.SensorAnalyzer.RunChecks | backend/analysis.py:306-405 | the five checks from 100 produce the rule flags in order, one message per flag, 100 minus their penalties, and the slope rule's recommendation |
| Analyzer.SensorAnalyzer.Report | backend/analysis.py:407-422 | the clamp, status and joined diagnosis give the verdict of the flags |
| Analyzer.SensorAnalyzer.GetHealthScore | backend/analysis.py:304-422 | the imperative scorer returns `Health.Score` |
| Analyzer.NoiseThresholdsOnVariance | backend/analysis.py:216 | comparing the residuals' standard deviation with 2.0 or 0.5 is comparing their variance with 4.0 or 0.25 |
| Analyzer.SensorAnalyzer.Analyze | backend/analysis.py:200-255 | the pipeline computes `AnalysisOf`: preprocess, decompose, then the metrics, the score and the RUL |
| Analyzer.SensorAnalyzer.MetricsOf | backend/analysis.py:209-240 | the metrics of the cleaned readings in the source's order of computation; the Metrics lemmas below state them |
| Analyzer.SensorAnalyzer.AnalysisOf | backend/analysis.py:200-255 | the whole analysis as one definition; Analyze computes it, and AnalysisFails and AnalysisConsistent state it |
| Analyzer.SensorAnalyzer.AnalysisFails | backend/analysis.py:206 | the analysis fails exactly when preprocessing does, with the same error |
| Analyzer.SensorAnalyzer.MetricsDecompose | backend/analysis.py:209-213 | trend plus residuals is the cleaned data, and the slope is the trend's |
| Analyzer.SensorAnalyzer.MetricsNoise | backend/analysis.py:216 | the noise is never negative, and the scorer's noise thresholds on it are thresholds on the residuals' variance |
| Analyzer.SensorAnalyzer.MetricsLevels | backend/analysis.py:222-224 | the bias is that of the cleaned data, and the hysteresis lies in [0, 1] |
| Analyzer.SensorAnalyzer.AnalysisConsistent | backend/analysis.py:200-255 | a successful analysis carries the metrics of the cleaned readings and the scorer's verdict on them, with a score in [0, 100] |

## Left out

- calc_snr_db (backend/analysis.py:52-78) is the `snrDb` library function. Its percentiles and log10 are library-defined or transcendental.
- Several routines are library functions, given as fields of `External.Library`:
  - the Savitzky–Golay filter, `savgol`;
  - the square root behind np.std, `sqrt`;
  - the log-spaced DFA candidates, `logScales`;
  - the log-log regression giving the Hurst exponent and R^2, `logLogFit`.

  `Library.Valid` states only what the analyzer relies on: the filter keeps the length, the root is the non-negative root, and the candidates do not exceed the upper end.
- Floating point is not modelled. Numbers are exact reals.
- Dfa.CalcDfa: fluctuations are kept squared (F^2), and the 1e-10 test is the equivalent F^2 > 1e-20 (`Dfa.SignificanceMatchesSource` proves the equivalence). The library's regression receives F^2 instead of F.
- Dfa.CalcDfa: calc_dfa's `order` parameter (default 1, backend/analysis.py:110) is fixed at `Dfa.Order` = 1, the only value the analyzer passes. Other detrending orders are not modelled.
- Dfa.CalcDfa: the `except Exception` path and the logging in calc_dfa (backend/analysis.py:168-170) are not modelled. The total model has no exception, so only the neutral guards remain.
- Analyzer.SensorAnalyzer.Preprocessing: when no reading is present, the source returns a NaN array and the model returns `Err(NoValidReadings)`.
- Analyzer.SensorAnalyzer.Preprocessing: the length error is `Err(InsufficientData(...))` in place of a raised ValueError. The message text is not modelled.
- Analyzer.SensorAnalyzer.CalcRul: fewer than two points with a non-negligible slope make linregress degenerate. The model returns `Err(DegenerateRegression)` there. `analyze` never reaches it, since a single point has slope 0.
- Analyzer.SensorAnalyzer.DecomposeSignal: when the filter raises, the median fallback is applied to the data as given. For an empty sequence the fallback kernel would be -1; the model returns the empty trend there.
- Metrics.RefWindow: int(len * 0.1) is modelled as len / 10 in integer arithmetic. The two agree except for floating-point rounding.
- Analyzer.SensorAnalyzer.constructor: the default argument `SensorConfig()` is not modelled. Callers pass `Config.Default` for it.
- The metrics dictionary is the `MetricSet` record. `Scalars` gives the scorer the seven scalar entries, which are the only ones it reads. The empty "components" entry of the result is not modelled.
- Flags and statuses are enums. `Health.FlagName` and `Health.StatusName` give the strings the source reports. The RUL is the `Rul.Estimate` datatype, with its text in `Rul.Text`.
- backend/main.py, the frontend, report generation and the logging are not part of this model.
