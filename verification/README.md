# Two-layer streaming anomaly detection, modelled in Dafny

The system watches a stream of `(timestamp, value)` observations and flags
anomalies in two layers:

- **First layer.** It runs on every point once the series holds
  `sliding_window_size` points, and it has two tests.
  - The *z-score test* compares the point with the mean and sample standard
    deviation of the trailing window. That window includes the point itself.
  - The *neighbour test* compares the point with the up-to
    `neighbor_window_size` points just before it.
  - Each test that fires appends the observation to a candidate list.
- **Second layer.** Every 50 points, an isolation forest is trained on the
  series' residuals against a rolling mean of 20 points. Every candidate the
  forest labels `-1` is then appended to the confirmed list.

The model has these modules:

| file | module | contents |
|---|---|---|
| `wrappers.dfy` | `Wrappers` | `Option`, `Result` |
| `statistics.dfy` | `SlidingStatistics` | Python slicing with negative bounds, sum, mean, and the sample (n − 1) variance that pandas' `std()` squares |
| `first_layer.dfy` | `FirstLayer` | the two first-layer tests and what their answers mean |
| `observations.dfy` | `Observations` | the observation record and the value series built from it |
| `second_layer.dfy` | `SecondLayer` | residuals, `dropna`, the label filter and the validation pass; the forest is an oracle |
| `sequences.dfy` | `Prefixes` | small facts about sequence prefixes |
| `pipeline.dfy` | `StreamingPipeline` | the streaming loop: the class `AnomalyPipeline` with `seq` fields for the series, candidates and confirmed entries, its `Step` method, a driving loop `Run`, and the functions `CandidatesAfter` / `ConfirmedAfter` |

`CandidatesAfter` and `ConfirmedAfter` give the lists after a whole stream;
the invariants of the loop are proved about them.

Scores are real numbers. There is no square root over the reals in the model:

- A score is `Zero` (the degenerate branch) or `Ratio(dev, variance)`, which
  stands for `dev / sqrt(variance)`.
- Thresholds are decided on squares.
- `ExceedsIsAbsAbove`, `ZScoreTestMeaning` and `NeighborTestMeaning` prove that
  this decision is exactly `abs(dev / std) > threshold`, for any positive `std`
  whose square is the variance.

## Model

| member | source | states |
|---|---|---|
| SlidingStatistics.PyIndex | anomaly_detection.py:22 | A Python slice bound lands inside the sequence. A non-negative bound within range is kept. A negative bound counts from the end. |
| SlidingStatistics.PySlice | anomaly_detection.py:22 | A Python slice is never longer than the sequence. With bounds `0 <= start <= stop <= len` it is the ordinary slice. |
| SlidingStatistics.Mean | anomaly_detection.py:23 | `window.mean()`; the mean of a window of equal values is that value. |
| SlidingStatistics.SumSqDev | anomaly_detection.py:24 | The sum of squared deviations is non-negative. It is zero exactly when every value equals the reference. |
| SlidingStatistics.SampleVariance | anomaly_detection.py:24 | `std()` is defined exactly for windows of two or more points (NaN below two). The variance is non-negative. |
| SlidingStatistics.StdPositive | anomaly_detection.py:27-30 | `std > 0` holds exactly when the window has two or more points and not all its values are equal. So the degenerate branch is taken for a NaN std (fewer than two points) or a constant window. |
| SlidingStatistics.ConstantSlice | anomaly_detection.py:22 | Any window cut from a constant series is constant. |
| FirstLayer.Exceeds | anomaly_detection.py:33 | `abs(score) > threshold`: every score exceeds a negative threshold, and the score 0 exceeds no non-negative one. |
| FirstLayer.ExceedsIsAbsAbove | anomaly_detection.py:33 | The squared comparison on a score holds exactly when `abs(score) > threshold`, for the real score given by any positive square root of the variance. |
| FirstLayer.ZWindow | anomaly_detection.py:22 | `time_series[-sliding_window_size:]` holds `min(w, len)` points, and the whole series when `w` is 0. |
| FirstLayer.ZWindowIsTrailing | anomaly_detection.py:22 | The z-score window is the last `min(len, w)` values and ends with the current point. A window size of 0 selects the whole series (`-0` is `0` in Python). |
| FirstLayer.NeighborWindow | anomaly_detection.py:56 | `time_series[-(k+1):-1]` holds `min(k, len - 1)` points, and none for an empty series. |
| FirstLayer.NeighborWindowIsPreceding | anomaly_detection.py:56 | The neighbour window is the `min(k, len - 1)` values immediately before the last one. The last value is never in it. |
| FirstLayer.ZScore | anomaly_detection.py:26-30 | The z-score is 0 exactly when the window has fewer than two points or is constant. Otherwise it carries a positive variance. |
| FirstLayer.DetectFirstLayerAnomalies | anomaly_detection.py:22-35 | The flag is the threshold test on the returned score. With a non-positive std, the score is exactly 0 and the flag is `0 > threshold`. Otherwise the score is a proper ratio. |
| FirstLayer.ZScoreTestMeaning | anomaly_detection.py:27-35 | With `std` the window's standard deviation, the returned score is `(x - mean) / std`, and the flag is exactly `abs(z) > threshold` for that same `z`. |
| FirstLayer.NeighborDeviation | anomaly_detection.py:60-63 | The deviation is 0 exactly when the neighbour window has fewer than two points (series shorter than 3 or `k < 2`) or is constant. Otherwise its numerator is an absolute value and its variance is positive. |
| FirstLayer.DetectNeighborDeviation | anomaly_detection.py:60-66 | With a non-positive neighbour std, the deviation is 0 and the result is `0 > threshold`. |
| FirstLayer.NeighborTestMeaning | anomaly_detection.py:60-66 | With `std` the neighbour window's standard deviation, the result is exactly `abs(x - neighbor_mean) / std > threshold`. |
| FirstLayer.DeviationNonNegative | anomaly_detection.py:61 | The neighbour deviation is never negative. |
| FirstLayer.ConstantWindowsNeverFlag | anomaly_detection.py:27-30 | For a non-negative threshold, a constant window gives a z-score of exactly 0 and no flag. A constant neighbour window gives a deviation of 0 and no flag. |
| FirstLayer.SpikeAfterFlatHistory | anomaly_detection.py:56-66 | Thirty values of 10 then a 100, with windows of 10 and thresholds of 2: the z-score test flags the spike. The neighbour test does not, because its neighbours are constant. |
| Observations.Values | main.py:51 | The value series has one entry per observation, in arrival order, each the observation's value. |
| SecondLayer.RollingMean | anomaly_detection.py:87 | The rolling mean at position `i` is NaN exactly while `i < w - 1`. Over a series of equal values it is the value itself. |
| SecondLayer.ResidualSeries | anomaly_detection.py:87 | There is one residual (possibly NaN) per point of the series. |
| SecondLayer.DropNa | anomaly_detection.py:88 | `dropna` never lengthens the series. |
| SecondLayer.DropNaConcat | anomaly_detection.py:88 | `dropna` of a concatenation is the concatenation of the two `dropna` results. |
| SecondLayer.CleanResiduals | anomaly_detection.py:87-88 | After `dropna`, there are `n - w + 1` residuals when `n >= w` and none otherwise. |
| SecondLayer.CleanResidualsShape | anomaly_detection.py:87-88 | There are `n - w + 1` cleaned residuals when `n >= w`, and none otherwise. The k-th is the value at `k + w - 1` minus the mean of itself and the `w - 1` values before it. |
| SecondLayer.Predict | anomaly_detection.py:96 | Prediction gives one label per candidate. Candidates with equal values get equal labels, since prediction is row by row. |
| SecondLayer.Confirm | anomaly_detection.py:97 | The confirmed list is no longer than the candidate list, and every entry is a candidate. |
| SecondLayer.Outliers | anomaly_detection.py:97 | These are exactly the positions labelled `-1`, in strictly increasing order. |
| SecondLayer.ConfirmSelectsOutliers | anomaly_detection.py:97 | The confirmed list is the candidates at the positions labelled `-1`, in candidate order, with timestamp and value unchanged. |
| SecondLayer.ValidateWithIsolationForest | anomaly_detection.py:87-99 | Training fails exactly when there are no cleaned residuals. Otherwise the result is the candidates that the forest, trained on the cleaned residuals, labels `-1`, in candidate order and unchanged. An empty candidate list gives an empty result. |
| StreamingPipeline.ValidationDue | main.py:67 | A pass is due exactly at the positive multiples of 50. |
| StreamingPipeline.DefaultConfigWellFormed | main.py:29-32 | The driver's settings (40, 2, 10, 2, and the validator's window of 20) meet `Step`'s precondition. |
| StreamingPipeline.FirstLayerAppends | main.py:54-63 | A point adds at most two candidates. |
| StreamingPipeline.FirstLayerAppendsCount | main.py:54-63 | During warm-up nothing is appended. Afterwards the current observation is appended once per test that fires, so a point flagged by both tests appears twice. |
| StreamingPipeline.ValidationPass | main.py:68 | A pass over the whole candidate list is the candidates that the forest, trained on the residuals of the series so far, labels `-1`, in candidate order. It confirms no more entries than there are candidates. |
| StreamingPipeline.ValidationPassSelects | main.py:68 | A pass confirms only candidates, and nothing when there are no candidates. |
| StreamingPipeline.CandidatesAfter | main.py:47-63 | After `n` points there are at most `2 n` candidates. |
| StreamingPipeline.ConfirmedAfter | main.py:66-69 | The confirmed list after a stream: empty before the first 50 points. |
| StreamingPipeline.CandidatesAreObservations | main.py:58 | Every candidate is an observation of the stream, with its timestamp and value. |
| StreamingPipeline.NoCandidatesDuringWarmUp | main.py:54 | There are no candidates while the series is shorter than `sliding_window_size`. |
| StreamingPipeline.FirstLayerQuietOnConstant | main.py:54-63 | For non-negative thresholds, a point of a constant series adds no candidate. |
| StreamingPipeline.ConstantStreamNoCandidates | main.py:47-63 | For non-negative thresholds, a stream of equal values yields no candidates. |
| StreamingPipeline.ConstantStreamRaisesNothing | main.py:47-69 | For non-negative thresholds, a stream of equal values yields no candidates and no confirmations. |
| StreamingPipeline.CandidatesStep | main.py:58-63 | One more point only appends to the candidate list. |
| StreamingPipeline.CandidatesOnlyGrow | main.py:58-63 | The candidates after a prefix of the stream are a prefix of the candidates after the whole stream. |
| StreamingPipeline.ConfirmedStep | main.py:69 | One more point only appends to the confirmed list. |
| StreamingPipeline.ConfirmedOnlyGrow | main.py:69 | The confirmed entries after a prefix of the stream are a prefix of those after the whole stream. |
| StreamingPipeline.ConfirmedAreCandidates | main.py:68-69 | Every confirmed entry is a candidate. |
| StreamingPipeline.ConfirmedOnlyAtBatchPoints | main.py:67 | The confirmed list changes only at multiples of 50: it equals the list at the last multiple of 50 reached. |
| StreamingPipeline.PassCount | main.py:67 | Each new point adds one to the number of passes exactly when a validation is due. |
| StreamingPipeline.NextPoint | main.py:47-69 | One more point extends the candidates by the first layer's appends. It extends the confirmed list by a pass over all candidates exactly when a validation is due. |
| StreamingPipeline.AnomalyPipeline.Valid | main.py:24-26 | The pipeline invariant: the lists are those the loop builds from the series so far. It implies at most two candidates per point, and that every confirmed entry is a candidate. |
| StreamingPipeline.AnomalyPipeline.constructor | main.py:24-26 | The pipeline starts with an empty series, no candidates and no confirmations. |
| StreamingPipeline.AnomalyPipeline.Step | main.py:47-69 | The observation is appended to the series. The candidates grow by the first layer's appends for it. The confirmed list grows by a validation pass exactly when the new length is a positive multiple of 50. The pipeline invariant is kept. |
| StreamingPipeline.AnomalyPipeline.DetectLatest | main.py:54-63 | The candidate list gains exactly the first layer's appends for the newest point. |
| StreamingPipeline.AnomalyPipeline.ValidateIfDue | main.py:67-69 | The confirmed list is extended by a pass when one is due and is otherwise unchanged. |
| StreamingPipeline.Run | main.py:47 | Running the loop over a stream leaves the series equal to the stream, and the candidate and confirmed lists equal to their values after the stream. |

## Left out

- `data_stream.py` is not part of this model. The random generator becomes the input stream of `Run` and the arguments of `Step`.
- Plotting and printing in `main.py` (the matplotlib figure, the scatter updates, the console messages) are output only and are not modelled.
- The isolation forest's fit and scoring (sklearn's `IsolationForest`, `contamination=0.05`, `random_state=42`) are foreign, randomised code. A `Forest` is an oracle: it maps the training residuals and one candidate value to a label. Which candidates it confirms is therefore not modelled. The code scores raw candidate values against a forest trained on residuals, and the oracle receives exactly those inputs.
- Floating point and NaN are not modelled. Values are mathematical reals. NaN appears only as `None`: for the variance of a window of fewer than two points, and for the rolling mean before `w` points. The timestamps (pandas `Timestamp`s, `data_stream.py:44`) are modelled as opaque integers: they are copied and compared for equality, and no arithmetic is done on them.
- There is no square root. A score carries its variance (see above), and `ValueWith` gives the real score once a root is supplied.
- The pandas Series is rebuilt from the list on every iteration (`main.py:51`). This is modelled by `Values`, applied to the current series. The timestamp index plays no part in any computation.
- SecondLayer.ValidateWithIsolationForest: requires a rolling window of at least 1. A window of 0 is not modelled; the only window used is the default 20.
- StreamingPipeline.AnomalyPipeline.Step: requires `WellFormed`, i.e. a model window between 1 and 50. Under that condition every pass, made at 50 points or more, has residuals to train on, so the failing fit cannot occur in the driver. With the source's window of 20 this always holds.

## Behaviour of the code worth knowing

- **Spike after a flat history.** A 100 after thirty 10s fires only the z-score test. Its neighbour window holds only 10s, so the neighbour std is 0, the deviation is 0, and the neighbour test stays silent. `SpikeAfterFlatHistory` proves this.
- **Validation schedule.** The comment at `main.py:66` says validation runs every 30 points. The code at `main.py:67` validates when the length is a positive multiple of 50. The model follows the code: see `ValidationDue`, `ConfirmedOnlyAtBatchPoints` and `AnomalyPipeline.Step`.
- **Double counting.** A point flagged by both tests is appended twice (`main.py:58`, `main.py:63`). `FirstLayerAppendsCount` states this.
- **Repeated confirmations.** Each pass covers the whole candidate list, not just the candidates added since the last pass. A candidate the forest labels `-1` at 50 points can therefore be confirmed again at 100. `NextPoint` and `AnomalyPipeline.Step` state that every pass is over all candidates.
