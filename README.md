# Anti-Tremor-Mouse: a verified model of the filtering and calibration core

Anti-Tremor-Mouse stabilises a mouse pointer for users with hand tremor. It has three
parts, and each is modelled here:

- **Calibration.** While the user holds the mouse still, the program samples positions.
  From them it derives a tremor frequency, a tremor amplitude and a baseline stability score.
- **Filtering.** Every pointer movement then goes through a `TremorFilter`:
  - a scalar Kalman filter runs on each axis;
  - the raw input is blended with the Kalman estimate by a smoothing factor;
  - a rolling history of the last 100 movements is kept.
  - A classifier maps measured amplitude and frequency to a `TremorType`, which chooses the smoothing factor.
- **GUI state.** The window keeps the last 100 raw and filtered positions and the latest metrics.

The model is written in Dafny. `f64` values are `real`. `sqrt` is a function parameter
whose only known properties are that it is never negative and maps 0 to 0 (`Numeric.IsSqrt`).

Modules, one per concern:

| file | module | models |
|---|---|---|
| `numeric.dfy` | `Numeric` | positions, the abstract square root, sums and means of histories, powers and geometric decay, small real-arithmetic facts |
| `bounded.dfy` | `Bounded` | the capped `VecDeque` used for every history (push at the back, evict the front) |
| `kalman.dfy` | `Kalman` | the per-axis `KalmanFilter` class, the step function that specifies it, and its convergence algebra |
| `tremor.dfy` | `Tremor` | `TremorType`, the classifier, the smoothing table, the blend, the tremor metrics, the `TremorFilter` class |
| `calibration.dfy` | `Calibration` | `CalibrationData`, `analyze_tremor`, `calculate_stability`, the result of `perform_calibration` |
| `gui.dfy` | `Gui` | the `TremorGUI` state: `new` and `update_metrics` |

State that the program mutates in place is a Dafny `class`:
- `KalmanFilter`, `TremorFilter` and `TremorGUI` are classes;
- `VecDeque` fields are `seq` fields that the methods reassign;
- each method is proved against a pure specification function (`Step`, `PushCapped`, `TremorMetrics`, `TotalDistance`, ...).

The properties are proved about those functions.

Where the intended design and the code differ, the model follows the code:
- A calibration with too few samples is meant to fail. The code has no such error path: `perform_calibration` always returns `Ok`, and the model says so (`Calibration.PerformCalibration`).
- Classification is meant to run on every sample once 10 are buffered. In the code, `adjust_filter_parameters` is never called by `process_movement`, nor by anything else in the program. In every state the running program reaches, the smoothing factor stays 0.7 and the tremor type stays `Mixed` (`Tremor.TremorFilter.Untuned`). `adjust_filter_parameters` is still modelled as its own method, so that its rule is verified.
- The "zero crossing" count of `calculate_tremor_metrics` compares magnitudes, which are never negative, so the measured frequency is always 0. The model proves this (`Tremor.NoCrossings`) and keeps the code's behaviour.
  - A consequence (`Tremor.ReportedMetrics`): a filter never classifies tremor as `Action` or `HighFrequency`.

## Model

| member | source | states |
|---|---|---|
| Numeric.Length | src/tremor_filter.rs:192 | the length of a displacement is never negative and is 0 for the zero displacement |
| Numeric.Mean | src/tremor_filter.rs:208-213 | the average of a history is 0 when it is empty; otherwise the average times the count is the sum |
| Numeric.MeanBounds | src/tremor_filter.rs:208-213 | the average of a non-empty history lies between any lower and upper bound of its entries |
| Numeric.Interpolate | src/tremor_filter.rs:113-114 | `a + (b - a) * f` with `f` in [0, 1] lies between `a` and `b` |
| Bounded.PushCapped | src/tremor_filter.rs:103-106 | a push keeps the history within its capacity, puts the new element last, appends when there is room, and otherwise drops exactly the oldest element |
| Bounded.PushCappedElements | src/tremor_filter.rs:139-147 | every element after a push was already in the history or is the new one |
| Bounded.PushAllKeepsNewest | src/tremor_filter.rs:103-106 | pushing any sequence one by one onto an empty history leaves the whole sequence when it fits, otherwise exactly its newest `cap` elements, oldest first |
| Kalman.Gain | src/tremor_filter.rs:36-39 | with `p >= 0`, `q > 0` and `r > 0` the gain lies strictly between 0 and 1 |
| Kalman.Step | src/tremor_filter.rs:33-41 | a step keeps `q` and `r` and keeps the state well-posed |
| Kalman.GainFacts | src/tremor_filter.rs:36-39 | `k (p + q + r) = p + q`, `1 - k = r / (p + q + r)`, and `1 - k` is at most `r / (q + r)` |
| Kalman.StepEstimateBetween | src/tremor_filter.rs:35-40 | the new estimate lies between the old estimate and the measurement, strictly inside when they differ |
| Kalman.StepCovariance | src/tremor_filter.rs:36-41 | the new covariance is `(p + q) r / (p + q + r)`, positive, below `p + q` and below `r` |
| Kalman.Repeat | src/tremor_filter.rs:33-51 | any number of steps on a well-posed state keeps it well-posed with the same noises |
| Kalman.StepTowards | src/tremor_filter.rs:39-40 | with measurement `v`, new `x - v` equals `(1 - k)(old x - v)`; the distance to `v` shrinks by at least the factor `r / (q + r)` and the estimate stays on its side of `v` |
| Kalman.ApproachesMonotonically | src/tremor_filter.rs:39-40 | under a constant measurement the distance to it never grows over any number of steps, and the estimate never crosses it |
| Kalman.StepStrictlyTowards | src/tremor_filter.rs:39-40 | one step strictly shrinks a non-zero distance to the measurement, and an estimate already on the measurement stays there |
| Kalman.StrictlyApproaches | src/tremor_filter.rs:39-40 | under a constant measurement the distance after any later step is strictly smaller if and only if the estimate was not yet on the measurement; once on it, the estimate stays there |
| Kalman.Converges | src/tremor_filter.rs:39-40 | under a constant measurement the distance after `n` steps is at most `c^n` times the initial distance, with `c = r / (q + r)` strictly between 0 and 1, so the estimate converges to the measurement at least geometrically |
| Kalman.StepScalesExcess | src/tremor_filter.rs:36-41 | a step multiplies `p^2 + p q - q r` by `(r / (p + q + r))^2` |
| Kalman.CovarianceShrinksIff | src/tremor_filter.rs:36-41 | a step lowers the covariance if and only if `p^2 + p q - q r > 0` |
| Kalman.StepAboveFixedPoint | src/tremor_filter.rs:36-41 | above the fixed point a step lowers the covariance and stays above the fixed point |
| Kalman.CovarianceDecreasing | src/tremor_filter.rs:36-41 | from above the fixed point, the covariance falls strictly at every step and stays positive |
| Kalman.InitialCovarianceDecreasing | src/tremor_filter.rs:77-88 | from the filter's own starting parameters, the covariance falls at every step under a constant measurement |
| Kalman.KalmanFilter.constructor | src/tremor_filter.rs:21-31 | the new filter holds exactly the four given parameters |
| Kalman.KalmanFilter.Update | src/tremor_filter.rs:33-51 | the new state is one `Step` of the old state with the measurement, and the returned value is the new estimate |
| Kalman.KalmanFilter.AdjustNoise | src/tremor_filter.rs:53-55 | only `r` changes; `x`, `p` and `q` stay as they were |
| Tremor.Classify | src/tremor_filter.rs:150-160 | each tremor type is chosen exactly under its first-match condition: frequency above 8, else amplitude above 5, else amplitude below 0.1, else frequency above 0.3, else mixed |
| Tremor.SmoothingFor | src/tremor_filter.rs:163-179 | every factor lies in [0.5, 0.9]; 0.9 exactly for resting tremor and 0.5 exactly for action tremor |
| Tremor.SmoothingDistinguishesTypes | src/tremor_filter.rs:163-179 | two tremor types get the same smoothing factor only if they are the same type |
| Tremor.Blend | src/tremor_filter.rs:113-114 | factor 0 returns the raw input, factor 1 the Kalman output, and a factor in [0, 1] a value between the two |
| Tremor.SmoothedOutputBetween | src/tremor_filter.rs:109-114 | the smoothed output on an axis lies between the previous estimate and the new measurement |
| Tremor.MetricsPrefixStep | src/tremor_filter.rs:191-199 | one more movement adds its magnitude to the total, adds a crossing exactly when its product with the previous magnitude is negative, and becomes the previous magnitude |
| Tremor.TotalMagnitude | src/tremor_filter.rs:187-194 | the sum of the movement magnitudes; `Tremor.MetricsPrefixStep` ties it to one loop iteration, and `Tremor.TotalMagnitudeNonNegative` shows it is never negative |
| Tremor.CrossingCount | src/tremor_filter.rs:195-197 | the number of movements whose product with the previous magnitude is negative; `Tremor.NoCrossings` shows it is always 0 |
| Tremor.TremorMetrics | src/tremor_filter.rs:182-205 | what `calculate_tremor_metrics` returns: `(0, 0)` for an empty history, otherwise mean magnitude and crossings per movement; the loop is proved equal to it, and `Tremor.MetricsFacts` bounds it |
| Tremor.TotalMagnitudeNonNegative | src/tremor_filter.rs:187-194 | the summed magnitudes are never negative |
| Tremor.NoCrossings | src/tremor_filter.rs:195-197 | the crossing count is always 0 |
| Tremor.MetricsFacts | src/tremor_filter.rs:182-205 | the measured amplitude is never negative and the measured frequency is always 0 |
| Tremor.QuietClassification | src/tremor_filter.rs:150-160 | with frequency 0 the classifier answers only resting (amplitude below 0.1), high amplitude (above 5) or mixed |
| Tremor.TremorFilter.constructor | src/tremor_filter.rs:69-99 | both axes start from `(0, 1, 0.1, 5)`; the factor is 0.7, the type `Mixed`, all histories empty |
| Tremor.TremorFilter.ProcessMovement | src/tremor_filter.rs:101-127 | the movement history gets the raw sample pushed with capacity 100; each axis takes one Kalman step; each output is the blend of input and new estimate, lying between the previous estimate and the input; the factor, the type and the metric histories do not change; the filter's invariant is kept |
| Tremor.TremorFilter.CalculateTremorMetrics | src/tremor_filter.rs:182-205 | the loop returns `(0, 0)` for an empty history, otherwise the mean magnitude and the crossings per movement; the amplitude is never negative and the frequency is 0 |
| Tremor.TremorFilter.AdjustFilterParameters | src/tremor_filter.rs:129-180 | with fewer than 10 movements nothing changes; otherwise both metrics are pushed with capacity 50, the type is the classification of the measured metrics and the factor comes from the table; the movement history is untouched and the invariant is kept |
| Tremor.TremorFilter.GetTremorMetrics | src/tremor_filter.rs:207-215 | it reports the average recorded frequency, the average recorded amplitude and the current type; an untouched filter reports `(0, 0, Mixed)` |
| Tremor.ReportedMetrics | src/tremor_filter.rs:136-160 | a consistent filter reports frequency 0, a non-negative amplitude, and never `Action` or `HighFrequency` |
| Calibration.TotalDistanceFacts | src/calibration.rs:40-45 | the travelled distance is never negative, and is 0 when all samples coincide |
| Calibration.TotalDistance | src/calibration.rs:40-45 | the summed length of the steps between consecutive samples; `Calibration.PrefixStep` ties it to one loop iteration, and `Calibration.TotalDistanceFacts` bounds it |
| Calibration.SignificantStepsFacts | src/calibration.rs:48-57 | at most `len - 1` steps are significant, and none are when all samples coincide |
| Calibration.SignificantSteps | src/calibration.rs:48-57 | the number of steps between consecutive samples longer than 0.1; `Calibration.PrefixStep` ties it to one loop iteration, and `Calibration.SignificantStepsFacts` bounds it |
| Calibration.PrefixStep | src/calibration.rs:41-56 | one more sample adds its step length to the distance, and adds one significant step exactly when that length exceeds 0.1 |
| Calibration.AnalyzeTremor | src/calibration.rs:38-63 | the two loops compute the significant steps divided by 5 and the travelled distance divided by the number of samples |
| Calibration.AnalysisBounds | src/calibration.rs:48-60 | `0 <= frequency <= (len - 1) / 5`, `amplitude >= 0`, and both are 0 when all samples coincide |
| Calibration.SquaredDistanceFacts | src/calibration.rs:70-73 | a squared distance from a reference point is never negative, 0 at the reference point and positive anywhere else |
| Calibration.Variance | src/calibration.rs:66-75 | the mean squared distance of the samples from their centroid; `Calibration.VarianceFacts` shows it is never negative and is 0 exactly when all samples coincide |
| Calibration.VarianceFacts | src/calibration.rs:66-75 | the variance is never negative, and it is 0 exactly when all samples coincide |
| Calibration.SpreadZero | src/calibration.rs:69-75 | a zero sum of squared distances puts every sample on the reference point |
| Calibration.SpreadAtCommonPoint | src/calibration.rs:69-75 | samples that all sit on the reference point have a zero sum of squared distances |
| Calibration.SumsOfConstant | src/calibration.rs:66-67 | the coordinate sums of `n` equal samples are `n` times that sample's coordinates |
| Calibration.CalculateStability | src/calibration.rs:65-78 | for non-empty input the stability lies in (0, 1], and equals 1 exactly when all samples are the same position |
| Calibration.PerformCalibration | src/calibration.rs:27-35 | the result is always `Ok`, with frequency, amplitude and stability in their fields; a single sample gives `(0, 0, 1)` |
| Gui.TremorGUI.constructor | src/gui.rs:16-27 | empty histories, `Mixed`, frequency 0, amplitude 0, and the start time given |
| Gui.TremorGUI.UpdateMetrics | src/gui.rs:29-41 | the raw history gets the raw position pushed with capacity 100; the filtered history gets the filtered position and loses its front exactly when the raw one does; equal lengths at most 100 are kept; the three scalars are overwritten and the start time is unchanged |

## Left out

- `src/main.rs` is not part of this model: device polling, moving the pointer (with its `as i32` casts) and the event loop are I/O.
- The sampling loop of `perform_calibration` (src/calibration.rs:13-26) is not modelled. It covers the 2-second wait, the 5-second wall-clock loop and the mouse reads. The positions it would collect are a parameter of `Calibration.PerformCalibration`.
- `TremorGUI::show` (src/gui.rs:43-173) is left out: rendering, its `f32` scaling and its elapsed-time check. The clock reading that `TremorGUI::new` takes is a parameter of the constructor.
- All `println!` diagnostics are left out.
- `f64` is modelled as exact `real`: rounding, overflow, NaN and infinities are not modelled.
- `sqrt` is abstract. Only non-negativity and `sqrt(0) = 0` are used.
- Kalman.KalmanFilter.Update: requires `p + q + r != 0`. The code would divide by zero there and produce NaN or infinity, which `real` cannot represent. Inside `TremorFilter` the requirement always holds (`Valid` keeps `q > 0`, `r > 0`, `p >= 0`).
- Calibration.AnalyzeTremor: requires a non-empty sample sequence. For an empty one the code divides 0.0 by 0 and returns NaN as the amplitude.
- Calibration.CalculateStability: requires a non-empty sample sequence, for the same reason.
- Calibration.PerformCalibration: requires a non-empty sample sequence. The 5-second sampling loop in practice always collects samples.
- Kalman.Converges: bounds the error after `n` steps by the geometric factor `(r / (q + r))^n`. The gain is recomputed from the falling covariance at every step, so the exact error is a product of `n` different factors `1 - k_i`; that product is not stated.
- The calibration record passed to `TremorFilter::new` is only printed by the code; the model accepts it and does not use it.
