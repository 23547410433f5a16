/** The adaptive tremor filter of src/tremor_filter.rs: a Kalman filter per axis,
    a blend of its estimate with the raw input, a rolling movement history, and a
    classifier that picks the blending weight from the tremor it measures. */
module Tremor {
  import opened Numeric
  import opened Bounded
  import opened Kalman
  import Calibration

  /** `TremorType`: the kinds of tremor the classifier tells apart. */
  datatype TremorType = Resting | Action | Mixed | HighFrequency | HighAmplitude

  /** Capacity of the movement history. */
  const MovementCapacity: nat := 100

  /** Capacity of the amplitude and frequency histories. */
  const MetricCapacity: nat := 50

  /** Below this many recorded movements the parameters are not adjusted. */
  const MinSamples: nat := 10

  /** The classification rules of `adjust_filter_parameters`, tried in order: a
      frequency above 8 wins, then an amplitude above 5, then an amplitude below 0.1,
      then a frequency above 0.3; anything else is mixed. */
  function Classify(amplitude: real, frequency: real): (t: TremorType)
    ensures t == HighFrequency <==> 8.0 < frequency
    ensures t == HighAmplitude <==> frequency <= 8.0 && 5.0 < amplitude
    ensures t == Resting <==> frequency <= 8.0 && amplitude < 0.1
    ensures t == Action <==> 0.3 < frequency <= 8.0 && 0.1 <= amplitude <= 5.0
    ensures t == Mixed <==> frequency <= 0.3 && 0.1 <= amplitude <= 5.0
  {
    if frequency > 8.0 then HighFrequency
    else if amplitude > 5.0 then HighAmplitude
    else if amplitude < 0.1 then Resting
    else if frequency > 0.3 then Action
    else Mixed
  }

  /** The smoothing factor chosen for each kind of tremor. */
  function SmoothingFor(t: TremorType): (s: real)
    ensures 0.5 <= s <= 0.9
    ensures t == Resting <==> s == 0.9
    ensures t == Action <==> s == 0.5
  {
    match t
    case Resting => 0.9
    case Action => 0.5
    case HighFrequency => 0.8
    case HighAmplitude => 0.6
    case Mixed => 0.7
  }

  /** Different kinds of tremor get different smoothing factors. */
  lemma SmoothingDistinguishesTypes(t1: TremorType, t2: TremorType)
    ensures SmoothingFor(t1) == SmoothingFor(t2) <==> t1 == t2
  {
  }

  /** The final smoothing step: the raw input moved toward the Kalman estimate by
      the smoothing factor. Factor 0 keeps the input, factor 1 takes the estimate,
      and any factor in between lands between the two. */
  function Blend(input: real, estimate: real, factor: real): (out: real)
    ensures factor == 0.0 ==> out == input
    ensures factor == 1.0 ==> out == estimate
    ensures 0.0 <= factor <= 1.0 ==> Between(out, input, estimate)
  {
    var out := input + (estimate - input) * factor;
    assert 0.0 <= factor <= 1.0 ==> Between(out, input, estimate) by {
      if 0.0 <= factor <= 1.0 {
        Interpolate(input, estimate, factor);
      }
    }
    out
  }

  /** On each axis the smoothed output lies between the previous estimate and the
      new measurement: the filter never overshoots the pointer. */
  lemma SmoothedOutputBetween(s: AxisState, m: real, factor: real)
    requires WellPosed(s)
    requires 0.0 <= factor <= 1.0
    ensures Between(Blend(m, Step(s, m).x, factor), s.x, m)
  {
    StepEstimateBetween(s, m);
  }

  /** The length `(x * x + y * y).sqrt()` of a recorded movement. */
  function Magnitude(sqrt: real -> real, pos: Position): real
    requires IsSqrt(sqrt)
  {
    Length(sqrt, pos.0, pos.1)
  }

  /** Sum of the magnitudes of the recorded movements. */
  function TotalMagnitude(sqrt: real -> real, h: seq<Position>): real
    requires IsSqrt(sqrt)
  {
    if h == [] then 0.0 else TotalMagnitude(sqrt, h[..|h| - 1]) + Magnitude(sqrt, h[|h| - 1])
  }

  /** The magnitude seen just before the next movement: that of the last one, or the
      initial 0 when there is none. */
  function PreviousMagnitude(sqrt: real -> real, h: seq<Position>): real
    requires IsSqrt(sqrt)
  {
    if h == [] then 0.0 else Magnitude(sqrt, h[|h| - 1])
  }

  /** Number of movements whose magnitude has the opposite sign of the previous one
      (their product is negative). */
  function CrossingCount(sqrt: real -> real, h: seq<Position>): nat
    requires IsSqrt(sqrt)
  {
    if h == [] then 0
    else
      var init := h[..|h| - 1];
      CrossingCount(sqrt, init)
        + (if PreviousMagnitude(sqrt, init) * Magnitude(sqrt, h[|h| - 1]) < 0.0 then 1 else 0)
  }

  /** What `calculate_tremor_metrics` computes: the mean magnitude and the crossings
      per movement, or `(0, 0)` for an empty history. */
  function TremorMetrics(sqrt: real -> real, h: seq<Position>): (real, real)
    requires IsSqrt(sqrt)
  {
    if h == [] then (0.0, 0.0)
    else (TotalMagnitude(sqrt, h) / |h| as real, CrossingCount(sqrt, h) as real / |h| as real)
  }

  /** Extending a prefix of the history by one movement, as one loop iteration does. */
  lemma MetricsPrefixStep(sqrt: real -> real, h: seq<Position>, i: nat)
    requires IsSqrt(sqrt)
    requires i < |h|
    ensures TotalMagnitude(sqrt, h[..i + 1]) == TotalMagnitude(sqrt, h[..i]) + Magnitude(sqrt, h[i])
    ensures CrossingCount(sqrt, h[..i + 1]) == CrossingCount(sqrt, h[..i])
      + (if PreviousMagnitude(sqrt, h[..i]) * Magnitude(sqrt, h[i]) < 0.0 then 1 else 0)
    ensures PreviousMagnitude(sqrt, h[..i + 1]) == Magnitude(sqrt, h[i])
  {
    assert h[..i + 1][..i] == h[..i];
  }

  lemma {:induction false} TotalMagnitudeNonNegative(sqrt: real -> real, h: seq<Position>)
    requires IsSqrt(sqrt)
    ensures 0.0 <= TotalMagnitude(sqrt, h)
  {
    if h != [] {
      TotalMagnitudeNonNegative(sqrt, h[..|h| - 1]);
    }
  }

  /** Magnitudes are never negative, so no product of two of them is: the crossing
      count is always 0. */
  lemma {:induction false} NoCrossings(sqrt: real -> real, h: seq<Position>)
    requires IsSqrt(sqrt)
    ensures CrossingCount(sqrt, h) == 0
  {
    if h != [] {
      var init := h[..|h| - 1];
      NoCrossings(sqrt, init);
      MulMonotone(0.0, PreviousMagnitude(sqrt, init), Magnitude(sqrt, h[|h| - 1]));
    }
  }

  /** The measured amplitude is never negative and the measured frequency is always 0. */
  lemma MetricsFacts(sqrt: real -> real, h: seq<Position>)
    requires IsSqrt(sqrt)
    ensures 0.0 <= TremorMetrics(sqrt, h).0
    ensures TremorMetrics(sqrt, h).1 == 0.0
  {
    if h != [] {
      TotalMagnitudeNonNegative(sqrt, h);
      QuotientNonNegative(TotalMagnitude(sqrt, h), |h| as real);
      NoCrossings(sqrt, h);
    }
  }

  /** With a frequency of 0 the classifier can only answer resting, high amplitude or
      mixed: action and high-frequency tremor are never reported. */
  lemma QuietClassification(amplitude: real)
    ensures Classify(amplitude, 0.0) in {Resting, HighAmplitude, Mixed}
    ensures Classify(amplitude, 0.0) == Resting <==> amplitude < 0.1
    ensures Classify(amplitude, 0.0) == HighAmplitude <==> 5.0 < amplitude
  {
  }

  /** `TremorFilter`: the per-axis Kalman filters and the adaptive state, updated in
      place by every movement. */
  class TremorFilter {
    const kalmanX: KalmanFilter
    const kalmanY: KalmanFilter
    var smoothingFactor: real
    var tremorType: TremorType
    var movementHistory: seq<Position>
    var frequencyHistory: seq<real>
    var amplitudeHistory: seq<real>

    /** The filter's own fields: histories within their capacities, the smoothing
        factor the one the table gives for the current tremor type, and the metrics
        as the measurement produces them (frequencies 0, amplitudes non-negative,
        so the type is never action or high frequency). */
    ghost predicate Consistent()
      reads this
    {
      && |movementHistory| <= MovementCapacity
      && |frequencyHistory| <= MetricCapacity
      && |amplitudeHistory| <= MetricCapacity
      && smoothingFactor == SmoothingFor(tremorType)
      && tremorType in {Resting, HighAmplitude, Mixed}
      && (forall v :: v in frequencyHistory ==> v == 0.0)
      && (forall v :: v in amplitudeHistory ==> 0.0 <= v)
    }

    /** `Consistent` plus two distinct, well-posed axis filters whose noise
        parameters are still the initial ones. */
    ghost predicate Valid()
      reads this, kalmanX, kalmanY
    {
      && Consistent()
      && kalmanX != kalmanY
      && WellPosed(kalmanX.State()) && WellPosed(kalmanY.State())
      && kalmanX.q == Initial.q && kalmanX.r == Initial.r
      && kalmanY.q == Initial.q && kalmanY.r == Initial.r
    }

    /** The adaptive state as built: no metrics recorded, mixed tremor, factor 0.7. */
    ghost predicate Untuned()
      reads this
    {
      frequencyHistory == [] && amplitudeHistory == [] && tremorType == Mixed && smoothingFactor == 0.7
    }

    /** `TremorFilter::new`: both axes start from `Initial`; the calibration record is
        only reported, never stored. */
    constructor (calibration: Calibration.CalibrationData)
      ensures Valid() && Untuned()
      ensures movementHistory == []
      ensures kalmanX.State() == Initial && kalmanY.State() == Initial
      ensures fresh(kalmanX) && fresh(kalmanY)
    {
      kalmanX := new KalmanFilter(0.0, 1.0, 0.1, 5.0);
      kalmanY := new KalmanFilter(0.0, 1.0, 0.1, 5.0);
      smoothingFactor := 0.7;
      tremorType := Mixed;
      movementHistory := [];
      frequencyHistory := [];
      amplitudeHistory := [];
    }

    /** `process_movement`: records the raw position, steps both Kalman filters and
        returns each axis' blend of raw input and estimate. The tremor type, the
        smoothing factor and the metric histories are left alone. */
    method ProcessMovement(x: real, y: real) returns (smoothedX: real, smoothedY: real)
      requires Valid()
      modifies this, kalmanX, kalmanY
      ensures Valid()
      ensures movementHistory == PushCapped(old(movementHistory), (x, y), MovementCapacity)
      ensures kalmanX.State() == Step(old(kalmanX.State()), x)
      ensures kalmanY.State() == Step(old(kalmanY.State()), y)
      ensures smoothedX == Blend(x, kalmanX.x, smoothingFactor)
      ensures smoothedY == Blend(y, kalmanY.x, smoothingFactor)
      ensures Between(smoothedX, old(kalmanX.x), x) && Between(smoothedY, old(kalmanY.x), y)
      ensures smoothingFactor == old(smoothingFactor) && tremorType == old(tremorType)
      ensures frequencyHistory == old(frequencyHistory) && amplitudeHistory == old(amplitudeHistory)
    {
      movementHistory := movementHistory + [(x, y)];
      if |movementHistory| > MovementCapacity {
        movementHistory := movementHistory[1..];
      }

      ghost var sx, sy := kalmanX.State(), kalmanY.State();
      var filteredX := kalmanX.Update(x);
      var filteredY := kalmanY.Update(y);

      smoothedX := x + (filteredX - x) * smoothingFactor;
      smoothedY := y + (filteredY - y) * smoothingFactor;
      SmoothedOutputBetween(sx, x, smoothingFactor);
      SmoothedOutputBetween(sy, y, smoothingFactor);
    }

    /** `calculate_tremor_metrics`: one pass over the movement history summing the
        magnitudes and counting sign changes between consecutive ones. */
    method CalculateTremorMetrics(sqrt: real -> real) returns (amplitude: real, frequency: real)
      requires IsSqrt(sqrt)
      ensures (amplitude, frequency) == TremorMetrics(sqrt, movementHistory)
      ensures 0.0 <= amplitude && frequency == 0.0
    {
      if |movementHistory| == 0 {
        return 0.0, 0.0;
      }

      var totalMovement := 0.0;
      var zeroCrossings := 0;
      var prevMovement := 0.0;
      for i := 0 to |movementHistory|
        invariant totalMovement == TotalMagnitude(sqrt, movementHistory[..i])
        invariant zeroCrossings == CrossingCount(sqrt, movementHistory[..i])
        invariant prevMovement == PreviousMagnitude(sqrt, movementHistory[..i])
      {
        var movement := Magnitude(sqrt, movementHistory[i]);
        MetricsPrefixStep(sqrt, movementHistory, i);
        totalMovement := totalMovement + movement;
        if prevMovement * movement < 0.0 {
          zeroCrossings := zeroCrossings + 1;
        }
        prevMovement := movement;
      }
      assert movementHistory[..|movementHistory|] == movementHistory;

      amplitude := totalMovement / |movementHistory| as real;
      frequency := zeroCrossings as real / |movementHistory| as real;
      MetricsFacts(sqrt, movementHistory);
    }

    /** `adjust_filter_parameters`: with fewer than `MinSamples` movements nothing
        changes; otherwise the measured metrics are appended to their capped
        histories, the tremor is classified from them and the smoothing factor is
        taken from the table. */
    method AdjustFilterParameters(sqrt: real -> real)
      requires IsSqrt(sqrt)
      requires Valid()
      modifies this
      ensures Valid()
      ensures movementHistory == old(movementHistory)
      ensures |movementHistory| < MinSamples ==>
        && frequencyHistory == old(frequencyHistory) && amplitudeHistory == old(amplitudeHistory)
        && tremorType == old(tremorType) && smoothingFactor == old(smoothingFactor)
      ensures MinSamples <= |movementHistory| ==>
        var (amplitude, frequency) := TremorMetrics(sqrt, movementHistory);
        && amplitudeHistory == PushCapped(old(amplitudeHistory), amplitude, MetricCapacity)
        && frequencyHistory == PushCapped(old(frequencyHistory), frequency, MetricCapacity)
        && tremorType == Classify(amplitude, frequency)
        && smoothingFactor == SmoothingFor(tremorType)
    {
      if |movementHistory| < MinSamples {
        return;
      }

      var amplitude, frequency := CalculateTremorMetrics(sqrt);

      amplitudeHistory := amplitudeHistory + [amplitude];
      frequencyHistory := frequencyHistory + [frequency];
      if |amplitudeHistory| > MetricCapacity {
        amplitudeHistory := amplitudeHistory[1..];
      }
      if |frequencyHistory| > MetricCapacity {
        frequencyHistory := frequencyHistory[1..];
      }
      assert amplitudeHistory == PushCapped(old(amplitudeHistory), amplitude, MetricCapacity);
      assert frequencyHistory == PushCapped(old(frequencyHistory), frequency, MetricCapacity);
      PushCappedElements(old(amplitudeHistory), amplitude, MetricCapacity);
      PushCappedElements(old(frequencyHistory), frequency, MetricCapacity);

      tremorType := Classify(amplitude, frequency);
      QuietClassification(amplitude);
      smoothingFactor := SmoothingFor(tremorType);
    }

    /** `get_tremor_metrics`: the mean recorded frequency, the mean recorded
        amplitude (each 0 when nothing is recorded) and the current tremor type. */
    function GetTremorMetrics(): (metrics: (real, real, TremorType))
      reads this
      ensures metrics.2 == tremorType
      ensures frequencyHistory != [] ==> metrics.0 * |frequencyHistory| as real == Sum(frequencyHistory)
      ensures amplitudeHistory != [] ==> metrics.1 * |amplitudeHistory| as real == Sum(amplitudeHistory)
      ensures Untuned() ==> metrics == (0.0, 0.0, Mixed)
    {
      (Mean(frequencyHistory), Mean(amplitudeHistory), tremorType)
    }
  }

  /** What a consistent filter reports: frequency 0, a non-negative amplitude, and
      never action or high-frequency tremor. */
  lemma ReportedMetrics(f: TremorFilter)
    requires f.Consistent()
    ensures f.GetTremorMetrics().0 == 0.0
    ensures 0.0 <= f.GetTremorMetrics().1
    ensures f.GetTremorMetrics().2 in {Resting, HighAmplitude, Mixed}
  {
    MeanOfZeros(f.frequencyHistory);
    MeanNonNegative(f.amplitudeHistory);
  }
}
