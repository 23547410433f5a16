/** The calibration statistics of src/calibration.rs: from the positions sampled
    while the user holds the pointer still, a tremor frequency, a tremor amplitude
    and a baseline stability score. The timed sampling loop itself is not modelled:
    the positions it collects are a parameter. */
module Calibration {
  import opened Numeric

  /** `CalibrationData`: what calibration hands to the filter. */
  datatype CalibrationData = CalibrationData(
    tremorFrequency: real,
    tremorAmplitude: real,
    baselineStability: real)

  /** The `anyhow::Result` that calibration returns. */
  datatype Result<T> = Ok(value: T) | Err(message: string)

  /** A step between consecutive samples counts as significant above this length. */
  const SignificantStep: real := 0.1

  /** The length of the sampling window, in seconds, that the step count is divided by. */
  const WindowSeconds: real := 5.0

  /** All samples are the same position: the pointer did not move at all. */
  ghost predicate AllSame(ps: seq<Position>)
  {
    forall i :: 0 <= i < |ps| ==> ps[i] == ps[0]
  }

  /** Euclidean length of the step from `a` to `b`. */
  function StepLength(sqrt: real -> real, a: Position, b: Position): real
    requires IsSqrt(sqrt)
  {
    Length(sqrt, b.0 - a.0, b.1 - a.1)
  }

  /** Sum of the lengths of the steps between consecutive samples. */
  function TotalDistance(sqrt: real -> real, ps: seq<Position>): real
    requires IsSqrt(sqrt)
  {
    if |ps| <= 1 then 0.0
    else TotalDistance(sqrt, ps[..|ps| - 1]) + StepLength(sqrt, ps[|ps| - 2], ps[|ps| - 1])
  }

  /** Number of steps between consecutive samples longer than `SignificantStep`. */
  function SignificantSteps(sqrt: real -> real, ps: seq<Position>): nat
    requires IsSqrt(sqrt)
  {
    if |ps| <= 1 then 0
    else SignificantSteps(sqrt, ps[..|ps| - 1])
         + (if StepLength(sqrt, ps[|ps| - 2], ps[|ps| - 1]) > SignificantStep then 1 else 0)
  }

  /** Distances are never negative, and a pointer that never moved travelled nothing. */
  lemma {:induction false} TotalDistanceFacts(sqrt: real -> real, ps: seq<Position>)
    requires IsSqrt(sqrt)
    ensures 0.0 <= TotalDistance(sqrt, ps)
    ensures AllSame(ps) ==> TotalDistance(sqrt, ps) == 0.0
  {
    if |ps| > 1 {
      var init := ps[..|ps| - 1];
      TotalDistanceFacts(sqrt, init);
      if AllSame(ps) {
        assert AllSame(init) by {
          forall i | 0 <= i < |init| ensures init[i] == init[0] {
            assert init[i] == ps[i] && init[0] == ps[0];
          }
        }
        assert ps[|ps| - 2] == ps[0] && ps[|ps| - 1] == ps[0];
      }
    }
  }

  /** At most every one of the `|ps| - 1` steps is significant, and none is when the
      pointer never moved. */
  lemma {:induction false} SignificantStepsFacts(sqrt: real -> real, ps: seq<Position>)
    requires IsSqrt(sqrt) && ps != []
    ensures SignificantSteps(sqrt, ps) <= |ps| - 1
    ensures AllSame(ps) ==> SignificantSteps(sqrt, ps) == 0
  {
    if |ps| > 1 {
      var init := ps[..|ps| - 1];
      SignificantStepsFacts(sqrt, init);
      if AllSame(ps) {
        assert AllSame(init) by {
          forall i | 0 <= i < |init| ensures init[i] == init[0] {
            assert init[i] == ps[i] && init[0] == ps[0];
          }
        }
        assert ps[|ps| - 2] == ps[0] && ps[|ps| - 1] == ps[0];
      }
    }
  }

  /** Extending a prefix by one sample adds that sample's step to both measures. */
  lemma PrefixStep(sqrt: real -> real, ps: seq<Position>, i: nat)
    requires IsSqrt(sqrt)
    requires 1 <= i < |ps|
    ensures TotalDistance(sqrt, ps[..i + 1]) == TotalDistance(sqrt, ps[..i]) + StepLength(sqrt, ps[i - 1], ps[i])
    ensures SignificantSteps(sqrt, ps[..i + 1])
            == SignificantSteps(sqrt, ps[..i]) + (if StepLength(sqrt, ps[i - 1], ps[i]) > SignificantStep then 1 else 0)
  {
    assert ps[..i + 1][..i] == ps[..i];
  }

  /** `analyze_tremor`: returns `(frequency, amplitude)`. The frequency is the number of
      significant steps per second of the window; the amplitude is the travelled
      distance divided by the number of samples (not by the number of steps). */
  method AnalyzeTremor(sqrt: real -> real, positions: seq<Position>) returns (frequency: real, amplitude: real)
    requires IsSqrt(sqrt)
    requires |positions| > 0
    ensures frequency == SignificantSteps(sqrt, positions) as real / WindowSeconds
    ensures amplitude == TotalDistance(sqrt, positions) / |positions| as real
  {
    var totalDistance := 0.0;
    for i := 1 to |positions|
      invariant totalDistance == TotalDistance(sqrt, positions[..i])
    {
      PrefixStep(sqrt, positions, i);
      totalDistance := totalDistance + StepLength(sqrt, positions[i - 1], positions[i]);
    }
    assert positions[..|positions|] == positions;

    var zeroCrossings: nat := 0;
    for i := 1 to |positions|
      invariant zeroCrossings == SignificantSteps(sqrt, positions[..i])
    {
      var movement := StepLength(sqrt, positions[i - 1], positions[i]);
      PrefixStep(sqrt, positions, i);
      if movement > SignificantStep {
        zeroCrossings := zeroCrossings + 1;
      }
    }

    frequency := zeroCrossings as real / WindowSeconds;
    amplitude := totalDistance / |positions| as real;
  }

  /** The calibration frequency is at most one significant step per sample gap per
      window, the amplitude is never negative, and a pointer that never moved
      measures no tremor at all. */
  lemma AnalysisBounds(sqrt: real -> real, positions: seq<Position>)
    requires IsSqrt(sqrt)
    requires |positions| > 0
    ensures 0.0 <= SignificantSteps(sqrt, positions) as real / WindowSeconds <= (|positions| - 1) as real / WindowSeconds
    ensures 0.0 <= TotalDistance(sqrt, positions) / |positions| as real
    ensures AllSame(positions) ==>
      SignificantSteps(sqrt, positions) as real / WindowSeconds == 0.0
      && TotalDistance(sqrt, positions) / |positions| as real == 0.0
  {
    TotalDistanceFacts(sqrt, positions);
    SignificantStepsFacts(sqrt, positions);
    QuotientNonNegative(TotalDistance(sqrt, positions), |positions| as real);
  }

  /** Sum of the x coordinates. */
  function SumX(ps: seq<Position>): real
  {
    if ps == [] then 0.0 else SumX(ps[..|ps| - 1]) + ps[|ps| - 1].0
  }

  /** Sum of the y coordinates. */
  function SumY(ps: seq<Position>): real
  {
    if ps == [] then 0.0 else SumY(ps[..|ps| - 1]) + ps[|ps| - 1].1
  }

  /** The squared Euclidean distance of `pos` from `(cx, cy)`. */
  function SquaredDistance(pos: Position, cx: real, cy: real): real
  {
    (pos.0 - cx) * (pos.0 - cx) + (pos.1 - cy) * (pos.1 - cy)
  }

  /** A squared distance is zero at the reference point and positive elsewhere. */
  lemma SquaredDistanceFacts(pos: Position, cx: real, cy: real)
    ensures pos == (cx, cy) ==> SquaredDistance(pos, cx, cy) == 0.0
    ensures pos != (cx, cy) ==> 0.0 < SquaredDistance(pos, cx, cy)
  {
    var dx, dy := pos.0 - cx, pos.1 - cy;
    SquareFacts(dx, dx * dx);
    SquareFacts(dy, dy * dy);
    assert SquaredDistance(pos, cx, cy) == dx * dx + dy * dy;
    assert pos == (pos.0, pos.1);
  }

  lemma SquareFacts(d: real, s: real)
    requires s == d * d
    ensures 0.0 <= s
    ensures d != 0.0 ==> 0.0 < s
  {
    if d != 0.0 {
      ProductPositive(d, d, s);
    }
  }

  lemma ProductPositive(a: real, b: real, s: real)
    requires (0.0 < a && 0.0 < b) || (a < 0.0 && b < 0.0)
    requires s == a * b
    ensures 0.0 < s
  {
  }

  /** Sum of the squared distances of all samples from `(cx, cy)`. */
  function Spread(ps: seq<Position>, cx: real, cy: real): real
  {
    if ps == [] then 0.0 else Spread(ps[..|ps| - 1], cx, cy) + SquaredDistance(ps[|ps| - 1], cx, cy)
  }

  /** The mean squared distance of the samples from their centroid. */
  function Variance(ps: seq<Position>): real
    requires ps != []
  {
    var n := |ps| as real;
    Spread(ps, SumX(ps) / n, SumY(ps) / n) / n
  }

  /** `calculate_stability`: `1 / (1 + variance)`. It lies in (0, 1], and it is exactly 1
      when, and only when, all samples are the same position. */
  function CalculateStability(positions: seq<Position>): (stability: real)
    requires positions != []
    ensures 0.0 < stability <= 1.0
    ensures stability == 1.0 <==> AllSame(positions)
  {
    var variance := Variance(positions);
    VarianceFacts(positions);
    StabilityArith(variance);
    1.0 / (1.0 + variance)
  }

  lemma StabilityArith(v: real)
    requires 0.0 <= v
    ensures 0.0 < 1.0 / (1.0 + v) <= 1.0
    ensures 1.0 / (1.0 + v) == 1.0 <==> v == 0.0
  {
    QuotientAntitone(1.0, 1.0, 1.0 + v);
    assert (1.0 / (1.0 + v)) * (1.0 + v) == 1.0;
  }

  /** The variance is never negative, and it is zero exactly when all samples coincide. */
  lemma VarianceFacts(ps: seq<Position>)
    requires ps != []
    ensures 0.0 <= Variance(ps)
    ensures Variance(ps) == 0.0 <==> AllSame(ps)
  {
    var n := |ps| as real;
    var cx, cy := SumX(ps) / n, SumY(ps) / n;
    SpreadNonNegative(ps, cx, cy);
    var s := Spread(ps, cx, cy);
    assert Variance(ps) * n == s;
    if AllSame(ps) {
      var c := ps[0];
      SumsOfConstant(ps, c);
      DivideBack(SumX(ps), n, c.0);
      DivideBack(SumY(ps), n, c.1);
      SpreadAtCommonPoint(ps, cx, cy);
    }
    if Variance(ps) == 0.0 {
      SpreadZero(ps, cx, cy);
      assert AllSame(ps);
    }
  }

  lemma {:induction false} SpreadNonNegative(ps: seq<Position>, cx: real, cy: real)
    ensures 0.0 <= Spread(ps, cx, cy)
  {
    if ps != [] {
      SpreadNonNegative(ps[..|ps| - 1], cx, cy);
      SquaredDistanceFacts(ps[|ps| - 1], cx, cy);
    }
  }

  /** A zero spread puts every sample on the reference point. */
  lemma {:induction false} SpreadZero(ps: seq<Position>, cx: real, cy: real)
    requires Spread(ps, cx, cy) == 0.0
    ensures forall i :: 0 <= i < |ps| ==> ps[i] == (cx, cy)
  {
    if ps != [] {
      var init, last := ps[..|ps| - 1], ps[|ps| - 1];
      SpreadNonNegative(init, cx, cy);
      SquaredDistanceFacts(last, cx, cy);
      SpreadZero(init, cx, cy);
      forall i | 0 <= i < |ps| ensures ps[i] == (cx, cy) {
        if i < |ps| - 1 {
          assert ps[i] == init[i];
        }
      }
    }
  }

  /** Samples that all sit on the reference point have zero spread. */
  lemma {:induction false} SpreadAtCommonPoint(ps: seq<Position>, cx: real, cy: real)
    requires forall i :: 0 <= i < |ps| ==> ps[i] == (cx, cy)
    ensures Spread(ps, cx, cy) == 0.0
  {
    if ps != [] {
      SpreadAtCommonPoint(ps[..|ps| - 1], cx, cy);
      SquaredDistanceFacts(ps[|ps| - 1], cx, cy);
    }
  }

  lemma DivideBack(s: real, n: real, a: real)
    requires 0.0 < n && s == n * a
    ensures s / n == a
  {
    CancelFactor(s / n, a, n);
  }

  lemma {:induction false} SumsOfConstant(ps: seq<Position>, c: Position)
    requires forall i :: 0 <= i < |ps| ==> ps[i] == c
    ensures SumX(ps) == |ps| as real * c.0
    ensures SumY(ps) == |ps| as real * c.1
  {
    if ps != [] {
      SumsOfConstant(ps[..|ps| - 1], c);
    }
  }

  /** `perform_calibration` after its sampling loop: the record carries the frequency,
      the amplitude and the stability of the collected positions, and it is always `Ok`. */
  method PerformCalibration(sqrt: real -> real, positions: seq<Position>) returns (result: Result<CalibrationData>)
    requires IsSqrt(sqrt)
    requires |positions| > 0
    ensures result.Ok?
    ensures result.value.tremorFrequency == SignificantSteps(sqrt, positions) as real / WindowSeconds
    ensures result.value.tremorAmplitude == TotalDistance(sqrt, positions) / |positions| as real
    ensures result.value.baselineStability == CalculateStability(positions)
    ensures |positions| == 1 ==> result.value == CalibrationData(0.0, 0.0, 1.0)
  {
    var frequency, amplitude := AnalyzeTremor(sqrt, positions);
    var stability := CalculateStability(positions);
    result := Ok(CalibrationData(frequency, amplitude, stability));
  }
}
