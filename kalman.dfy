/** The scalar Kalman filter run independently on each axis (`KalmanFilter` in
    src/tremor_filter.rs): a value-level step function with its algebra, and the
    class whose `update` and `adjust_noise` change the filter in place. */
module Kalman {
  import opened Numeric

  /** The four numbers of one axis: estimate, error covariance, process noise
      and measurement noise. */
  datatype AxisState = AxisState(x: real, p: real, q: real, r: real)

  /** The parameters the filter is built with on both axes. */
  const Initial := AxisState(0.0, 1.0, 0.1, 5.0)

  /** Non-negative covariance and strictly positive noises: the regime in which
      the gain is a proper blending weight. */
  predicate WellPosed(s: AxisState)
  {
    0.0 <= s.p && 0.0 < s.q && 0.0 < s.r
  }

  /** The Kalman gain `p_pred / (p_pred + r)` with `p_pred = p + q`. */
  function Gain(s: AxisState): (k: real)
    requires s.p + s.q + s.r != 0.0
    ensures WellPosed(s) ==> 0.0 < k < 1.0
  {
    var k := (s.p + s.q) / (s.p + s.q + s.r);
    assert WellPosed(s) ==> 0.0 < k < 1.0 by {
      if WellPosed(s) {
        QuotientBounds(s.p + s.q, s.p + s.q + s.r);
      }
    }
    k
  }

  /** One predict/update step with the measurement `m`: the prediction keeps the
      estimate and adds `q` to the covariance, the correction moves the estimate
      toward `m` by the gain and scales the covariance by `1 - k`. */
  function Step(s: AxisState, m: real): (t: AxisState)
    requires s.p + s.q + s.r != 0.0
    ensures t.q == s.q && t.r == s.r
    ensures WellPosed(s) ==> WellPosed(t)
  {
    var k := Gain(s);
    var t := AxisState(s.x + k * (m - s.x), (1.0 - k) * (s.p + s.q), s.q, s.r);
    assert WellPosed(s) ==> WellPosed(t) by {
      if WellPosed(s) {
        MulMonotone(0.0, 1.0 - k, s.p + s.q);
      }
    }
    t
  }

  /** What the gain of a well-posed state satisfies: `k (p + q + r) = p + q`,
      `(1 - k) (p + q + r) = r`, and `1 - k` is at most `r / (q + r)`. */
  lemma GainFacts(s: AxisState)
    requires WellPosed(s)
    ensures Gain(s) * (s.p + s.q + s.r) == s.p + s.q
    ensures (1.0 - Gain(s)) * (s.p + s.q + s.r) == s.r
    ensures 1.0 - Gain(s) == s.r / (s.p + s.q + s.r)
    ensures 1.0 - Gain(s) <= s.r / (s.q + s.r)
  {
    var d := s.p + s.q + s.r;
    QuotientBounds(s.p + s.q, d);
    assert (s.r / d) * d == s.r;
    CancelFactor(1.0 - Gain(s), s.r / d, d);
    QuotientAntitone(s.r, s.q + s.r, d);
  }

  /** The new estimate lies between the old estimate and the measurement, strictly
      inside when the two differ. */
  lemma StepEstimateBetween(s: AxisState, m: real)
    requires WellPosed(s)
    ensures Between(Step(s, m).x, s.x, m)
    ensures s.x != m ==> Step(s, m).x != s.x && Step(s, m).x != m
  {
    Contraction(s.x, m, Gain(s));
  }

  /** After a step the covariance is `(p + q) r / (p + q + r)`: positive, and below
      both the predicted covariance and the measurement noise. */
  lemma StepCovariance(s: AxisState, m: real)
    requires WellPosed(s)
    ensures Step(s, m).p == (s.p + s.q) * s.r / (s.p + s.q + s.r)
    ensures 0.0 < Step(s, m).p < s.p + s.q
    ensures Step(s, m).p < s.r
  {
    GainFacts(s);
    CovarianceArith(s.p + s.q, s.r, 1.0 - Gain(s));
  }

  /** The covariance algebra with `c = r / (a + r)` standing for `1 - k`. */
  lemma CovarianceArith(a: real, r: real, c: real)
    requires 0.0 < a && 0.0 < r && c * (a + r) == r
    ensures c * a == a * r / (a + r)
    ensures 0.0 < c * a < a && c * a < r
  {
    assert c == r / (a + r);
    assert 0.0 < c < 1.0;
    MulStrict(0.0, c, a);
    MulStrict(c, 1.0, a);
    MulStrict(0.0, c, r);
  }

  /** `n` steps with the same measurement `v`. */
  function Repeat(s: AxisState, v: real, n: nat): (t: AxisState)
    requires WellPosed(s)
    ensures WellPosed(t) && t.q == s.q && t.r == s.r
    decreases n
  {
    if n == 0 then s else Step(Repeat(s, v, n - 1), v)
  }

  /** One step toward a measurement: the signed error is scaled by `1 - k`, which is
      at most `r / (q + r)`, so the estimate stays on its side of the measurement. */
  lemma StepTowards(s: AxisState, v: real)
    requires WellPosed(s)
    ensures Step(s, v).x - v == (1.0 - Gain(s)) * (s.x - v)
    ensures Abs(Step(s, v).x - v) == (1.0 - Gain(s)) * Abs(s.x - v)
    ensures Abs(Step(s, v).x - v) <= (s.r / (s.q + s.r)) * Abs(s.x - v)
    ensures s.x <= v ==> Step(s, v).x <= v
    ensures v <= s.x ==> v <= Step(s, v).x
  {
    Contraction(s.x, v, Gain(s));
    GainFacts(s);
    MulMonotone(1.0 - Gain(s), s.r / (s.q + s.r), Abs(s.x - v));
  }

  /** Fed a constant measurement, the estimate never moves away from it and never
      overshoots it: the distance to `v` does not grow and the side stays the same. */
  lemma {:induction false} ApproachesMonotonically(s: AxisState, v: real, m: nat, n: nat)
    requires WellPosed(s)
    requires m <= n
    ensures Abs(Repeat(s, v, n).x - v) <= Abs(Repeat(s, v, m).x - v)
    ensures Repeat(s, v, m).x <= v ==> Repeat(s, v, n).x <= v
    ensures v <= Repeat(s, v, m).x ==> v <= Repeat(s, v, n).x
    decreases n - m
  {
    if m < n {
      ApproachesMonotonically(s, v, m + 1, n);
      var a := Repeat(s, v, m);
      StepTowards(a, v);
      MulMonotone(1.0 - Gain(a), 1.0, Abs(a.x - v));
    }
  }

  /** Fed a constant measurement, the distance to it falls strictly at every step
      until the estimate sits on the measurement, and from then on stays 0. */
  lemma StrictlyApproaches(s: AxisState, v: real, m: nat, n: nat)
    requires WellPosed(s)
    requires m < n
    ensures Abs(Repeat(s, v, n).x - v) < Abs(Repeat(s, v, m).x - v) <==> Repeat(s, v, m).x != v
    ensures Repeat(s, v, m).x == v ==> Repeat(s, v, n).x == v
  {
    var a := Repeat(s, v, m);
    StepStrictlyTowards(a, v);
    assert Repeat(s, v, m + 1) == Step(a, v);
    ApproachesMonotonically(s, v, m + 1, n);
  }

  /** One step strictly shrinks a non-zero distance to the measurement, and keeps an
      estimate that sits on it. */
  lemma StepStrictlyTowards(s: AxisState, v: real)
    requires WellPosed(s)
    ensures s.x != v ==> Abs(Step(s, v).x - v) < Abs(s.x - v)
    ensures s.x == v ==> Step(s, v).x == v
  {
    StepTowards(s, v);
    if s.x != v {
      FractionBelow(Abs(Step(s, v).x - v), 1.0 - Gain(s), Abs(s.x - v));
    }
  }

  /** A fraction below 1 of a positive number is smaller than it. */
  lemma FractionBelow(a: real, f: real, d: real)
    requires 0.0 <= f < 1.0 && 0.0 < d && a == f * d
    ensures a < d
  {
    MulStrict(f, 1.0, d);
  }

  /** Fed a constant measurement, the distance to it after `n` steps is at most
      `c^n` times the initial one, where `c = r / (q + r)` (given as the solution of
      `c (q + r) = r`) lies strictly between 0 and 1: the estimate converges to the
      measurement at least geometrically. */
  lemma Converges(s: AxisState, v: real, n: nat, c: real)
    requires WellPosed(s)
    requires c * (s.q + s.r) == s.r
    ensures 0.0 < c < 1.0
    ensures Abs(Repeat(s, v, n).x - v) <= Pow(c, n) * Abs(s.x - v)
  {
    assert 0.0 < c < 1.0 by {
      RatioBounds(s.r, s.q + s.r, c);
    }
    var ds := Distances(s, v, n);
    forall k: nat | 0 < k < |ds|
      ensures ShrinksBy(ds, c, k)
    {
      DistancesShrink(s, v, n, c, k);
    }
    GeometricDecay(ds, c);
    DistancesAt(s, v, n, n);
    DistancesAt(s, v, n, 0);
  }

  /** Each recorded distance is at most `c` times the one before. */
  lemma DistancesShrink(s: AxisState, v: real, n: nat, c: real, k: nat)
    requires WellPosed(s) && c * (s.q + s.r) == s.r
    requires 0 < k <= n
    ensures ShrinksBy(Distances(s, v, n), c, k)
  {
    DistancesAt(s, v, n, k);
    DistancesAt(s, v, n, k - 1);
    RepeatContracts(s, v, k, c);
  }

  /** The distances to `v` after 0, 1, ..., `n` steps. */
  function Distances(s: AxisState, v: real, n: nat): (ds: seq<real>)
    requires WellPosed(s)
    ensures |ds| == n + 1
  {
    if n == 0 then [Abs(s.x - v)] else Distances(s, v, n - 1) + [Abs(Repeat(s, v, n).x - v)]
  }

  /** Entry `k` of `Distances` is the distance after `k` steps. */
  lemma {:induction false} DistancesAt(s: AxisState, v: real, n: nat, k: nat)
    requires WellPosed(s) && k <= n
    ensures Distances(s, v, n)[k] == Abs(Repeat(s, v, k).x - v)
  {
    if k < n {
      DistancesAt(s, v, n - 1, k);
    }
  }

  /** Step `n` of a repetition shrinks the distance by at least the factor `c = r / (q + r)`. */
  lemma RepeatContracts(s: AxisState, v: real, n: nat, c: real)
    requires WellPosed(s) && 0 < n
    requires c * (s.q + s.r) == s.r
    ensures ScaledBelow(Abs(Repeat(s, v, n).x - v), c, Abs(Repeat(s, v, n - 1).x - v))
  {
    RatioBounds(s.r, s.q + s.r, c);
    var a := Repeat(s, v, n - 1);
    StepTowards(a, v);
  }

  /** The solution `c` of `c d = a` for `0 < a < d` is `a / d`, strictly between 0 and 1. */
  lemma RatioBounds(a: real, d: real, c: real)
    requires 0.0 < a < d && c * d == a
    ensures c == a / d && 0.0 < c < 1.0
  {
    QuotientBounds(a, d);
    CancelFactor(c, a / d, d);
  }



  /** `p^2 + p q - q r`: positive exactly when the covariance is above the
      step's fixed point. */
  function Excess(s: AxisState): real
  {
    s.p * s.p + s.p * s.q - s.q * s.r
  }

  /** A step scales the excess by `(r / (p + q + r))^2`, so it keeps its sign. */
  lemma StepScalesExcess(s: AxisState, m: real)
    requires WellPosed(s)
    ensures Excess(Step(s, m)) == (s.r / (s.p + s.q + s.r)) * (s.r / (s.p + s.q + s.r)) * Excess(s)
  {
    GainFacts(s);
    ExcessArith(s.p, s.q, s.r, 1.0 - Gain(s));
  }

  lemma ExcessArith(p: real, q: real, r: real, c: real)
    requires c * (p + q + r) == r
    ensures (c * (p + q)) * (c * (p + q)) + (c * (p + q)) * q - q * r == c * c * (p * p + p * q - q * r)
  {
    var a := p + q;
    assert c * a + c * r == r;
    calc {
      (c * a) * (c * a) + (c * a) * q - q * r;
      c * c * (a * a) + c * a * q - q * (c * a + c * r);
      c * c * (a * a) - c * q * r;
      c * c * (a * a) - q * (c * (c * a + c * r));
      c * c * (a * a - a * q - q * r);
    }
  }

  /** A step lowers the covariance exactly when the excess is positive. */
  lemma CovarianceShrinksIff(s: AxisState, m: real)
    requires WellPosed(s)
    ensures Step(s, m).p < s.p <==> 0.0 < Excess(s)
  {
    GainFacts(s);
    ShrinkArith(s.p, s.q, s.r, 1.0 - Gain(s));
  }

  lemma ShrinkArith(p: real, q: real, r: real, c: real)
    requires 0.0 <= p && 0.0 < q && 0.0 < r && c * (p + q + r) == r
    ensures c * (p + q) < p <==> 0.0 < p * p + p * q - q * r
  {
    var d := p + q + r;
    var t := c * (p + q);
    assert t * d == (p + q) * r;
    assert p * d - (p + q) * r == p * p + p * q - q * r;
    if t < p {
      MulStrict(t, p, d);
    } else {
      assert p * d <= t * d;
    }
  }

  /** Above the fixed point a step lowers the covariance and stays above it. */
  lemma StepAboveFixedPoint(s: AxisState, m: real)
    requires WellPosed(s) && 0.0 < Excess(s)
    ensures 0.0 < Excess(Step(s, m))
    ensures 0.0 < Step(s, m).p < s.p
  {
    StepScalesExcess(s, m);
    var c := s.r / (s.p + s.q + s.r);
    QuotientBounds(s.r, s.p + s.q + s.r);
    MulStrict(0.0, c, c);
    MulStrict(0.0, c * c, Excess(s));
    CovarianceShrinksIff(s, m);
    StepCovariance(s, m);
  }

  /** From a state above the fixed point, the covariance decreases strictly at
      every step under a constant measurement, and stays positive. */
  lemma {:induction false} CovarianceDecreasing(s: AxisState, v: real, n: nat)
    requires WellPosed(s) && 0.0 < Excess(s)
    ensures 0.0 < Excess(Repeat(s, v, n))
    ensures 0.0 < Repeat(s, v, n + 1).p < Repeat(s, v, n).p
  {
    if n > 0 {
      CovarianceDecreasing(s, v, n - 1);
      StepAboveFixedPoint(Repeat(s, v, n - 1), v);
    }
    StepAboveFixedPoint(Repeat(s, v, n), v);
  }

  /** The filter's own starting parameters are above the fixed point: on each axis its
      covariance falls at every step while the pointer holds still. */
  lemma InitialCovarianceDecreasing(v: real, n: nat)
    ensures 0.0 < Repeat(Initial, v, n + 1).p < Repeat(Initial, v, n).p
  {
    assert Excess(Initial) == 0.6;
    CovarianceDecreasing(Initial, v, n);
  }

  /** `KalmanFilter`: one axis' estimator, updated in place. */
  class KalmanFilter {
    var x: real
    var p: real
    var q: real
    var r: real

    function State(): AxisState
      reads this
    {
      AxisState(x, p, q, r)
    }

    constructor (x: real, p: real, q: real, r: real)
      ensures State() == AxisState(x, p, q, r)
    {
      this.x, this.p, this.q, this.r := x, p, q, r;
    }

    /** Predict, then correct toward `measurement`; returns the new estimate. */
    method Update(measurement: real) returns (estimate: real)
      requires p + q + r != 0.0
      modifies this
      ensures State() == Step(old(State()), measurement)
      ensures estimate == x
    {
      var xPred := x;
      var pPred := p + q;
      var k := pPred / (pPred + r);
      x := xPred + k * (measurement - xPred);
      p := (1.0 - k) * pPred;
      estimate := x;
    }

    /** Replaces the measurement noise and nothing else. */
    method AdjustNoise(newR: real)
      modifies this
      ensures State() == old(State()).(r := newR)
    {
      r := newR;
    }
  }
}
