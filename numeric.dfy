/** Real-number vocabulary shared by the filter, the calibration and the GUI:
    positions, the abstract square root, and sums and means of readings. */
module Numeric {

  /** A pointer position or movement sample, `(f64, f64)` in the program. */
  type Position = (real, real)

  /** What the model knows of `f64::sqrt`: it is never negative and it maps 0 to 0.
      Everything else about it is left open. */
  ghost predicate IsSqrt(sqrt: real -> real)
  {
    sqrt(0.0) == 0.0 && forall v :: 0.0 <= sqrt(v)
  }

  /** The Euclidean length `(dx * dx + dy * dy).sqrt()` of a displacement. */
  function Length(sqrt: real -> real, dx: real, dy: real): (d: real)
    requires IsSqrt(sqrt)
    ensures 0.0 <= d
    ensures dx == 0.0 && dy == 0.0 ==> d == 0.0
  {
    sqrt(dx * dx + dy * dy)
  }

  function Abs(v: real): (a: real)
    ensures 0.0 <= a && (a == v || a == -v)
  {
    if v < 0.0 then -v else v
  }

  /** `v` lies on the closed segment between `a` and `b`, in either order. */
  predicate Between(v: real, a: real, b: real)
  {
    (a <= v <= b) || (b <= v <= a)
  }

  /** Left-to-right sum, the value of `iter().sum::<f64>()`. */
  function Sum(xs: seq<real>): real
  {
    if xs == [] then 0.0 else Sum(xs[..|xs| - 1]) + xs[|xs| - 1]
  }

  /** `c` raised to the power `n`. */
  function Pow(c: real, n: nat): (r: real)
    ensures 0.0 <= c ==> 0.0 <= r
  {
    if n == 0 then 1.0
    else
      var r := c * Pow(c, n - 1);
      assert 0.0 <= c ==> 0.0 <= r by {
        if 0.0 <= c {
          MulMonotone(0.0, Pow(c, n - 1), c);
        }
      }
      r
  }

  /** `a` is at most `c` times `b`. */
  predicate ScaledBelow(a: real, c: real, b: real)
  {
    a <= c * b
  }

  /** Entry `k` of `ds` is at most `c` times the entry before it. */
  predicate ShrinksBy(ds: seq<real>, c: real, k: nat)
    requires 0 < k < |ds|
  {
    ScaledBelow(ds[k], c, ds[k - 1])
  }

  /** A sequence in which every entry is at most `c` times the one before ends at
      most `c^(|ds| - 1)` times its first entry. */
  lemma {:induction false} GeometricDecay(ds: seq<real>, c: real)
    requires 0 < |ds| && 0.0 <= c
    requires forall k: nat :: 0 < k < |ds| ==> ShrinksBy(ds, c, k)
    ensures ds[|ds| - 1] <= Pow(c, |ds| - 1) * ds[0]
  {
    var n := |ds| - 1;
    if n > 0 {
      var init := ds[..n];
      assert forall k: nat :: 0 < k < |init| ==> ShrinksBy(init, c, k) by {
        forall k: nat | 0 < k < |init|
          ensures ShrinksBy(init, c, k)
        {
          assert ShrinksBy(ds, c, k);
        }
      }
      GeometricDecay(init, c);
      assert ShrinksBy(ds, c, n);
      MulMonotone(ds[n - 1], Pow(c, n - 1) * ds[0], c);
      assert c * (Pow(c, n - 1) * ds[0]) == Pow(c, n) * ds[0];
    }
  }

  /** A lower bound on every element bounds the sum from below by the count times it. */
  lemma {:induction false} SumAtLeast(xs: seq<real>, lo: real)
    requires forall i :: 0 <= i < |xs| ==> lo <= xs[i]
    ensures |xs| as real * lo <= Sum(xs)
  {
    if xs != [] {
      SumAtLeast(xs[..|xs| - 1], lo);
    }
  }

  /** An upper bound on every element bounds the sum from above by the count times it. */
  lemma {:induction false} SumAtMost(xs: seq<real>, hi: real)
    requires forall i :: 0 <= i < |xs| ==> xs[i] <= hi
    ensures Sum(xs) <= |xs| as real * hi
  {
    if xs != [] {
      SumAtMost(xs[..|xs| - 1], hi);
    }
  }

  /** The average of a history, 0 when it is empty (the guard of `get_tremor_metrics`). */
  function Mean(xs: seq<real>): (m: real)
    ensures xs == [] ==> m == 0.0
    ensures xs != [] ==> m * |xs| as real == Sum(xs)
  {
    if |xs| > 0 then Sum(xs) / |xs| as real else 0.0
  }

  /** A non-empty history's mean lies between any lower and upper bound of its entries. */
  lemma MeanBounds(xs: seq<real>, lo: real, hi: real)
    requires xs != []
    requires forall i :: 0 <= i < |xs| ==> lo <= xs[i] <= hi
    ensures lo <= Mean(xs) <= hi
  {
    var n := |xs| as real;
    SumAtLeast(xs, lo);
    SumAtMost(xs, hi);
    assert Mean(xs) * n == Sum(xs);
  }

  /** A history of non-negative entries has a non-negative mean, empty or not. */
  lemma MeanNonNegative(xs: seq<real>)
    requires forall v :: v in xs ==> 0.0 <= v
    ensures 0.0 <= Mean(xs)
  {
    if xs != [] {
      assert forall i :: 0 <= i < |xs| ==> xs[i] in xs;
      SumAtLeast(xs, 0.0);
      QuotientNonNegative(Sum(xs), |xs| as real);
    }
  }

  /** A history of zeros has mean 0, empty or not. */
  lemma MeanOfZeros(xs: seq<real>)
    requires forall v :: v in xs ==> v == 0.0
    ensures Mean(xs) == 0.0
  {
    if xs != [] {
      assert forall i :: 0 <= i < |xs| ==> xs[i] in xs;
      MeanBounds(xs, 0.0, 0.0);
    }
  }

  /** Small facts of ordered-field arithmetic, called as hints by the filter's algebra. */
  lemma QuotientBounds(a: real, d: real)
    requires 0.0 < a < d
    ensures 0.0 < a / d < 1.0
    ensures (a / d) * d == a
  {
    assert (a / d) * d == a;
    if 1.0 <= a / d {
      MulMonotone(1.0, a / d, d);
    }
  }

  lemma QuotientNonNegative(a: real, d: real)
    requires 0.0 <= a && 0.0 < d
    ensures 0.0 <= a / d
    ensures a == 0.0 ==> a / d == 0.0
  {
    assert (a / d) * d == a;
  }

  lemma MulMonotone(a: real, b: real, c: real)
    requires 0.0 <= c && a <= b
    ensures a * c <= b * c
  {
  }

  lemma MulAntitone(a: real, b: real, c: real)
    requires c <= 0.0 && a <= b
    ensures b * c <= a * c
  {
  }

  lemma MulStrict(a: real, b: real, c: real)
    requires 0.0 < c && a < b
    ensures a * c < b * c
  {
  }

  lemma CancelFactor(a: real, b: real, c: real)
    requires c != 0.0 && a * c == b * c
    ensures a == b
  {
    assert (a - b) * c == 0.0;
  }

  /** A fixed numerator over a larger positive denominator gives a smaller quotient. */
  lemma QuotientAntitone(n: real, d1: real, d2: real)
    requires 0.0 <= n && 0.0 < d1 <= d2
    ensures n / d2 <= n / d1
  {
    assert (n / d1) * d1 == n;
    assert (n / d2) * d2 == n;
    MulMonotone(d1, d2, n / d2);
    if n / d1 < n / d2 {
      MulStrict(n / d1, n / d2, d1);
    }
  }

  /** `a + (b - a) * f` with a weight `f` in [0, 1] lies between `a` and `b`. */
  lemma Interpolate(a: real, b: real, f: real)
    requires 0.0 <= f <= 1.0
    ensures Between(a + (b - a) * f, a, b)
  {
    ScaledBetween(b - a, f, (b - a) * f);
  }

  lemma ScaledBetween(d: real, f: real, t: real)
    requires 0.0 <= f <= 1.0 && t == d * f
    ensures Between(t, 0.0, d)
  {
    if 0.0 <= d {
      MulMonotone(0.0, f, d);
      MulMonotone(f, 1.0, d);
    } else {
      MulAntitone(0.0, f, d);
      MulAntitone(f, 1.0, d);
    }
  }

  /** Moving `x` toward a larger `m` by a fraction strictly between 0 and 1. */
  lemma TowardLarger(x: real, m: real, k: real)
    requires 0.0 < k < 1.0 && x < m
    ensures x < x + k * (m - x) < m
  {
    MulStrict(0.0, k, m - x);
    MulStrict(k, 1.0, m - x);
  }

  /** Moving `x` toward `m` by a fraction `k` strictly between 0 and 1 lands between
      them, on the same side of `m`, at distance `(1 - k)` times the old one. */
  lemma Contraction(x: real, m: real, k: real)
    requires 0.0 < k < 1.0
    ensures Between(x + k * (m - x), x, m)
    ensures x != m ==> x + k * (m - x) != x && x + k * (m - x) != m
    ensures x <= m ==> x + k * (m - x) <= m
    ensures m <= x ==> m <= x + k * (m - x)
    ensures x + k * (m - x) - m == (1.0 - k) * (x - m)
    ensures Abs(x + k * (m - x) - m) == (1.0 - k) * Abs(x - m)
  {
    var y := x + k * (m - x);
    assert y - m == (1.0 - k) * (x - m);
    if x < m {
      TowardLarger(x, m, k);
    } else if m < x {
      TowardLarger(-x, -m, k);
      assert -x + k * (-m - -x) == -y;
    }
  }
}
