/**
 * Arithmetic shared by the indicator formulas: sums and means over partial
 * rolling windows, absolute and squared deviations, decimal rounding and the
 * square root behind the sample standard deviation.
 *
 * Values are mathematical reals. The square root cannot be written as a
 * terminating function over the reals, so the formulas that need it take it
 * as a parameter `sqrt`, and every property that depends on it assumes
 * `IsSqrt(sqrt)`, which pins it down uniquely on the non-negative reals.
 */
module Numerics {

  /** Sum of a sequence, accumulated from the left. */
  function Sum(s: seq<real>): real
  {
    if |s| == 0 then 0.0 else Sum(s[..|s| - 1]) + s[|s| - 1]
  }

  /** Arithmetic mean of a non-empty sequence. */
  function Mean(s: seq<real>): real
    requires |s| > 0
  {
    Sum(s) / (|s| as real)
  }

  function Abs(x: real): real
  {
    if x < 0.0 then -x else x
  }

  function Min(a: int, b: int): int
  {
    if a <= b then a else b
  }

  /** The constant series c, c, ..., c of length n. */
  function Const(n: nat, c: real): (r: seq<real>)
    ensures |r| == n && forall k :: 0 <= k < n ==> r[k] == c
  {
    seq(n, _ => c)
  }

  /**
   * The partial rolling window of width w ending at index i: the last
   * min(w, i + 1) values up to and including xs[i] (pandas `rolling(window=w,
   * min_periods=1)`).
   */
  function Window(xs: seq<real>, w: nat, i: nat): (r: seq<real>)
    requires 1 <= w && i < |xs|
    ensures |r| == Min(w, i + 1) && r[|r| - 1] == xs[i]
  {
    xs[i + 1 - Min(w, i + 1) .. i + 1]
  }

  /** |s[k] - m| for every k. */
  function AbsDeviations(s: seq<real>, m: real): (r: seq<real>)
    ensures |r| == |s|
  {
    seq(|s|, k requires 0 <= k < |s| => Abs(s[k] - m))
  }

  /** (s[k] - m)^2 for every k. */
  function SquaredDeviations(s: seq<real>, m: real): (r: seq<real>)
    ensures |r| == |s|
  {
    seq(|s|, k requires 0 <= k < |s| => (s[k] - m) * (s[k] - m))
  }

  /** Mean absolute deviation from the mean (`np.mean(np.abs(x - np.mean(x)))`). */
  function MeanAbsDeviation(s: seq<real>): real
    requires |s| > 0
  {
    Mean(AbsDeviations(s, Mean(s)))
  }

  /** Sample variance with one degree of freedom removed (pandas `ddof=1`). */
  function SampleVariance(s: seq<real>): real
    requires |s| >= 2
  {
    Sum(SquaredDeviations(s, Mean(s))) / ((|s| - 1) as real)
  }

  /** sqrt is the non-negative square root on the non-negative reals (so sqrt(0) = 0). */
  ghost predicate IsSqrt(sqrt: real -> real)
  {
    && sqrt(0.0) == 0.0
    && forall v :: 0.0 <= v ==> 0.0 <= sqrt(v) && sqrt(v) * sqrt(v) == v
  }

  function Pow10(d: nat): (p: nat)
    ensures p >= 1
  {
    if d == 0 then 1 else 10 * Pow10(d - 1)
  }

  /**
   * Rounds x to d decimal places, ties upward. pandas rounds ties to even;
   * the two agree everywhere except at exact ties.
   */
  function Round(x: real, d: nat): real
  {
    RoundToGrid(x, Pow10(d) as real)
  }

  /** Rounds x to the nearest multiple of 1/p, ties upward. */
  function RoundToGrid(x: real, p: real): real
    requires p > 0.0
  {
    (x * p + 0.5).Floor as real / p
  }

  // ----------------------------------------------------------------------
  // Sums and means

  /** A sum of n values in [lo, hi] lies in [n * lo, n * hi]. */
  lemma {:induction false} SumBounds(s: seq<real>, lo: real, hi: real)
    requires forall k :: 0 <= k < |s| ==> lo <= s[k] <= hi
    ensures (|s| as real) * lo <= Sum(s) <= (|s| as real) * hi
  {
    if |s| > 0 {
      var p := s[..|s| - 1];
      assert forall k :: 0 <= k < |p| ==> p[k] == s[k];
      SumBounds(p, lo, hi);
    }
  }

  /** A sum of non-negative values is non-negative. */
  lemma {:induction false} SumNonnegative(s: seq<real>)
    requires forall k :: 0 <= k < |s| ==> 0.0 <= s[k]
    ensures 0.0 <= Sum(s)
  {
    if |s| > 0 {
      var p := s[..|s| - 1];
      assert forall k :: 0 <= k < |p| ==> p[k] == s[k];
      SumNonnegative(p);
    }
  }

  /** When non-negative values sum to zero, every one of them is zero. */
  lemma {:induction false} ZeroSumOfNonnegatives(s: seq<real>, k: nat)
    requires forall j :: 0 <= j < |s| ==> 0.0 <= s[j]
    requires Sum(s) == 0.0
    requires k < |s|
    ensures s[k] == 0.0
  {
    var p := s[..|s| - 1];
    assert forall j :: 0 <= j < |p| ==> p[j] == s[j];
    SumNonnegative(p);
    if k < |s| - 1 {
      ZeroSumOfNonnegatives(p, k);
    }
  }

  /** The mean of values in [lo, hi] lies in [lo, hi]. */
  lemma MeanBounds(s: seq<real>, lo: real, hi: real)
    requires |s| > 0
    requires forall k :: 0 <= k < |s| ==> lo <= s[k] <= hi
    ensures lo <= Mean(s) <= hi
  {
    SumBounds(s, lo, hi);
    var n := |s| as real;
    assert Mean(s) * n == Sum(s);
  }

  /** Mean, mean absolute deviation and sample variance of a constant window. */
  lemma ConstantWindowStatistics(s: seq<real>, c: real)
    requires |s| > 0
    requires forall k :: 0 <= k < |s| ==> s[k] == c
    ensures Mean(s) == c
    ensures MeanAbsDeviation(s) == 0.0
    ensures |s| >= 2 ==> SampleVariance(s) == 0.0
  {
    MeanBounds(s, c, c);
    MeanBounds(AbsDeviations(s, c), 0.0, 0.0);
    SumBounds(SquaredDeviations(s, c), 0.0, 0.0);
  }

  /**
   * A zero mean absolute deviation means every value of the window equals
   * its mean; in particular the latest value does, so the CCI numerator is
   * zero whenever its denominator is.
   */
  lemma ZeroDeviationMeansCentered(s: seq<real>, k: nat)
    requires |s| > 0 && k < |s|
    requires MeanAbsDeviation(s) == 0.0
    ensures s[k] == Mean(s)
  {
    var d := AbsDeviations(s, Mean(s));
    assert Sum(d) == Mean(d) * (|d| as real);
    ZeroSumOfNonnegatives(d, k);
  }

  /** A sum of non-negative values with one positive value is positive. */
  lemma {:induction false} SumPositive(s: seq<real>, k: nat)
    requires forall j :: 0 <= j < |s| ==> 0.0 <= s[j]
    requires k < |s| && 0.0 < s[k]
    ensures 0.0 < Sum(s)
  {
    var p := s[..|s| - 1];
    assert forall j :: 0 <= j < |p| ==> p[j] == s[j];
    if k < |s| - 1 {
      SumPositive(p, k);
    } else {
      SumNonnegative(p);
    }
  }

  lemma MeanNonnegative(s: seq<real>)
    requires |s| > 0
    requires forall k :: 0 <= k < |s| ==> 0.0 <= s[k]
    ensures 0.0 <= Mean(s)
  {
    SumNonnegative(s);
  }

  lemma MeanPositive(s: seq<real>, k: nat)
    requires forall j :: 0 <= j < |s| ==> 0.0 <= s[j]
    requires k < |s| && 0.0 < s[k]
    ensures 0.0 < Mean(s)
  {
    SumPositive(s, k);
  }

  lemma VarianceNonnegative(s: seq<real>)
    requires |s| >= 2
    ensures 0.0 <= SampleVariance(s)
  {
    SumNonnegative(SquaredDeviations(s, Mean(s)));
  }

  // ----------------------------------------------------------------------
  // Rounding and square root

  lemma MulNonneg(a: real, b: real)
    requires 0.0 <= a && 0.0 <= b
    ensures 0.0 <= a * b
  {
  }

  lemma MulCancel(a: real, b: real, c: real)
    requires 0.0 < c && a * c == b * c
    ensures a == b
  {
    assert a == a * c / c;
  }

  /** For t >= 1, 100 / t lies in (0, 100]. */
  lemma HundredOver(t: real)
    requires 1.0 <= t
    ensures 0.0 < 100.0 / t <= 100.0
  {
    assert 100.0 / t * t == 100.0;
  }

  lemma MulMonotone(x: real, y: real, p: real)
    requires x <= y && 0.0 < p
    ensures x * p <= y * p
  {
  }

  lemma DivMonotone(a: real, b: real, p: real)
    requires a <= b && 0.0 < p
    ensures a / p <= b / p
  {
  }

  lemma RoundToGridMonotone(x: real, y: real, p: real)
    requires x <= y && 0.0 < p
    ensures RoundToGrid(x, p) <= RoundToGrid(y, p)
  {
    MulMonotone(x, y, p);
    var fx, fy := (x * p + 0.5).Floor, (y * p + 0.5).Floor;
    assert fx <= fy;
    DivMonotone(fx as real, fy as real, p);
  }

  /** Rounding never reverses the order of two values. */
  lemma RoundMonotone(x: real, y: real, d: nat)
    requires x <= y
    ensures Round(x, d) <= Round(y, d)
  {
    RoundToGridMonotone(x, y, Pow10(d) as real);
  }

  /** A value on the grid is its own rounding. */
  lemma RoundToGridExact(x: real, p: real, q: int)
    requires p > 0.0 && x * p == q as real
    ensures RoundToGrid(x, p) == x
  {
    var f := (x * p + 0.5).Floor;
    assert f == q;
    assert RoundToGrid(x, p) == f as real / p;
    assert q as real / p * p == q as real;
    MulCancel(q as real / p, x, p);
  }

  lemma RoundToGridInteger(k: int, n: nat)
    requires n >= 1
    ensures RoundToGrid(k as real, n as real) == k as real
  {
    var q := k * n;
    assert (k as real) * (n as real) == q as real;
    RoundToGridExact(k as real, n as real, q);
  }

  /** Integers are left unchanged by rounding. */
  lemma RoundInteger(k: int, d: nat)
    ensures Round(k as real, d) == k as real
  {
    RoundToGridInteger(k, Pow10(d));
  }
}
