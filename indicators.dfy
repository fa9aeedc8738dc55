/**
 * The five indicator families of `FundSignalAnalyzer.calculate_technical_indicators`,
 * each a pure function of the net-value series with one value per row:
 * the 5/10 moving averages, the 14-period RSI, the 12/26 EMA MACD line,
 * the 20-period CCI and the 20-period, two-sigma Bollinger bands.
 *
 * Every rolling statistic uses a partial window (`min_periods=1`): at row i
 * it covers the last min(w, i + 1) values. A NaN cell is `None`.
 */
module Indicators {
  import opened Wrappers
  import opened Numerics

  const FastMaWindow: nat := 5
  const SlowMaWindow: nat := 10
  const RsiWindow: nat := 14
  const FastSpan: nat := 12
  const SlowSpan: nat := 26
  const CciWindow: nat := 20
  const BandWindow: nat := 20

  /** `series.rolling(window=w, min_periods=1).mean()` */
  function RollingMean(xs: seq<real>, w: nat): (r: seq<real>)
    requires 1 <= w
    ensures |r| == |xs|
  {
    seq(|xs|, i requires 0 <= i < |xs| => Mean(Window(xs, w, i)))
  }

  // ----------------------------------------------------------------------
  // RSI

  /** `delta.where(delta > 0, 0)`: the first row has no delta (NaN), which the mask turns into 0. */
  function Gains(xs: seq<real>): (r: seq<real>)
    ensures |r| == |xs|
  {
    seq(|xs|, i requires 0 <= i < |xs| =>
      if i == 0 then 0.0 else if xs[i] - xs[i - 1] > 0.0 then xs[i] - xs[i - 1] else 0.0)
  }

  /** `-delta.where(delta < 0, 0)` */
  function Losses(xs: seq<real>): (r: seq<real>)
    ensures |r| == |xs|
  {
    seq(|xs|, i requires 0 <= i < |xs| =>
      if i == 0 then 0.0 else if xs[i] - xs[i - 1] < 0.0 then -(xs[i] - xs[i - 1]) else 0.0)
  }

  /**
   * RSI from the average gain and loss: `100 - 100 / (1 + gain / loss)`
   * rounded to two places. A zero loss makes the ratio infinite (RSI 100) or,
   * with a zero gain, 0/0 = NaN, which `fillna(50)` replaces by 50.
   */
  function RsiValue(gain: real, loss: real): real
    requires 0.0 <= gain && 0.0 <= loss
  {
    if loss == 0.0 then
      if gain == 0.0 then 50.0 else 100.0
    else
      Round(100.0 - 100.0 / (1.0 + gain / loss), 2)
  }

  function Rsi(xs: seq<real>): (r: seq<real>)
    ensures |r| == |xs|
  {
    var gain := RollingMean(Gains(xs), RsiWindow);
    var loss := RollingMean(Losses(xs), RsiWindow);
    seq(|xs|, i requires 0 <= i < |xs| =>
      AverageGainLossNonnegative(xs, i);
      RsiValue(gain[i], loss[i]))
  }

  // ----------------------------------------------------------------------
  // MACD

  /** Smoothing factor of `ewm(span=span, adjust=False)`. */
  function Alpha(span: nat): real
    requires 1 <= span
  {
    2.0 / ((span + 1) as real)
  }

  /** The non-adjusted exponential moving average at row i. */
  function EmaAt(xs: seq<real>, alpha: real, i: nat): real
    requires i < |xs|
    decreases i
  {
    if i == 0 then xs[0] else alpha * xs[i] + (1.0 - alpha) * EmaAt(xs, alpha, i - 1)
  }

  /** `series.ewm(span=span, adjust=False).mean()` */
  function Ema(xs: seq<real>, span: nat): (r: seq<real>)
    requires 1 <= span
    ensures |r| == |xs|
  {
    seq(|xs|, i requires 0 <= i < |xs| => EmaAt(xs, Alpha(span), i))
  }

  /** `(exp1 - exp2).round(4)` with exp1, exp2 the 12- and 26-span EMAs. */
  function Macd(xs: seq<real>): (r: seq<real>)
    ensures |r| == |xs|
  {
    var fast := Ema(xs, FastSpan);
    var slow := Ema(xs, SlowSpan);
    seq(|xs|, i requires 0 <= i < |xs| => Round(fast[i] - slow[i], 4))
  }

  // ----------------------------------------------------------------------
  // CCI

  /**
   * CCI over one window whose last value is the current net value:
   * `(tp - tp_ma) / (0.015 * md)` rounded to two places, where a zero mean
   * deviation gives 0/0 = NaN, which `fillna(0)` replaces by 0
   * (see `CciFillIsZeroOverZero` for why the numerator is then zero too).
   */
  function CciValue(window: seq<real>): real
    requires |window| > 0
  {
    var md := MeanAbsDeviation(window);
    if md == 0.0 then 0.0 else Round((window[|window| - 1] - Mean(window)) / (0.015 * md), 2)
  }

  function Cci(xs: seq<real>): (r: seq<real>)
    ensures |r| == |xs|
  {
    seq(|xs|, i requires 0 <= i < |xs| => CciValue(Window(xs, CciWindow, i)))
  }

  // ----------------------------------------------------------------------
  // Bollinger bands

  /** `rolling(window=w, min_periods=1).std()`: NaN on a one-value window (ddof=1). */
  function RollingStd(xs: seq<real>, w: nat, sqrt: real -> real): (r: seq<Option<real>>)
    requires 1 <= w
    ensures |r| == |xs|
  {
    seq(|xs|, i requires 0 <= i < |xs| =>
      var window := Window(xs, w, i);
      if |window| < 2 then None else Some(sqrt(SampleVariance(window))))
  }

  /** `(mid + 2 * std).round(4)`; NaN where the std is NaN. */
  function UpperBand(xs: seq<real>, sqrt: real -> real): (r: seq<Option<real>>)
    ensures |r| == |xs|
  {
    var mid := RollingMean(xs, BandWindow);
    var std := RollingStd(xs, BandWindow, sqrt);
    seq(|xs|, i requires 0 <= i < |xs| =>
      match std[i]
      case None => None
      case Some(sd) => Some(Round(mid[i] + 2.0 * sd, 4)))
  }

  /** `(mid - 2 * std).round(4)`; NaN where the std is NaN. */
  function LowerBand(xs: seq<real>, sqrt: real -> real): (r: seq<Option<real>>)
    ensures |r| == |xs|
  {
    var mid := RollingMean(xs, BandWindow);
    var std := RollingStd(xs, BandWindow, sqrt);
    seq(|xs|, i requires 0 <= i < |xs| =>
      match std[i]
      case None => None
      case Some(sd) => Some(Round(mid[i] - 2.0 * sd, 4)))
  }

  // ======================================================================
  // Properties

  /** Every rolling mean stays within the bounds of the series. */
  lemma RollingMeanWithin(xs: seq<real>, w: nat, lo: real, hi: real)
    requires 1 <= w
    requires forall k :: 0 <= k < |xs| ==> lo <= xs[k] <= hi
    ensures forall i :: 0 <= i < |xs| ==> lo <= RollingMean(xs, w)[i] <= hi
  {
    forall i | 0 <= i < |xs|
      ensures lo <= RollingMean(xs, w)[i] <= hi
    {
      var window := Window(xs, w, i);
      assert forall k :: 0 <= k < |window| ==> window[k] == xs[i + 1 - |window| + k];
      MeanBounds(window, lo, hi);
    }
  }

  /** The first rolling mean is the first value (a one-value window). */
  lemma RollingMeanFirst(xs: seq<real>, w: nat)
    requires 1 <= w && |xs| > 0
    ensures RollingMean(xs, w)[0] == xs[0]
  {
    var s := Window(xs, w, 0);
    assert |s| == 1 && s[0] == xs[0];
    assert s[..0] == [];
    assert Sum(s) == Sum(s[..0]) + s[0] == xs[0];
  }

  /** A constant series has that constant as every rolling mean. */
  lemma RollingMeanOfConstant(xs: seq<real>, w: nat, c: real)
    requires 1 <= w
    requires forall k :: 0 <= k < |xs| ==> xs[k] == c
    ensures forall i :: 0 <= i < |xs| ==> RollingMean(xs, w)[i] == c
  {
    RollingMeanWithin(xs, w, c, c);
  }

  /**
   * Gains and losses split the first difference into its positive part and
   * its negated negative part: both are non-negative, at most one is
   * non-zero, and gain - loss is the difference (0 on the first row).
   */
  lemma GainsLossesSplitDifference(xs: seq<real>, i: nat)
    requires i < |xs|
    ensures 0.0 <= Gains(xs)[i] && 0.0 <= Losses(xs)[i]
    ensures Gains(xs)[i] == 0.0 || Losses(xs)[i] == 0.0
    ensures Gains(xs)[i] - Losses(xs)[i] == if i == 0 then 0.0 else xs[i] - xs[i - 1]
  {
  }

  /** For a zero-free loss the rounded RSI formula equals 100 * gain / (gain + loss). */
  lemma RsiClosedForm(gain: real, loss: real)
    requires 0.0 <= gain && 0.0 < loss
    ensures 100.0 - 100.0 / (1.0 + gain / loss) == 100.0 * gain / (gain + loss)
  {
    var rs := gain / loss;
    assert rs * loss == gain;
    var t := 1.0 + rs;
    var s := gain + loss;
    assert t * loss == s;
    var q := 100.0 / t;
    assert q * t == 100.0;
    assert q * s == 100.0 * loss;
    var u := 100.0 * gain / s;
    assert u * s == 100.0 * gain;
    assert (100.0 - q) * s == 100.0 * gain;
    MulCancel(100.0 - q, u, s);
  }

  /**
   * RSI from non-negative averages: 50 in the 0/0 case, 100 when
   * only the loss is zero, and otherwise the rounded share of gain in
   * gain + loss, so always within [0, 100].
   */
  lemma RsiValueSpec(gain: real, loss: real)
    requires 0.0 <= gain && 0.0 <= loss
    ensures gain == 0.0 && loss == 0.0 ==> RsiValue(gain, loss) == 50.0
    ensures 0.0 < gain + loss ==> RsiValue(gain, loss) == Round(100.0 * gain / (gain + loss), 2)
    ensures 0.0 <= RsiValue(gain, loss) <= 100.0
  {
    if loss == 0.0 {
      if gain != 0.0 {
        assert 100.0 * gain / (gain + loss) == 100.0;
        RoundInteger(100, 2);
      }
    } else {
      RsiClosedForm(gain, loss);
      var rs := gain / loss;
      assert rs * loss == gain;
      HundredOver(1.0 + rs);
      var x := 100.0 - 100.0 / (1.0 + rs);
      RoundMonotone(0.0, x, 2);
      RoundMonotone(x, 100.0, 2);
      RoundInteger(0, 2);
      RoundInteger(100, 2);
    }
  }

  /** The RSI column always lies in [0, 100]. */
  lemma RsiWithinRange(xs: seq<real>)
    ensures forall i :: 0 <= i < |xs| ==> 0.0 <= Rsi(xs)[i] <= 100.0
  {
    forall i | 0 <= i < |xs|
      ensures 0.0 <= Rsi(xs)[i] <= 100.0
    {
      AverageGainLossNonnegative(xs, i);
      RsiValueSpec(RollingMean(Gains(xs), RsiWindow)[i], RollingMean(Losses(xs), RsiWindow)[i]);
    }
  }

  lemma AverageGainLossNonnegative(xs: seq<real>, i: nat)
    requires i < |xs|
    ensures 0.0 <= RollingMean(Gains(xs), RsiWindow)[i]
    ensures 0.0 <= RollingMean(Losses(xs), RsiWindow)[i]
  {
    var g, l := Gains(xs), Losses(xs);
    forall k | 0 <= k < |xs| ensures 0.0 <= g[k] && 0.0 <= l[k] {
      GainsLossesSplitDifference(xs, k);
    }
    var gw, lw := Window(g, RsiWindow, i), Window(l, RsiWindow, i);
    assert forall k :: 0 <= k < |gw| ==> gw[k] == g[i + 1 - |gw| + k];
    assert forall k :: 0 <= k < |lw| ==> lw[k] == l[i + 1 - |lw| + k];
    MeanNonnegative(gw);
    MeanNonnegative(lw);
  }

  /** The first row has neither gain nor loss, so its RSI is the neutral 50. */
  lemma RsiFirstIsNeutral(xs: seq<real>)
    requires |xs| > 0
    ensures Rsi(xs)[0] == 50.0
  {
    RollingMeanFirst(Gains(xs), RsiWindow);
    RollingMeanFirst(Losses(xs), RsiWindow);
  }

  /** A flat series has RSI 50 on every row. */
  lemma RsiOfConstant(xs: seq<real>, c: real)
    requires forall k :: 0 <= k < |xs| ==> xs[k] == c
    ensures forall i :: 0 <= i < |xs| ==> Rsi(xs)[i] == 50.0
  {
    RollingMeanOfConstant(Gains(xs), RsiWindow, 0.0);
    RollingMeanOfConstant(Losses(xs), RsiWindow, 0.0);
  }

  /** A strictly rising series has RSI 100 on every row after the first. */
  lemma RsiOfRising(xs: seq<real>)
    requires forall k :: 0 < k < |xs| ==> xs[k - 1] < xs[k]
    ensures forall i :: 0 < i < |xs| ==> Rsi(xs)[i] == 100.0
  {
    var g := Gains(xs);
    RollingMeanOfConstant(Losses(xs), RsiWindow, 0.0);
    forall i | 0 < i < |xs|
      ensures 0.0 < RollingMean(g, RsiWindow)[i]
    {
      var gw := Window(g, RsiWindow, i);
      assert forall k :: 0 <= k < |gw| ==> gw[k] == g[i + 1 - |gw| + k];
      MeanPositive(gw, |gw| - 1);
    }
  }

  /** A convex combination of two values in [lo, hi] lies in [lo, hi]. */
  lemma ConvexWithin(alpha: real, x: real, e: real, lo: real, hi: real)
    requires 0.0 < alpha <= 1.0
    requires lo <= x <= hi && lo <= e <= hi
    ensures lo <= alpha * x + (1.0 - alpha) * e <= hi
  {
    assert alpha * x + (1.0 - alpha) * e == alpha * (x - lo) + (1.0 - alpha) * (e - lo) + lo;
    MulNonneg(alpha, x - lo);
    MulNonneg(1.0 - alpha, e - lo);
    assert alpha * x + (1.0 - alpha) * e == hi - alpha * (hi - x) - (1.0 - alpha) * (hi - e);
    MulNonneg(alpha, hi - x);
    MulNonneg(1.0 - alpha, hi - e);
  }

  /** The EMA is a running convex combination, so it stays within the bounds of the series. */
  lemma {:induction false} EmaWithin(xs: seq<real>, alpha: real, i: nat, lo: real, hi: real)
    requires 0.0 < alpha <= 1.0
    requires i < |xs|
    requires forall k :: 0 <= k <= i ==> lo <= xs[k] <= hi
    ensures lo <= EmaAt(xs, alpha, i) <= hi
  {
    if i > 0 {
      EmaWithin(xs, alpha, i - 1, lo, hi);
      ConvexWithin(alpha, xs[i], EmaAt(xs, alpha, i - 1), lo, hi);
    }
  }

  lemma AlphaInUnitInterval(span: nat)
    requires 1 <= span
    ensures 0.0 < Alpha(span) <= 1.0
  {
  }

  /** The first MACD value is 0: both EMAs start at the first net value. */
  lemma MacdFirstIsZero(xs: seq<real>)
    requires |xs| > 0
    ensures Macd(xs)[0] == 0.0
  {
    RoundInteger(0, 4);
  }

  /** A flat series has MACD 0 on every row. */
  lemma MacdOfConstant(xs: seq<real>, c: real)
    requires forall k :: 0 <= k < |xs| ==> xs[k] == c
    ensures forall i :: 0 <= i < |xs| ==> Macd(xs)[i] == 0.0
  {
    forall i | 0 <= i < |xs|
      ensures Macd(xs)[i] == 0.0
    {
      AlphaInUnitInterval(FastSpan);
      AlphaInUnitInterval(SlowSpan);
      EmaWithin(xs, Alpha(FastSpan), i, c, c);
      EmaWithin(xs, Alpha(SlowSpan), i, c, c);
      RoundInteger(0, 4);
    }
  }

  /**
   * The CCI fill only ever replaces 0/0: when the mean deviation of the
   * window is zero, the current value equals the window mean.
   */
  lemma CciFillIsZeroOverZero(xs: seq<real>, i: nat)
    requires i < |xs|
    requires MeanAbsDeviation(Window(xs, CciWindow, i)) == 0.0
    ensures xs[i] - RollingMean(xs, CciWindow)[i] == 0.0
  {
    var window := Window(xs, CciWindow, i);
    ZeroDeviationMeansCentered(window, |window| - 1);
  }

  /** The first CCI value is 0: a one-value window has no deviation. */
  lemma CciFirstIsZero(xs: seq<real>)
    requires |xs| > 0
    ensures Cci(xs)[0] == 0.0
  {
    assert Window(xs, CciWindow, 0) == [xs[0]];
    ConstantWindowStatistics([xs[0]], xs[0]);
  }

  /** A flat series has CCI 0 on every row. */
  lemma CciOfConstant(xs: seq<real>, c: real)
    requires forall k :: 0 <= k < |xs| ==> xs[k] == c
    ensures forall i :: 0 <= i < |xs| ==> Cci(xs)[i] == 0.0
  {
    forall i | 0 <= i < |xs|
      ensures Cci(xs)[i] == 0.0
    {
      var window := Window(xs, CciWindow, i);
      assert forall k :: 0 <= k < |window| ==> window[k] == xs[i + 1 - |window| + k];
      ConstantWindowStatistics(window, c);
    }
  }

  /**
   * The bands are NaN exactly on the first row (a one-value window has no
   * sample standard deviation) and, given a true square root, the lower band
   * never exceeds the upper band.
   */
  lemma BandsShape(xs: seq<real>, sqrt: real -> real, i: nat)
    requires IsSqrt(sqrt)
    requires i < |xs|
    ensures UpperBand(xs, sqrt)[i].Some? <==> 0 < i
    ensures LowerBand(xs, sqrt)[i].Some? <==> 0 < i
    ensures 0 < i ==> LowerBand(xs, sqrt)[i].value <= UpperBand(xs, sqrt)[i].value
  {
    if 0 < i {
      var window := Window(xs, BandWindow, i);
      VarianceNonnegative(window);
      var mid := RollingMean(xs, BandWindow)[i];
      var sd := sqrt(SampleVariance(window));
      assert 0.0 <= sd;
      RoundMonotone(mid - 2.0 * sd, mid + 2.0 * sd, 4);
    }
  }

  /** Both bands are NaN on the first row, whatever the square root. */
  lemma BandsUndefinedOnFirstRow(xs: seq<real>, sqrt: real -> real)
    requires 0 < |xs|
    ensures UpperBand(xs, sqrt)[0].None? && LowerBand(xs, sqrt)[0].None?
  {
    assert |Window(xs, BandWindow, 0)| == 1;
  }

  /** On a flat series both bands collapse onto the rounded constant from the second row on. */
  lemma BandsOfConstant(xs: seq<real>, sqrt: real -> real, c: real)
    requires IsSqrt(sqrt)
    requires forall k :: 0 <= k < |xs| ==> xs[k] == c
    ensures forall i :: 0 < i < |xs| ==>
      UpperBand(xs, sqrt)[i] == Some(Round(c, 4)) && LowerBand(xs, sqrt)[i] == Some(Round(c, 4))
  {
    RollingMeanOfConstant(xs, BandWindow, c);
    forall i | 0 < i < |xs|
      ensures UpperBand(xs, sqrt)[i] == Some(Round(c, 4)) && LowerBand(xs, sqrt)[i] == Some(Round(c, 4))
    {
      var window := Window(xs, BandWindow, i);
      assert forall k :: 0 <= k < |window| ==> window[k] == xs[i + 1 - |window| + k];
      ConstantWindowStatistics(window, c);
    }
  }
}
