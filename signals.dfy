/**
 * Trading labels and the rules that assign them. Each label column starts
 * as all-hold and is then overwritten, mask by mask, in a fixed order
 * (`df.loc[mask, column] = label`); a later mask wins where two overlap.
 *
 * Crossing masks compare row i with row i - 1. Row 0 has no previous row
 * (`shift(1)` yields NaN there), and every comparison with NaN is false, so
 * no crossing ever fires on row 0; a NaN band value blocks a comparison the
 * same way.
 */
module Signals {
  import opened Wrappers
  import opened Numerics

  datatype Signal = Hold | Buy | Sell | OpportunisticBuy | RiskAlert
  {
    /** The label as written into the report. */
    function Text(): string
    {
      match this
      case Hold => "持有"
      case Buy => "买入"
      case Sell => "卖出"
      case OpportunisticBuy => "机会买入"
      case RiskAlert => "提示风险"
    }
  }

  /** The all-hold column `df[column] = '持有'`. */
  function Holds(n: nat): (r: seq<Signal>)
    ensures |r| == n
  {
    seq(n, _ => Hold)
  }

  /** `df.loc[mask, column] = s` on a column, as a value. */
  function Overwrite(base: seq<Signal>, mask: seq<bool>, s: Signal): (r: seq<Signal>)
    requires |mask| == |base|
    ensures |r| == |base|
  {
    seq(|base|, i requires 0 <= i < |base| => if mask[i] then s else base[i])
  }

  /** `df.loc[mask, column] = s` in place. */
  method AssignWhere(column: array<Signal>, mask: seq<bool>, s: Signal)
    requires |mask| == column.Length
    modifies column
    ensures column[..] == Overwrite(old(column[..]), mask, s)
  {
    ghost var before := column[..];
    var i := 0;
    while i < column.Length
      invariant 0 <= i <= column.Length
      invariant forall k :: 0 <= k < i ==> column[k] == (if mask[k] then s else before[k])
      invariant forall k :: i <= k < column.Length ==> column[k] == before[k]
    {
      if mask[i] {
        column[i] := s;
      }
      i := i + 1;
    }
  }

  // ----------------------------------------------------------------------
  // Crossing masks

  /** `(a > b) & (a.shift(1) <= b.shift(1))` */
  function CrossAbove(a: seq<real>, b: seq<real>): (r: seq<bool>)
    requires |a| == |b|
    ensures |r| == |a|
  {
    seq(|a|, i requires 0 <= i < |a| => 0 < i && a[i] > b[i] && a[i - 1] <= b[i - 1])
  }

  /** `(a < b) & (a.shift(1) >= b.shift(1))` */
  function CrossBelow(a: seq<real>, b: seq<real>): (r: seq<bool>)
    requires |a| == |b|
    ensures |r| == |a|
  {
    seq(|a|, i requires 0 <= i < |a| => 0 < i && a[i] < b[i] && a[i - 1] >= b[i - 1])
  }

  /** Hold, then buy where `buy`, then sell where `sell`. */
  function CrossLabels(buy: seq<bool>, sell: seq<bool>): (r: seq<Signal>)
    requires |buy| == |sell|
    ensures |r| == |buy|
  {
    Overwrite(Overwrite(Holds(|buy|), buy, Buy), sell, Sell)
  }

  /** Moving-average labels: buy when MA5 crosses above MA10, sell when it crosses below. */
  function MaSignals(fast: seq<real>, slow: seq<real>): (r: seq<Signal>)
    requires |fast| == |slow|
    ensures |r| == |fast|
  {
    CrossLabels(CrossAbove(fast, slow), CrossBelow(fast, slow))
  }

  /** Buy when x rises above `lower`, sell when it falls below `upper`. */
  function ThresholdSignals(x: seq<real>, lower: real, upper: real): (r: seq<Signal>)
    ensures |r| == |x|
  {
    CrossLabels(CrossAbove(x, Const(|x|, lower)), CrossBelow(x, Const(|x|, upper)))
  }

  const RsiOversold: real := 30.0
  const RsiOverbought: real := 70.0
  const MacdLevel: real := 100.0
  const CciLevel: real := 100.0

  function RsiSignals(rsi: seq<real>): (r: seq<Signal>)
    ensures |r| == |rsi|
  {
    ThresholdSignals(rsi, RsiOversold, RsiOverbought)
  }

  function MacdSignals(macd: seq<real>): (r: seq<Signal>)
    ensures |r| == |macd|
  {
    ThresholdSignals(macd, -MacdLevel, MacdLevel)
  }

  function CciSignals(cci: seq<real>): (r: seq<Signal>)
    ensures |r| == |cci|
  {
    ThresholdSignals(cci, -CciLevel, CciLevel)
  }

  // ----------------------------------------------------------------------
  // Bollinger masks; a NaN band (None) makes every comparison with it false

  /** `price < lower` */
  function BelowBand(xs: seq<real>, lower: seq<Option<real>>): (r: seq<bool>)
    requires |lower| == |xs|
    ensures |r| == |xs|
  {
    seq(|xs|, i requires 0 <= i < |xs| => lower[i].Some? && xs[i] < lower[i].value)
  }

  /** `price > upper` */
  function AboveBand(xs: seq<real>, upper: seq<Option<real>>): (r: seq<bool>)
    requires |upper| == |xs|
    ensures |r| == |xs|
  {
    seq(|xs|, i requires 0 <= i < |xs| => upper[i].Some? && xs[i] > upper[i].value)
  }

  /** `(price > lower) & (price.shift(1) <= lower.shift(1))` */
  function CrossAboveBand(xs: seq<real>, lower: seq<Option<real>>): (r: seq<bool>)
    requires |lower| == |xs|
    ensures |r| == |xs|
  {
    seq(|xs|, i requires 0 <= i < |xs| =>
      0 < i && lower[i].Some? && xs[i] > lower[i].value
      && lower[i - 1].Some? && xs[i - 1] <= lower[i - 1].value)
  }

  /** `(price < upper) & (price.shift(1) >= upper.shift(1))` */
  function CrossBelowBand(xs: seq<real>, upper: seq<Option<real>>): (r: seq<bool>)
    requires |upper| == |xs|
    ensures |r| == |xs|
  {
    seq(|xs|, i requires 0 <= i < |xs| =>
      0 < i && upper[i].Some? && xs[i] < upper[i].value
      && upper[i - 1].Some? && xs[i - 1] >= upper[i - 1].value)
  }

  /** Hold, then opportunistic buy, risk alert, cross buy and cross sell, in that order. */
  function BollingerSignals(xs: seq<real>, lower: seq<Option<real>>, upper: seq<Option<real>>): (r: seq<Signal>)
    requires |lower| == |xs| && |upper| == |xs|
    ensures |r| == |xs|
  {
    var opportunity := Overwrite(Holds(|xs|), BelowBand(xs, lower), OpportunisticBuy);
    var risk := Overwrite(opportunity, AboveBand(xs, upper), RiskAlert);
    var crossBuy := Overwrite(risk, CrossAboveBand(xs, lower), Buy);
    Overwrite(crossBuy, CrossBelowBand(xs, upper), Sell)
  }

  // ======================================================================
  // Properties

  /**
   * With disjoint masks, the two-step overwrite yields buy exactly where the
   * buy mask holds, sell exactly where the sell mask holds and hold elsewhere.
   */
  lemma CrossLabelsOutcome(buy: seq<bool>, sell: seq<bool>, i: nat)
    requires |buy| == |sell| && i < |buy|
    requires !(buy[i] && sell[i])
    ensures CrossLabels(buy, sell)[i] == Buy <==> buy[i]
    ensures CrossLabels(buy, sell)[i] == Sell <==> sell[i]
    ensures CrossLabels(buy, sell)[i] == Hold <==> !buy[i] && !sell[i]
  {
  }

  /**
   * Moving-average labels: buy iff MA5 is now strictly above MA10 and was at
   * or below it on the previous row; sell iff it is now strictly below and was
   * at or above; otherwise hold (always on row 0).
   */
  lemma MaSignalsSpec(fast: seq<real>, slow: seq<real>, i: nat)
    requires |fast| == |slow| && i < |fast|
    ensures MaSignals(fast, slow)[i] == Buy <==> 0 < i && fast[i] > slow[i] && fast[i - 1] <= slow[i - 1]
    ensures MaSignals(fast, slow)[i] == Sell <==> 0 < i && fast[i] < slow[i] && fast[i - 1] >= slow[i - 1]
    ensures MaSignals(fast, slow)[i] in {Hold, Buy, Sell}
    ensures i == 0 ==> MaSignals(fast, slow)[i] == Hold
  {
    CrossLabelsOutcome(CrossAbove(fast, slow), CrossBelow(fast, slow), i);
  }

  /**
   * Threshold labels with lower <= upper: buy iff x is now strictly above
   * `lower` and was at or below it; sell iff x is now strictly below `upper`
   * and was at or above it; the two never coincide, and row 0 is hold.
   */
  lemma ThresholdSignalsSpec(x: seq<real>, lower: real, upper: real, i: nat)
    requires lower <= upper && i < |x|
    ensures ThresholdSignals(x, lower, upper)[i] == Buy <==> 0 < i && x[i] > lower && x[i - 1] <= lower
    ensures ThresholdSignals(x, lower, upper)[i] == Sell <==> 0 < i && x[i] < upper && x[i - 1] >= upper
    ensures ThresholdSignals(x, lower, upper)[i] in {Hold, Buy, Sell}
    ensures i == 0 ==> ThresholdSignals(x, lower, upper)[i] == Hold
  {
    var lo, hi := Const(|x|, lower), Const(|x|, upper);
    CrossLabelsOutcome(CrossAbove(x, lo), CrossBelow(x, hi), i);
  }

  /** RSI labels: buy on a rise through 30, sell on a fall through 70. */
  lemma RsiSignalsSpec(rsi: seq<real>, i: nat)
    requires i < |rsi|
    ensures RsiSignals(rsi)[i] == Buy <==> 0 < i && rsi[i] > 30.0 && rsi[i - 1] <= 30.0
    ensures RsiSignals(rsi)[i] == Sell <==> 0 < i && rsi[i] < 70.0 && rsi[i - 1] >= 70.0
    ensures RsiSignals(rsi)[i] in {Hold, Buy, Sell}
  {
    ThresholdSignalsSpec(rsi, RsiOversold, RsiOverbought, i);
  }

  /** MACD labels: buy on a rise through -100, sell on a fall through 100. */
  lemma MacdSignalsSpec(macd: seq<real>, i: nat)
    requires i < |macd|
    ensures MacdSignals(macd)[i] == Buy <==> 0 < i && macd[i] > -100.0 && macd[i - 1] <= -100.0
    ensures MacdSignals(macd)[i] == Sell <==> 0 < i && macd[i] < 100.0 && macd[i - 1] >= 100.0
    ensures MacdSignals(macd)[i] in {Hold, Buy, Sell}
  {
    ThresholdSignalsSpec(macd, -MacdLevel, MacdLevel, i);
  }

  /** CCI labels: buy on a rise through -100, sell on a fall through 100. */
  lemma CciSignalsSpec(cci: seq<real>, i: nat)
    requires i < |cci|
    ensures CciSignals(cci)[i] == Buy <==> 0 < i && cci[i] > -100.0 && cci[i - 1] <= -100.0
    ensures CciSignals(cci)[i] == Sell <==> 0 < i && cci[i] < 100.0 && cci[i - 1] >= 100.0
    ensures CciSignals(cci)[i] in {Hold, Buy, Sell}
  {
    ThresholdSignalsSpec(cci, -CciLevel, CciLevel, i);
  }

  /**
   * Precedence of the Bollinger overwrites: a cross below the upper band wins
   * over everything, then a cross above the lower band, then a close above
   * the upper band, then a close below the lower band; otherwise hold.
   */
  lemma BollingerPrecedence(xs: seq<real>, lower: seq<Option<real>>, upper: seq<Option<real>>, i: nat)
    requires |lower| == |xs| && |upper| == |xs| && i < |xs|
    ensures var r, sell, buy := BollingerSignals(xs, lower, upper)[i], CrossBelowBand(xs, upper)[i], CrossAboveBand(xs, lower)[i];
      && (r == Sell <==> sell)
      && (r == Buy <==> buy && !sell)
      && (r == RiskAlert <==> AboveBand(xs, upper)[i] && !buy && !sell)
      && (r == OpportunisticBuy <==> BelowBand(xs, lower)[i] && !AboveBand(xs, upper)[i] && !buy && !sell)
      && (r == Hold <==> !BelowBand(xs, lower)[i] && !AboveBand(xs, upper)[i] && !buy && !sell)
  {
  }

  /**
   * Without bands on a row (NaN), that row is hold; without bands on the
   * previous row, no crossing can fire, so only the band position counts.
   * With the standard deviation undefined on row 0, row 0 is hold and row 1
   * is never a crossing.
   */
  lemma BollingerUndefinedBands(xs: seq<real>, lower: seq<Option<real>>, upper: seq<Option<real>>, i: nat)
    requires |lower| == |xs| && |upper| == |xs| && i < |xs|
    ensures lower[i].None? && upper[i].None? ==> BollingerSignals(xs, lower, upper)[i] == Hold
    ensures 0 < i && lower[i - 1].None? && upper[i - 1].None? ==>
      BollingerSignals(xs, lower, upper)[i] in {Hold, OpportunisticBuy, RiskAlert}
  {
  }

  /** With ordered bands a close cannot be both below the lower and above the upper band. */
  lemma BandPositionsExclusive(xs: seq<real>, lower: seq<Option<real>>, upper: seq<Option<real>>, i: nat)
    requires |lower| == |xs| && |upper| == |xs| && i < |xs|
    requires lower[i].Some? && upper[i].Some? && lower[i].value <= upper[i].value
    ensures !(BelowBand(xs, lower)[i] && AboveBand(xs, upper)[i])
  {
  }

  /**
   * Both crossings fire together only when the bands met on the previous row
   * at the previous close; in that case the label is sell.
   */
  lemma BothCrossingsNeedClosedBands(xs: seq<real>, lower: seq<Option<real>>, upper: seq<Option<real>>, i: nat)
    requires |lower| == |xs| && |upper| == |xs| && 0 < i < |xs|
    requires lower[i - 1].Some? && upper[i - 1].Some? && lower[i - 1].value <= upper[i - 1].value
    requires CrossAboveBand(xs, lower)[i] && CrossBelowBand(xs, upper)[i]
    ensures lower[i - 1].value == upper[i - 1].value == xs[i - 1]
    ensures BollingerSignals(xs, lower, upper)[i] == Sell
  {
  }
}
