/**
 * `FundSignalAnalyzer`'s per-fund work: `calculate_technical_indicators`
 * adds the indicator and label columns to the fetched frame in place,
 * `create_signal_table` projects the result onto the report columns, and
 * `analyze_fund` chains fetch, indicators and projection, turning any
 * failure into no result.
 *
 * `WithIndicators` is the value the frame ends up holding; the methods build
 * it column by column and label by label, and the lemmas state what its
 * columns contain.
 */
module Analyzer {
  import opened Wrappers
  import opened Numerics
  import opened Indicators
  import opened Signals
  import opened Frames

  /** Below this many rows only the fixed fallback columns are produced. */
  const MinRows: nat := 20

  /** The report columns, in report order. */
  const SignalColumns: seq<string> := [
    CodeColumn, NameColumn, TypeColumn, DateColumn,
    MaSignalColumn, RsiColumn, RsiSignalColumn, CciValueColumn, CciSignalColumn,
    MacdValueColumn, MacdSignalColumn, LowerBandColumn, MidBandColumn,
    UpperBandColumn, BandSignalColumn
  ]

  function Scale(xs: seq<real>, k: real): (r: seq<real>)
    ensures |r| == |xs|
  {
    seq(|xs|, i requires 0 <= i < |xs| => k * xs[i])
  }

  // ----------------------------------------------------------------------
  // Column families, in the order the source adds them

  /** The fixed columns of a series shorter than `MinRows`. */
  function FallbackColumns(t: Table, xs: seq<real>): (r: Table)
    ensures r.height == t.height
  {
    FallbackBands(FallbackOscillators(t), xs)
  }

  /** Fallback labels and oscillator values: hold, RSI 50, MACD and CCI 0. */
  function FallbackOscillators(t: Table): Table
  {
    var n := t.height;
    t.Put(MaSignalColumn, Labels(Holds(n)))
     .Put(RsiColumn, Reals(Const(n, 50.0)))
     .Put(RsiSignalColumn, Labels(Holds(n)))
     .Put(MacdColumn, Reals(Const(n, 0.0)))
     .Put(MacdValueColumn, Reals(Const(n, 0.0)))
     .Put(MacdSignalColumn, Labels(Holds(n)))
     .Put(CciValueColumn, Reals(Const(n, 0.0)))
     .Put(CciSignalColumn, Labels(Holds(n)))
  }

  /** Fallback bands: the net value and 1.1 and 0.9 times it; label hold. */
  function FallbackBands(t: Table, xs: seq<real>): Table
  {
    t.Put(MidBandColumn, Reals(xs))
     .Put(UpperBandColumn, Reals(Scale(xs, 1.1)))
     .Put(LowerBandColumn, Reals(Scale(xs, 0.9)))
     .Put(BandSignalColumn, Labels(Holds(t.height)))
  }

  function MaColumns(t: Table, xs: seq<real>): Table
  {
    var fast := RollingMean(xs, FastMaWindow);
    var slow := RollingMean(xs, SlowMaWindow);
    t.Put(Ma5Column, Reals(fast))
     .Put(Ma10Column, Reals(slow))
     .Put(MaSignalColumn, Labels(MaSignals(fast, slow)))
  }

  function RsiColumns(t: Table, xs: seq<real>): Table
  {
    var rsi := Rsi(xs);
    t.Put(RsiColumn, Reals(rsi))
     .Put(RsiSignalColumn, Labels(RsiSignals(rsi)))
  }

  function MacdColumns(t: Table, xs: seq<real>): Table
  {
    var macd := Macd(xs);
    t.Put(MacdColumn, Reals(macd))
     .Put(MacdValueColumn, Reals(macd))
     .Put(MacdSignalColumn, Labels(MacdSignals(macd)))
  }

  function CciColumns(t: Table, xs: seq<real>): Table
  {
    var cci := Cci(xs);
    t.Put(CciValueColumn, Reals(cci))
     .Put(CciSignalColumn, Labels(CciSignals(cci)))
  }

  function BollingerColumns(t: Table, xs: seq<real>, sqrt: real -> real): Table
  {
    var lower := LowerBand(xs, sqrt);
    var upper := UpperBand(xs, sqrt);
    t.Put(MidBandColumn, Reals(RollingMean(xs, BandWindow)))
     .Put(UpperBandColumn, Floats(upper))
     .Put(LowerBandColumn, Floats(lower))
     .Put(BandSignalColumn, Labels(BollingerSignals(xs, lower, upper)))
  }

  /**
   * The frame after `calculate_technical_indicators`: unchanged when empty,
   * None when the net-value column is missing (the KeyError that
   * `analyze_fund` catches), the fallback below `MinRows` rows, and all five
   * families otherwise.
   */
  function WithIndicators(t: Table, sqrt: real -> real): (r: Option<Table>)
    ensures r.None? <==> 0 < t.height && (ValueColumn !in t.cols || !t.cols[ValueColumn].Reals?)
    ensures t.height == 0 ==> r == Some(t)
    ensures r.Some? ==> r.value.height == t.height
  {
    if t.height == 0 then Some(t)
    else if ValueColumn !in t.cols || !t.cols[ValueColumn].Reals? then None
    else
      var xs := t.cols[ValueColumn].xs;
      if t.height < MinRows then Some(FallbackColumns(t, xs))
      else Some(FullColumns(t, xs, sqrt))
  }

  /** All five families, in source order. */
  function FullColumns(t: Table, xs: seq<real>, sqrt: real -> real): (r: Table)
    ensures r.height == t.height
  {
    BollingerColumns(CciColumns(MacdColumns(RsiColumns(MaColumns(t, xs), xs), xs), xs), xs, sqrt)
  }

  // ----------------------------------------------------------------------
  // The in-place computation

  method CalculateTechnicalIndicators(df: Frame, sqrt: real -> real) returns (ok: bool)
    requires df.Valid()
    modifies df
    ensures ok <==> WithIndicators(old(df.Snapshot()), sqrt).Some?
    ensures ok ==> df.Snapshot() == WithIndicators(old(df.Snapshot()), sqrt).value
    ensures !ok ==> df.Snapshot() == old(df.Snapshot())
  {
    if df.height == 0 {
      return true;
    }
    if ValueColumn !in df.cols || !df.cols[ValueColumn].Reals? {
      return false;
    }
    var xs := df.cols[ValueColumn].xs;
    if df.height < MinRows {
      AddFallbackColumns(df, xs);
      return true;
    }
    AddMovingAverages(df, xs);
    AddRsi(df, xs);
    AddMacd(df, xs);
    AddCci(df, xs);
    AddBollinger(df, xs, sqrt);
    return true;
  }

  method AddFallbackColumns(df: Frame, xs: seq<real>)
    modifies df
    ensures df.Snapshot() == FallbackColumns(old(df.Snapshot()), xs)
  {
    var n := df.height;
    df.Assign(MaSignalColumn, Labels(Holds(n)));
    df.Assign(RsiColumn, Reals(Const(n, 50.0)));
    df.Assign(RsiSignalColumn, Labels(Holds(n)));
    df.Assign(MacdColumn, Reals(Const(n, 0.0)));
    df.Assign(MacdValueColumn, Reals(Const(n, 0.0)));
    df.Assign(MacdSignalColumn, Labels(Holds(n)));
    df.Assign(CciValueColumn, Reals(Const(n, 0.0)));
    df.Assign(CciSignalColumn, Labels(Holds(n)));
    df.Assign(MidBandColumn, Reals(xs));
    df.Assign(UpperBandColumn, Reals(Scale(xs, 1.1)));
    df.Assign(LowerBandColumn, Reals(Scale(xs, 0.9)));
    df.Assign(BandSignalColumn, Labels(Holds(n)));
  }

  /** A fresh all-hold label column of n rows. */
  method NewHoldColumn(n: nat) returns (labels: array<Signal>)
    ensures fresh(labels) && labels[..] == Holds(n)
  {
    labels := new Signal[n](_ => Hold);
  }

  method AddMovingAverages(df: Frame, xs: seq<real>)
    modifies df
    ensures df.Snapshot() == MaColumns(old(df.Snapshot()), xs)
  {
    var fast := RollingMean(xs, FastMaWindow);
    var slow := RollingMean(xs, SlowMaWindow);
    df.Assign(Ma5Column, Reals(fast));
    df.Assign(Ma10Column, Reals(slow));
    var labels := NewHoldColumn(|xs|);
    AssignWhere(labels, CrossAbove(fast, slow), Buy);
    AssignWhere(labels, CrossBelow(fast, slow), Sell);
    df.Assign(MaSignalColumn, Labels(labels[..]));
  }

  /** Labels for a threshold-crossing family, overwriting buy then sell. */
  method ThresholdLabels(x: seq<real>, lower: real, upper: real) returns (labels: array<Signal>)
    ensures fresh(labels) && labels[..] == ThresholdSignals(x, lower, upper)
  {
    labels := NewHoldColumn(|x|);
    AssignWhere(labels, CrossAbove(x, Const(|x|, lower)), Buy);
    AssignWhere(labels, CrossBelow(x, Const(|x|, upper)), Sell);
  }

  method AddRsi(df: Frame, xs: seq<real>)
    modifies df
    ensures df.Snapshot() == RsiColumns(old(df.Snapshot()), xs)
  {
    var rsi := Rsi(xs);
    df.Assign(RsiColumn, Reals(rsi));
    var labels := ThresholdLabels(rsi, RsiOversold, RsiOverbought);
    df.Assign(RsiSignalColumn, Labels(labels[..]));
  }

  method AddMacd(df: Frame, xs: seq<real>)
    modifies df
    ensures df.Snapshot() == MacdColumns(old(df.Snapshot()), xs)
  {
    var macd := Macd(xs);
    df.Assign(MacdColumn, Reals(macd));
    df.Assign(MacdValueColumn, Reals(macd));
    var labels := ThresholdLabels(macd, -MacdLevel, MacdLevel);
    df.Assign(MacdSignalColumn, Labels(labels[..]));
  }

  method AddCci(df: Frame, xs: seq<real>)
    modifies df
    ensures df.Snapshot() == CciColumns(old(df.Snapshot()), xs)
  {
    var cci := Cci(xs);
    df.Assign(CciValueColumn, Reals(cci));
    var labels := ThresholdLabels(cci, -CciLevel, CciLevel);
    df.Assign(CciSignalColumn, Labels(labels[..]));
  }

  method AddBollinger(df: Frame, xs: seq<real>, sqrt: real -> real)
    modifies df
    ensures df.Snapshot() == BollingerColumns(old(df.Snapshot()), xs, sqrt)
  {
    var lower := LowerBand(xs, sqrt);
    var upper := UpperBand(xs, sqrt);
    df.Assign(MidBandColumn, Reals(RollingMean(xs, BandWindow)));
    df.Assign(UpperBandColumn, Floats(upper));
    df.Assign(LowerBandColumn, Floats(lower));
    var labels := NewHoldColumn(|xs|);
    AssignWhere(labels, BelowBand(xs, lower), OpportunisticBuy);
    AssignWhere(labels, AboveBand(xs, upper), RiskAlert);
    AssignWhere(labels, CrossAboveBand(xs, lower), Buy);
    AssignWhere(labels, CrossBelowBand(xs, upper), Sell);
    df.Assign(BandSignalColumn, Labels(labels[..]));
  }

  // ======================================================================
  // Properties of calculate_technical_indicators

  lemma MaColumnsValid(t: Table, xs: seq<real>)
    requires t.Valid() && |xs| == t.height
    ensures var r := MaColumns(t, xs);
      r.Valid() && r.height == t.height
  {
    var fast := RollingMean(xs, FastMaWindow);
    var slow := RollingMean(xs, SlowMaWindow);
    var t1 := t.Put(Ma5Column, Reals(fast));
    PutValid(t, Ma5Column, Reals(fast));
    var t2 := t1.Put(Ma10Column, Reals(slow));
    PutValid(t1, Ma10Column, Reals(slow));
    PutValid(t2, MaSignalColumn, Labels(MaSignals(fast, slow)));
    assert MaColumns(t, xs) == t2.Put(MaSignalColumn, Labels(MaSignals(fast, slow)));
  }

  lemma MaColumnsContents(t: Table, xs: seq<real>)
    ensures var r := MaColumns(t, xs);
      && r.cols[Ma5Column] == Reals(RollingMean(xs, FastMaWindow))
      && r.cols[Ma10Column] == Reals(RollingMean(xs, SlowMaWindow))
      && r.cols[MaSignalColumn] == Labels(MaSignals(RollingMean(xs, FastMaWindow), RollingMean(xs, SlowMaWindow)))
      && (forall c :: c in r.cols <==> c in t.cols || c in {Ma5Column, Ma10Column, MaSignalColumn})
      && (forall c :: c in t.cols && c !in {Ma5Column, Ma10Column, MaSignalColumn} ==> r.cols[c] == t.cols[c])
  {
    var fast := RollingMean(xs, FastMaWindow);
    var slow := RollingMean(xs, SlowMaWindow);
    var t1 := t.Put(Ma5Column, Reals(fast));
    var t2 := t1.Put(Ma10Column, Reals(slow));
    assert MaColumns(t, xs) == t2.Put(MaSignalColumn, Labels(MaSignals(fast, slow)));
    assert MaColumns(t, xs).cols ==
      t.cols[Ma5Column := Reals(fast)][Ma10Column := Reals(slow)][MaSignalColumn := Labels(MaSignals(fast, slow))];
  }

  lemma RsiColumnsValid(t: Table, xs: seq<real>)
    requires t.Valid() && |xs| == t.height
    ensures var r := RsiColumns(t, xs);
      r.Valid() && r.height == t.height
  {
    var t1 := t.Put(RsiColumn, Reals(Rsi(xs)));
    PutValid(t, RsiColumn, Reals(Rsi(xs)));
    PutValid(t1, RsiSignalColumn, Labels(RsiSignals(Rsi(xs))));
    assert RsiColumns(t, xs) == t1.Put(RsiSignalColumn, Labels(RsiSignals(Rsi(xs))));
  }

  lemma RsiColumnsContents(t: Table, xs: seq<real>)
    ensures var r := RsiColumns(t, xs);
      && r.cols[RsiColumn] == Reals(Rsi(xs))
      && r.cols[RsiSignalColumn] == Labels(RsiSignals(Rsi(xs)))
      && (forall c :: c in r.cols <==> c in t.cols || c in {RsiColumn, RsiSignalColumn})
      && (forall c :: c in t.cols && c !in {RsiColumn, RsiSignalColumn} ==> r.cols[c] == t.cols[c])
  {
    var t1 := t.Put(RsiColumn, Reals(Rsi(xs)));
    assert RsiColumns(t, xs) == t1.Put(RsiSignalColumn, Labels(RsiSignals(Rsi(xs))));
    assert RsiColumns(t, xs).cols == t.cols[RsiColumn := Reals(Rsi(xs))][RsiSignalColumn := Labels(RsiSignals(Rsi(xs)))];
  }

  lemma MacdColumnsValid(t: Table, xs: seq<real>)
    requires t.Valid() && |xs| == t.height
    ensures var r := MacdColumns(t, xs);
      r.Valid() && r.height == t.height
  {
    var m := Macd(xs);
    var t1 := t.Put(MacdColumn, Reals(m));
    PutValid(t, MacdColumn, Reals(m));
    var t2 := t1.Put(MacdValueColumn, Reals(m));
    PutValid(t1, MacdValueColumn, Reals(m));
    PutValid(t2, MacdSignalColumn, Labels(MacdSignals(m)));
    assert MacdColumns(t, xs) == t2.Put(MacdSignalColumn, Labels(MacdSignals(m)));
  }

  lemma MacdColumnsContents(t: Table, xs: seq<real>)
    ensures var r := MacdColumns(t, xs);
      && r.cols[MacdColumn] == Reals(Macd(xs))
      && r.cols[MacdValueColumn] == Reals(Macd(xs))
      && r.cols[MacdSignalColumn] == Labels(MacdSignals(Macd(xs)))
      && (forall c :: c in r.cols <==> c in t.cols || c in {MacdColumn, MacdValueColumn, MacdSignalColumn})
      && (forall c :: c in t.cols && c !in {MacdColumn, MacdValueColumn, MacdSignalColumn} ==> r.cols[c] == t.cols[c])
  {
    var m := Macd(xs);
    var t1 := t.Put(MacdColumn, Reals(m));
    var t2 := t1.Put(MacdValueColumn, Reals(m));
    assert MacdColumns(t, xs) == t2.Put(MacdSignalColumn, Labels(MacdSignals(m)));
    assert MacdColumns(t, xs).cols ==
      t.cols[MacdColumn := Reals(m)][MacdValueColumn := Reals(m)][MacdSignalColumn := Labels(MacdSignals(m))];
  }

  lemma CciColumnsValid(t: Table, xs: seq<real>)
    requires t.Valid() && |xs| == t.height
    ensures var r := CciColumns(t, xs);
      r.Valid() && r.height == t.height
  {
    var t1 := t.Put(CciValueColumn, Reals(Cci(xs)));
    PutValid(t, CciValueColumn, Reals(Cci(xs)));
    PutValid(t1, CciSignalColumn, Labels(CciSignals(Cci(xs))));
    assert CciColumns(t, xs) == t1.Put(CciSignalColumn, Labels(CciSignals(Cci(xs))));
  }

  lemma CciColumnsContents(t: Table, xs: seq<real>)
    ensures var r := CciColumns(t, xs);
      && r.cols[CciValueColumn] == Reals(Cci(xs))
      && r.cols[CciSignalColumn] == Labels(CciSignals(Cci(xs)))
      && (forall c :: c in r.cols <==> c in t.cols || c in {CciValueColumn, CciSignalColumn})
      && (forall c :: c in t.cols && c !in {CciValueColumn, CciSignalColumn} ==> r.cols[c] == t.cols[c])
  {
    var t1 := t.Put(CciValueColumn, Reals(Cci(xs)));
    assert CciColumns(t, xs) == t1.Put(CciSignalColumn, Labels(CciSignals(Cci(xs))));
    assert CciColumns(t, xs).cols == t.cols[CciValueColumn := Reals(Cci(xs))][CciSignalColumn := Labels(CciSignals(Cci(xs)))];
  }

  lemma BollingerColumnsValid(t: Table, xs: seq<real>, sqrt: real -> real)
    requires t.Valid() && |xs| == t.height
    ensures var r, lower, upper := BollingerColumns(t, xs, sqrt), LowerBand(xs, sqrt), UpperBand(xs, sqrt);
      r.Valid() && r.height == t.height
  {
    var lower, upper := LowerBand(xs, sqrt), UpperBand(xs, sqrt);
    var mid, labels := RollingMean(xs, BandWindow), BollingerSignals(xs, lower, upper);
    var t1 := t.Put(MidBandColumn, Reals(mid));
    PutValid(t, MidBandColumn, Reals(mid));
    var t2 := t1.Put(UpperBandColumn, Floats(upper));
    PutValid(t1, UpperBandColumn, Floats(upper));
    var t3 := t2.Put(LowerBandColumn, Floats(lower));
    PutValid(t2, LowerBandColumn, Floats(lower));
    PutValid(t3, BandSignalColumn, Labels(labels));
    assert BollingerColumns(t, xs, sqrt) == t3.Put(BandSignalColumn, Labels(labels));
  }

  lemma BollingerColumnsContents(t: Table, xs: seq<real>, sqrt: real -> real)
    ensures var r, lower, upper := BollingerColumns(t, xs, sqrt), LowerBand(xs, sqrt), UpperBand(xs, sqrt);
      && r.cols[MidBandColumn] == Reals(RollingMean(xs, BandWindow))
      && r.cols[UpperBandColumn] == Floats(upper)
      && r.cols[LowerBandColumn] == Floats(lower)
      && r.cols[BandSignalColumn] == Labels(BollingerSignals(xs, lower, upper))
      && (forall c :: c in r.cols <==> c in t.cols || c in BandNames)
      && (forall c :: c in t.cols && c !in BandNames ==> r.cols[c] == t.cols[c])
  {
    var lower, upper := LowerBand(xs, sqrt), UpperBand(xs, sqrt);
    var mid, labels := RollingMean(xs, BandWindow), BollingerSignals(xs, lower, upper);
    var t1 := t.Put(MidBandColumn, Reals(mid));
    var t2 := t1.Put(UpperBandColumn, Floats(upper));
    var t3 := t2.Put(LowerBandColumn, Floats(lower));
    assert BollingerColumns(t, xs, sqrt) == t3.Put(BandSignalColumn, Labels(labels));
    assert BollingerColumns(t, xs, sqrt).cols ==
      t.cols[MidBandColumn := Reals(mid)][UpperBandColumn := Floats(upper)]
        [LowerBandColumn := Floats(lower)][BandSignalColumn := Labels(labels)];
  }

  lemma FallbackOscillatorsValid(t: Table)
    requires t.Valid()
    ensures var r, n := FallbackOscillators(t), t.height;
      r.Valid() && r.height == t.height
  {
    var n := t.height;
    var hold, fifty, zero := Labels(Holds(n)), Reals(Const(n, 50.0)), Reals(Const(n, 0.0));
    var t1 := t.Put(MaSignalColumn, hold);
    PutValid(t, MaSignalColumn, hold);
    var t2 := t1.Put(RsiColumn, fifty);
    PutValid(t1, RsiColumn, fifty);
    var t3 := t2.Put(RsiSignalColumn, hold);
    PutValid(t2, RsiSignalColumn, hold);
    var t4 := t3.Put(MacdColumn, zero);
    PutValid(t3, MacdColumn, zero);
    var t5 := t4.Put(MacdValueColumn, zero);
    PutValid(t4, MacdValueColumn, zero);
    var t6 := t5.Put(MacdSignalColumn, hold);
    PutValid(t5, MacdSignalColumn, hold);
    var t7 := t6.Put(CciValueColumn, zero);
    PutValid(t6, CciValueColumn, zero);
    PutValid(t7, CciSignalColumn, hold);
    assert FallbackOscillators(t) == t7.Put(CciSignalColumn, hold);
  }

  lemma FallbackOscillatorsContents(t: Table)
    ensures var r, n := FallbackOscillators(t), t.height;
      && r.cols[MaSignalColumn] == Labels(Holds(n))
      && r.cols[RsiColumn] == Reals(Const(n, 50.0))
      && r.cols[RsiSignalColumn] == Labels(Holds(n))
      && r.cols[MacdColumn] == Reals(Const(n, 0.0))
      && r.cols[MacdValueColumn] == Reals(Const(n, 0.0))
      && r.cols[MacdSignalColumn] == Labels(Holds(n))
      && r.cols[CciValueColumn] == Reals(Const(n, 0.0))
      && r.cols[CciSignalColumn] == Labels(Holds(n))
      && (forall c :: c in r.cols <==> c in t.cols || c in OscillatorNames)
      && (forall c :: c in t.cols && c !in OscillatorNames ==> r.cols[c] == t.cols[c])
  {
    var n := t.height;
    var hold, fifty, zero := Labels(Holds(n)), Reals(Const(n, 50.0)), Reals(Const(n, 0.0));
    var t1 := t.Put(MaSignalColumn, hold);
    var t2 := t1.Put(RsiColumn, fifty);
    var t3 := t2.Put(RsiSignalColumn, hold);
    var t4 := t3.Put(MacdColumn, zero);
    var t5 := t4.Put(MacdValueColumn, zero);
    var t6 := t5.Put(MacdSignalColumn, hold);
    var t7 := t6.Put(CciValueColumn, zero);
    assert FallbackOscillators(t) == t7.Put(CciSignalColumn, hold);
    assert FallbackOscillators(t).cols ==
      t.cols[MaSignalColumn := hold][RsiColumn := fifty][RsiSignalColumn := hold][MacdColumn := zero]
        [MacdValueColumn := zero][MacdSignalColumn := hold][CciValueColumn := zero][CciSignalColumn := hold];
  }

  lemma FallbackBandsValid(t: Table, xs: seq<real>)
    requires t.Valid() && |xs| == t.height
    ensures var r, n := FallbackBands(t, xs), t.height;
      r.Valid() && r.height == t.height
  {
    var hold := Labels(Holds(t.height));
    var t1 := t.Put(MidBandColumn, Reals(xs));
    PutValid(t, MidBandColumn, Reals(xs));
    var t2 := t1.Put(UpperBandColumn, Reals(Scale(xs, 1.1)));
    PutValid(t1, UpperBandColumn, Reals(Scale(xs, 1.1)));
    var t3 := t2.Put(LowerBandColumn, Reals(Scale(xs, 0.9)));
    PutValid(t2, LowerBandColumn, Reals(Scale(xs, 0.9)));
    PutValid(t3, BandSignalColumn, hold);
    assert FallbackBands(t, xs) == t3.Put(BandSignalColumn, hold);
  }

  lemma FallbackBandsContents(t: Table, xs: seq<real>)
    ensures var r, n := FallbackBands(t, xs), t.height;
      && r.cols[MidBandColumn] == Reals(xs)
      && r.cols[UpperBandColumn] == Reals(Scale(xs, 1.1))
      && r.cols[LowerBandColumn] == Reals(Scale(xs, 0.9))
      && r.cols[BandSignalColumn] == Labels(Holds(n))
      && (forall c :: c in r.cols <==> c in t.cols || c in BandNames)
      && (forall c :: c in t.cols && c !in BandNames ==> r.cols[c] == t.cols[c])
  {
    var hold := Labels(Holds(t.height));
    var t1 := t.Put(MidBandColumn, Reals(xs));
    var t2 := t1.Put(UpperBandColumn, Reals(Scale(xs, 1.1)));
    var t3 := t2.Put(LowerBandColumn, Reals(Scale(xs, 0.9)));
    assert FallbackBands(t, xs) == t3.Put(BandSignalColumn, hold);
    assert FallbackBands(t, xs).cols ==
      t.cols[MidBandColumn := Reals(xs)][UpperBandColumn := Reals(Scale(xs, 1.1))]
        [LowerBandColumn := Reals(Scale(xs, 0.9))][BandSignalColumn := hold];
  }

  /** An empty frame is returned unchanged. */
  lemma EmptyFrameUnchanged(t: Table, sqrt: real -> real)
    requires t.height == 0
    ensures WithIndicators(t, sqrt) == Some(t)
  {
  }

  lemma FallbackColumnsValid(t: Table, xs: seq<real>)
    requires t.Valid() && |xs| == t.height
    ensures var r := FallbackColumns(t, xs);
      r.Valid() && r.height == t.height
  {
    FallbackOscillatorsValid(t);
    FallbackBandsValid(FallbackOscillators(t), xs);
  }

  lemma FallbackColumnsContents(t: Table, xs: seq<real>)
    ensures var r, n := FallbackColumns(t, xs), t.height;
      && r.cols[MaSignalColumn] == Labels(Holds(n))
      && r.cols[RsiSignalColumn] == Labels(Holds(n))
      && r.cols[MacdSignalColumn] == Labels(Holds(n))
      && r.cols[CciSignalColumn] == Labels(Holds(n))
      && r.cols[BandSignalColumn] == Labels(Holds(n))
      && r.cols[RsiColumn] == Reals(Const(n, 50.0))
      && r.cols[MacdColumn] == Reals(Const(n, 0.0))
      && r.cols[MacdValueColumn] == Reals(Const(n, 0.0))
      && r.cols[CciValueColumn] == Reals(Const(n, 0.0))
      && r.cols[MidBandColumn] == Reals(xs)
      && r.cols[UpperBandColumn] == Reals(Scale(xs, 1.1))
      && r.cols[LowerBandColumn] == Reals(Scale(xs, 0.9))
      && (forall c :: c in r.cols <==> c in t.cols || c in FallbackNames)
      && (forall c :: c in t.cols && c !in FallbackNames ==> r.cols[c] == t.cols[c])
  {
    var t1 := FallbackOscillators(t);
    FallbackOscillatorsContents(t);
    FallbackBandsContents(t1, xs);
    var r := FallbackColumns(t, xs);
    assert r == FallbackBands(t1, xs);
    forall c | c in t.cols && c !in FallbackNames
      ensures r.cols[c] == t.cols[c]
    {
      assert c !in OscillatorNames && c !in BandNames;
      assert c in t1.cols;
    }
  }

  /**
   * Short series (1 to 19 rows): every label column is hold, RSI is 50,
   * MACD, macd值 and cci值 are 0, the middle band is the net value and the
   * upper and lower bands are 1.1 and 0.9 times it; the row count and every
   * other column are unchanged.
   */
  lemma ShortSeriesFallback(t: Table, sqrt: real -> real)
    requires t.Valid() && 0 < t.height < MinRows
    requires ValueColumn in t.cols && t.cols[ValueColumn].Reals?
    ensures WithIndicators(t, sqrt).Some?
    ensures var r, n, xs := WithIndicators(t, sqrt).value, t.height, t.cols[ValueColumn].xs;
      && r.Valid() && r.height == n
      && r.cols[MaSignalColumn] == Labels(Holds(n))
      && r.cols[RsiSignalColumn] == Labels(Holds(n))
      && r.cols[MacdSignalColumn] == Labels(Holds(n))
      && r.cols[CciSignalColumn] == Labels(Holds(n))
      && r.cols[BandSignalColumn] == Labels(Holds(n))
      && r.cols[RsiColumn] == Reals(Const(n, 50.0))
      && r.cols[MacdColumn] == Reals(Const(n, 0.0))
      && r.cols[MacdValueColumn] == Reals(Const(n, 0.0))
      && r.cols[CciValueColumn] == Reals(Const(n, 0.0))
      && r.cols[MidBandColumn] == Reals(xs)
      && r.cols[UpperBandColumn] == Reals(Scale(xs, 1.1))
      && r.cols[LowerBandColumn] == Reals(Scale(xs, 0.9))
      && (forall c :: c in r.cols <==> c in t.cols || c in FallbackNames)
      && (forall c :: c in t.cols && c !in FallbackNames ==> r.cols[c] == t.cols[c])
  {
    var xs := t.cols[ValueColumn].xs;
    FallbackColumnsValid(t, xs);
    FallbackColumnsContents(t, xs);
    assert WithIndicators(t, sqrt) == Some(FallbackColumns(t, xs));
  }

  const OscillatorNames: set<string> := {
    MaSignalColumn, RsiColumn, RsiSignalColumn, MacdColumn, MacdValueColumn, MacdSignalColumn,
    CciValueColumn, CciSignalColumn
  }

  const BandNames: set<string> := {MidBandColumn, UpperBandColumn, LowerBandColumn, BandSignalColumn}

  /** The columns the fallback writes. */
  const FallbackNames: set<string> := OscillatorNames + BandNames

  const FullNames: set<string> := {Ma5Column, Ma10Column} + FallbackNames

  lemma FullColumnsValid(t: Table, xs: seq<real>, sqrt: real -> real)
    requires t.Valid() && |xs| == t.height
    ensures var r := FullColumns(t, xs, sqrt);
      r.Valid() && r.height == t.height
  {
    var t1 := MaColumns(t, xs);
    MaColumnsValid(t, xs);
    var t2 := RsiColumns(t1, xs);
    RsiColumnsValid(t1, xs);
    var t3 := MacdColumns(t2, xs);
    MacdColumnsValid(t2, xs);
    var t4 := CciColumns(t3, xs);
    CciColumnsValid(t3, xs);
    BollingerColumnsValid(t4, xs, sqrt);
  }

  /** The indicator names, family by family. */
  lemma FullNamesByFamily(c: string)
    ensures c in FullNames <==>
      || c in {Ma5Column, Ma10Column, MaSignalColumn}
      || c in {RsiColumn, RsiSignalColumn}
      || c in {MacdColumn, MacdValueColumn, MacdSignalColumn}
      || c in {CciValueColumn, CciSignalColumn}
      || c in BandNames
  {
  }

  lemma FullColumnsKeys(t: Table, xs: seq<real>, sqrt: real -> real)
    ensures var r := FullColumns(t, xs, sqrt);
      && (forall c :: c in r.cols <==> c in t.cols || c in FullNames)
      && (forall c :: c in t.cols && c !in FullNames ==> r.cols[c] == t.cols[c])
  {
    var t1 := MaColumns(t, xs);
    MaColumnsContents(t, xs);
    var t2 := RsiColumns(t1, xs);
    RsiColumnsContents(t1, xs);
    var t3 := MacdColumns(t2, xs);
    MacdColumnsContents(t2, xs);
    var t4 := CciColumns(t3, xs);
    CciColumnsContents(t3, xs);
    BollingerColumnsContents(t4, xs, sqrt);
    var r := FullColumns(t, xs, sqrt);
    assert r == BollingerColumns(t4, xs, sqrt);
    forall c
      ensures c in r.cols <==> c in t.cols || c in FullNames
    {
      FullNamesByFamily(c);
    }
    forall c | c in t.cols && c !in FullNames
      ensures r.cols[c] == t.cols[c]
    {
      FullNamesByFamily(c);
      assert c in t1.cols && t1.cols[c] == t.cols[c];
      assert c in t2.cols && t2.cols[c] == t.cols[c];
      assert c in t3.cols && t3.cols[c] == t.cols[c];
      assert c in t4.cols && t4.cols[c] == t.cols[c];
    }
  }

  lemma FullColumnsContents(t: Table, xs: seq<real>, sqrt: real -> real)
    ensures var r := FullColumns(t, xs, sqrt);
      var fast, slow := RollingMean(xs, FastMaWindow), RollingMean(xs, SlowMaWindow);
      var lower, upper := LowerBand(xs, sqrt), UpperBand(xs, sqrt);
      && r.cols[Ma5Column] == Reals(fast)
      && r.cols[Ma10Column] == Reals(slow)
      && r.cols[MaSignalColumn] == Labels(MaSignals(fast, slow))
      && r.cols[RsiColumn] == Reals(Rsi(xs))
      && r.cols[RsiSignalColumn] == Labels(RsiSignals(Rsi(xs)))
      && r.cols[MacdColumn] == Reals(Macd(xs))
      && r.cols[MacdValueColumn] == Reals(Macd(xs))
      && r.cols[MacdSignalColumn] == Labels(MacdSignals(Macd(xs)))
      && r.cols[CciValueColumn] == Reals(Cci(xs))
      && r.cols[CciSignalColumn] == Labels(CciSignals(Cci(xs)))
      && r.cols[MidBandColumn] == Reals(RollingMean(xs, BandWindow))
      && r.cols[UpperBandColumn] == Floats(upper)
      && r.cols[LowerBandColumn] == Floats(lower)
      && r.cols[BandSignalColumn] == Labels(BollingerSignals(xs, lower, upper))
      && (forall c :: c in r.cols <==> c in t.cols || c in FullNames)
      && (forall c :: c in t.cols && c !in FullNames ==> r.cols[c] == t.cols[c])
  {
    FullColumnsKeys(t, xs, sqrt);
    FullColumnsAverages(t, xs, sqrt);
    FullColumnsOscillators(t, xs, sqrt);
    var t4 := CciColumns(MacdColumns(RsiColumns(MaColumns(t, xs), xs), xs), xs);
    BollingerColumnsContents(t4, xs, sqrt);
    assert FullColumns(t, xs, sqrt) == BollingerColumns(t4, xs, sqrt);
  }

  /** The moving-average columns survive the later families. */
  lemma FullColumnsAverages(t: Table, xs: seq<real>, sqrt: real -> real)
    ensures var r := FullColumns(t, xs, sqrt);
      var fast, slow := RollingMean(xs, FastMaWindow), RollingMean(xs, SlowMaWindow);
      && r.cols[Ma5Column] == Reals(fast)
      && r.cols[Ma10Column] == Reals(slow)
      && r.cols[MaSignalColumn] == Labels(MaSignals(fast, slow))
  {
    var t1 := MaColumns(t, xs);
    MaColumnsContents(t, xs);
    var t2 := RsiColumns(t1, xs);
    RsiColumnsContents(t1, xs);
    var t3 := MacdColumns(t2, xs);
    MacdColumnsContents(t2, xs);
    var t4 := CciColumns(t3, xs);
    CciColumnsContents(t3, xs);
    BollingerColumnsContents(t4, xs, sqrt);
    assert FullColumns(t, xs, sqrt) == BollingerColumns(t4, xs, sqrt);
  }

  /** The RSI, MACD and CCI columns survive the later families. */
  lemma FullColumnsOscillators(t: Table, xs: seq<real>, sqrt: real -> real)
    ensures var r := FullColumns(t, xs, sqrt);
      && r.cols[RsiColumn] == Reals(Rsi(xs))
      && r.cols[RsiSignalColumn] == Labels(RsiSignals(Rsi(xs)))
      && r.cols[MacdColumn] == Reals(Macd(xs))
      && r.cols[MacdValueColumn] == Reals(Macd(xs))
      && r.cols[MacdSignalColumn] == Labels(MacdSignals(Macd(xs)))
      && r.cols[CciValueColumn] == Reals(Cci(xs))
      && r.cols[CciSignalColumn] == Labels(CciSignals(Cci(xs)))
  {
    var t2 := RsiColumns(MaColumns(t, xs), xs);
    RsiColumnsContents(MaColumns(t, xs), xs);
    var t3 := MacdColumns(t2, xs);
    MacdColumnsContents(t2, xs);
    var t4 := CciColumns(t3, xs);
    CciColumnsContents(t3, xs);
    BollingerColumnsContents(t4, xs, sqrt);
    assert FullColumns(t, xs, sqrt) == BollingerColumns(t4, xs, sqrt);
  }

  /**
   * Series of `MinRows` rows or more: every indicator column holds its
   * formula over the net-value series and every label column the labels of
   * its family; the row count and every other column are unchanged.
   */
  lemma FullSeriesColumns(t: Table, sqrt: real -> real)
    requires t.Valid() && MinRows <= t.height
    requires ValueColumn in t.cols && t.cols[ValueColumn].Reals?
    ensures WithIndicators(t, sqrt).Some?
    ensures var r, xs := WithIndicators(t, sqrt).value, t.cols[ValueColumn].xs;
      var fast, slow := RollingMean(xs, FastMaWindow), RollingMean(xs, SlowMaWindow);
      var lower, upper := LowerBand(xs, sqrt), UpperBand(xs, sqrt);
      && r.Valid() && r.height == t.height
      && r.cols[Ma5Column] == Reals(fast)
      && r.cols[Ma10Column] == Reals(slow)
      && r.cols[MaSignalColumn] == Labels(MaSignals(fast, slow))
      && r.cols[RsiColumn] == Reals(Rsi(xs))
      && r.cols[RsiSignalColumn] == Labels(RsiSignals(Rsi(xs)))
      && r.cols[MacdColumn] == Reals(Macd(xs))
      && r.cols[MacdValueColumn] == Reals(Macd(xs))
      && r.cols[MacdSignalColumn] == Labels(MacdSignals(Macd(xs)))
      && r.cols[CciValueColumn] == Reals(Cci(xs))
      && r.cols[CciSignalColumn] == Labels(CciSignals(Cci(xs)))
      && r.cols[MidBandColumn] == Reals(RollingMean(xs, BandWindow))
      && r.cols[UpperBandColumn] == Floats(upper)
      && r.cols[LowerBandColumn] == Floats(lower)
      && r.cols[BandSignalColumn] == Labels(BollingerSignals(xs, lower, upper))
      && (forall c :: c in r.cols <==> c in t.cols || c in FullNames)
      && (forall c :: c in t.cols && c !in FullNames ==> r.cols[c] == t.cols[c])
  {
    var xs := t.cols[ValueColumn].xs;
    FullColumnsValid(t, xs, sqrt);
    FullColumnsContents(t, xs, sqrt);
    assert WithIndicators(t, sqrt) == Some(FullColumns(t, xs, sqrt));
  }

  /** Row 0 of every computed label column is hold. */
  lemma FullLabelsHoldOnFirstRow(xs: seq<real>, sqrt: real -> real)
    requires 0 < |xs|
    ensures MaSignals(RollingMean(xs, FastMaWindow), RollingMean(xs, SlowMaWindow))[0] == Hold
    ensures RsiSignals(Rsi(xs))[0] == Hold
    ensures MacdSignals(Macd(xs))[0] == Hold
    ensures CciSignals(Cci(xs))[0] == Hold
    ensures BollingerSignals(xs, LowerBand(xs, sqrt), UpperBand(xs, sqrt))[0] == Hold
  {
    MaSignalsSpec(RollingMean(xs, FastMaWindow), RollingMean(xs, SlowMaWindow), 0);
    ThresholdSignalsSpec(Rsi(xs), RsiOversold, RsiOverbought, 0);
    ThresholdSignalsSpec(Macd(xs), -MacdLevel, MacdLevel, 0);
    ThresholdSignalsSpec(Cci(xs), -CciLevel, CciLevel, 0);
    BandsUndefinedOnFirstRow(xs, sqrt);
    BollingerUndefinedBands(xs, LowerBand(xs, sqrt), UpperBand(xs, sqrt), 0);
  }

  /** A label column whose first row is hold. */
  predicate FirstIsHold(c: Column)
  {
    c.Labels? && 0 < |c.ls| && c.ls[0] == Hold
  }

  lemma FullColumnsFirstRow(t: Table, xs: seq<real>, sqrt: real -> real)
    requires 0 < |xs| == t.height
    ensures var r := FullColumns(t, xs, sqrt);
      && MaSignalColumn in r.cols && FirstIsHold(r.cols[MaSignalColumn])
      && RsiSignalColumn in r.cols && FirstIsHold(r.cols[RsiSignalColumn])
      && MacdSignalColumn in r.cols && FirstIsHold(r.cols[MacdSignalColumn])
      && CciSignalColumn in r.cols && FirstIsHold(r.cols[CciSignalColumn])
      && BandSignalColumn in r.cols && FirstIsHold(r.cols[BandSignalColumn])
  {
    var r := FullColumns(t, xs, sqrt);
    FullColumnsContents(t, xs, sqrt);
    FullLabelsHoldOnFirstRow(xs, sqrt);
    var fast, slow := RollingMean(xs, FastMaWindow), RollingMean(xs, SlowMaWindow);
    var lower, upper := LowerBand(xs, sqrt), UpperBand(xs, sqrt);
    assert r.cols[MaSignalColumn] == Labels(MaSignals(fast, slow));
    assert r.cols[RsiSignalColumn] == Labels(RsiSignals(Rsi(xs)));
    assert r.cols[MacdSignalColumn] == Labels(MacdSignals(Macd(xs)));
    assert r.cols[CciSignalColumn] == Labels(CciSignals(Cci(xs)));
    assert r.cols[BandSignalColumn] == Labels(BollingerSignals(xs, lower, upper));
  }

  lemma FallbackColumnsFirstRow(t: Table, xs: seq<real>)
    requires 0 < t.height
    ensures var r := FallbackColumns(t, xs);
      && MaSignalColumn in r.cols && FirstIsHold(r.cols[MaSignalColumn])
      && RsiSignalColumn in r.cols && FirstIsHold(r.cols[RsiSignalColumn])
      && MacdSignalColumn in r.cols && FirstIsHold(r.cols[MacdSignalColumn])
      && CciSignalColumn in r.cols && FirstIsHold(r.cols[CciSignalColumn])
      && BandSignalColumn in r.cols && FirstIsHold(r.cols[BandSignalColumn])
  {
    FallbackColumnsContents(t, xs);
  }

  /** The first row of every label column is hold, on both paths. */
  lemma FirstRowHolds(t: Table, sqrt: real -> real)
    requires 0 < t.height
    requires ValueColumn in t.cols && t.cols[ValueColumn].Reals? && |t.cols[ValueColumn].xs| == t.height
    ensures WithIndicators(t, sqrt).Some?
    ensures var r := WithIndicators(t, sqrt).value;
      && MaSignalColumn in r.cols && FirstIsHold(r.cols[MaSignalColumn])
      && RsiSignalColumn in r.cols && FirstIsHold(r.cols[RsiSignalColumn])
      && MacdSignalColumn in r.cols && FirstIsHold(r.cols[MacdSignalColumn])
      && CciSignalColumn in r.cols && FirstIsHold(r.cols[CciSignalColumn])
      && BandSignalColumn in r.cols && FirstIsHold(r.cols[BandSignalColumn])
  {
    var xs := t.cols[ValueColumn].xs;
    if t.height < MinRows {
      FallbackColumnsFirstRow(t, xs);
      assert WithIndicators(t, sqrt) == Some(FallbackColumns(t, xs));
    } else {
      FullColumnsFirstRow(t, xs, sqrt);
      assert WithIndicators(t, sqrt) == Some(FullColumns(t, xs, sqrt));
    }
  }

  /**
   * On both paths the RSI column lies in [0, 100] and the first MACD, macd值
   * and cci值 entries are 0.
   */
  lemma IndicatorColumnRanges(t: Table, sqrt: real -> real)
    requires 0 < t.height
    requires ValueColumn in t.cols && t.cols[ValueColumn].Reals? && |t.cols[ValueColumn].xs| == t.height
    ensures WithIndicators(t, sqrt).Some?
    ensures var r := WithIndicators(t, sqrt).value;
      && RsiColumn in r.cols && r.cols[RsiColumn].Reals? && |r.cols[RsiColumn].xs| == t.height
      && (forall k :: 0 <= k < t.height ==> 0.0 <= r.cols[RsiColumn].xs[k] <= 100.0)
      && MacdColumn in r.cols && r.cols[MacdColumn].Reals? && |r.cols[MacdColumn].xs| == t.height
      && r.cols[MacdColumn].xs[0] == 0.0
      && MacdValueColumn in r.cols && r.cols[MacdValueColumn].Reals? && |r.cols[MacdValueColumn].xs| == t.height
      && r.cols[MacdValueColumn].xs[0] == 0.0
      && CciValueColumn in r.cols && r.cols[CciValueColumn].Reals? && |r.cols[CciValueColumn].xs| == t.height
      && r.cols[CciValueColumn].xs[0] == 0.0
  {
    var xs := t.cols[ValueColumn].xs;
    if t.height < MinRows {
      FallbackColumnsContents(t, xs);
      assert WithIndicators(t, sqrt) == Some(FallbackColumns(t, xs));
    } else {
      FullColumnsContents(t, xs, sqrt);
      assert WithIndicators(t, sqrt) == Some(FullColumns(t, xs, sqrt));
      RsiWithinRange(xs);
      MacdFirstIsZero(xs);
      CciFirstIsZero(xs);
    }
  }

  // ======================================================================
  // create_signal_table

  /** The wanted column names present in `cols`, in the order of `wanted`. */
  function Present(wanted: seq<string>, cols: map<string, Column>): seq<string>
  {
    Select(wanted, PresentMask(wanted, cols))
  }

  function PresentMask(wanted: seq<string>, cols: map<string, Column>): (r: seq<bool>)
    ensures |r| == |wanted|
  {
    seq(|wanted|, i requires 0 <= i < |wanted| => wanted[i] in cols)
  }

  /**
   * The report table: empty for an empty frame; otherwise the report
   * columns present, in report order, plus the report date on every row.
   * The date column keeps its values; their text formatting is not modelled.
   */
  function CreateSignalTable(t: Table, reportDate: string): (r: Table)
    ensures r.height == t.height
  {
    if t.height == 0 then Empty()
    else
      var kept := Table(Present(SignalColumns, t.cols), map c | c in t.cols && c in SignalColumns :: t.cols[c], t.height);
      kept.Put(ReportDateColumn, Texts(seq(t.height, _ => reportDate)))
  }

  lemma SignalColumnsDistinct()
    ensures forall i, j :: 0 <= i < j < |SignalColumns| ==> SignalColumns[i] != SignalColumns[j]
    ensures ReportDateColumn !in SignalColumns
  {
  }

  lemma PresentSpec(wanted: seq<string>, cols: map<string, Column>)
    ensures forall c :: c in Present(wanted, cols) <==> c in wanted && c in cols
  {
    var keep := PresentMask(wanted, cols);
    forall c
      ensures c in Present(wanted, cols) <==> c in wanted && c in cols
    {
      SelectMembership(wanted, keep, c);
    }
  }

  /**
   * `create_signal_table` keeps the row count, keeps exactly the listed
   * columns that are present, unchanged, and adds the report date to every
   * row; the column names follow the list order, then the report date.
   */
  lemma CreateSignalTableSpec(t: Table, reportDate: string)
    requires t.Valid()
    ensures t.height == 0 ==> CreateSignalTable(t, reportDate) == Empty()
    ensures 0 < t.height ==> var r := CreateSignalTable(t, reportDate);
      && r.Valid() && r.height == t.height
      && r.names == Present(SignalColumns, t.cols) + [ReportDateColumn]
      && (forall c :: c in r.cols <==> (c in SignalColumns && c in t.cols) || c == ReportDateColumn)
      && (forall c :: c in SignalColumns && c in t.cols ==> r.cols[c] == t.cols[c])
      && r.cols[ReportDateColumn].Texts?
      && (forall k :: 0 <= k < t.height ==> r.cols[ReportDateColumn].ts[k] == reportDate)
  {
    if 0 < t.height {
      SignalColumnsDistinct();
      PresentSpec(SignalColumns, t.cols);
      SelectDistinct(SignalColumns, PresentMask(SignalColumns, t.cols));
      var kept := Table(Present(SignalColumns, t.cols), map c | c in t.cols && c in SignalColumns :: t.cols[c], t.height);
      assert Present(SignalColumns, t.cols) == Select(SignalColumns, PresentMask(SignalColumns, t.cols));
      assert forall i, j :: 0 <= i < j < |kept.names| ==> kept.names[i] != kept.names[j];
      assert forall c :: c in kept.cols <==> c in kept.names;
      assert forall c :: c in kept.cols ==> kept.cols[c].Length() == kept.height;
      assert kept.Valid();
      PutValid(kept, ReportDateColumn, Texts(seq(t.height, _ => reportDate)));
    }
  }

  /** Two listed columns that are both present appear in list order. */
  lemma CreateSignalTableOrder(t: Table, reportDate: string, i: nat, j: nat)
    requires 0 < t.height && i < j < |SignalColumns|
    requires SignalColumns[i] in t.cols && SignalColumns[j] in t.cols
    ensures var names := CreateSignalTable(t, reportDate).names;
      exists p, q :: 0 <= p < q < |names| && names[p] == SignalColumns[i] && names[q] == SignalColumns[j]
  {
    SelectKeepsOrder(SignalColumns, PresentMask(SignalColumns, t.cols), i, j);
    var present := Present(SignalColumns, t.cols);
    var p, q :| 0 <= p < q < |present| && present[p] == SignalColumns[i] && present[q] == SignalColumns[j];
    SignalColumnsDistinct();
    PresentSpec(SignalColumns, t.cols);
    var names := CreateSignalTable(t, reportDate).names;
    assert names == present + [ReportDateColumn];
    assert names[p] == SignalColumns[i] && names[q] == SignalColumns[j];
  }

  // ======================================================================
  // analyze_fund

  /**
   * The fund code used for fetching: the text before the first '.', so
   * "110020.OF" becomes "110020".
   */
  function BaseCode(code: string): (r: string)
    ensures |r| <= |code|
  {
    if |code| == 0 || code[0] == '.' then "" else [code[0]] + BaseCode(code[1..])
  }

  /**
   * `code.split('.')[0]`: the longest prefix without a '.', which is the
   * whole code when it has none (so stripping twice changes nothing).
   */
  lemma {:induction false} BaseCodeSpec(code: string)
    ensures var r := BaseCode(code);
      && '.' !in r
      && r == code[..|r|]
      && (|r| < |code| ==> code[|r|] == '.')
      && ('.' !in code ==> r == code)
      && BaseCode(r) == r
  {
    if |code| > 0 && code[0] != '.' {
      BaseCodeSpec(code[1..]);
    }
  }

  datatype FundResult = FundResult(code: string, name: string, signals: Table, raw: Table)

  /**
   * The result of `analyze_fund` for a fetch outcome: None when the fetch
   * failed, when the indicators raise, or when the fund name cannot be read
   * from the first row; otherwise the code, the name, the report table and
   * the frame with indicators.
   */
  function Analysis(code: string, fetched: Option<Table>, reportDate: string, sqrt: real -> real): (r: Option<FundResult>)
    ensures fetched.None? ==> r.None?
    ensures r.Some? ==> r.value.code == code && r.value.signals.height == r.value.raw.height
  {
    match fetched
    case None => None
    case Some(t) =>
      match WithIndicators(t, sqrt)
      case None => None
      case Some(raw) =>
        if NameColumn in raw.cols && raw.cols[NameColumn].Texts? && 0 < |raw.cols[NameColumn].ts| then
          Some(FundResult(code, raw.cols[NameColumn].ts[0], CreateSignalTable(raw, reportDate), raw))
        else None
  }

  /** Every table the fetch returns is well formed. */
  ghost predicate WellFormedSource(fetch: string -> Option<Table>)
  {
    forall c :: fetch(c).Some? ==> fetch(c).value.Valid()
  }

  method AnalyzeFund(code: string, fetch: string -> Option<Table>, reportDate: string, sqrt: real -> real)
    returns (r: Option<FundResult>)
    requires WellFormedSource(fetch)
    ensures r == Analysis(code, fetch(BaseCode(code)), reportDate, sqrt)
  {
    var fetched := fetch(BaseCode(code));
    if fetched.None? {
      return None;
    }
    var df := new Frame(fetched.value);
    var ok := CalculateTechnicalIndicators(df, sqrt);
    if !ok {
      return None;
    }
    var raw := df.Snapshot();
    var signals := CreateSignalTable(raw, reportDate);
    if NameColumn in raw.cols && raw.cols[NameColumn].Texts? && 0 < |raw.cols[NameColumn].ts| {
      return Some(FundResult(code, raw.cols[NameColumn].ts[0], signals, raw));
    }
    return None;
  }

  /**
   * The indicators keep the row count, keep the table well formed, and leave
   * every column they do not write untouched.
   */
  lemma IndicatorsKeepOtherColumns(t: Table, sqrt: real -> real)
    requires t.Valid()
    ensures var r := WithIndicators(t, sqrt);
      r.Some? ==>
        && r.value.Valid() && r.value.height == t.height
        && (forall c :: c in t.cols && c !in FullNames ==> c in r.value.cols && r.value.cols[c] == t.cols[c])
  {
    if 0 < t.height && ValueColumn in t.cols && t.cols[ValueColumn].Reals? {
      var xs := t.cols[ValueColumn].xs;
      if t.height < MinRows {
        FallbackColumnsValid(t, xs);
        FallbackColumnsContents(t, xs);
        assert WithIndicators(t, sqrt) == Some(FallbackColumns(t, xs));
      } else {
        FullColumnsValid(t, xs, sqrt);
        FullColumnsContents(t, xs, sqrt);
        assert WithIndicators(t, sqrt) == Some(FullColumns(t, xs, sqrt));
      }
    }
  }

  /** The fund-name column is not one of the indicator columns. */
  lemma NameIsNotIndicator()
    ensures NameColumn !in FullNames
  {
  }

  /**
   * Adding indicators keeps the row count, and a column outside the indicator
   * family is neither added, dropped nor changed.
   */
  lemma IndicatorsKeepColumn(t: Table, sqrt: real -> real, c: string)
    requires c !in FullNames
    ensures var r := WithIndicators(t, sqrt);
      r.Some? ==>
        && r.value.height == t.height
        && (c in r.value.cols <==> c in t.cols)
        && (c in t.cols ==> r.value.cols[c] == t.cols[c])
  {
    if 0 < t.height && ValueColumn in t.cols && t.cols[ValueColumn].Reals? {
      var xs := t.cols[ValueColumn].xs;
      if t.height < MinRows {
        FallbackColumnsContents(t, xs);
        assert c !in FallbackNames;
        assert WithIndicators(t, sqrt) == Some(FallbackColumns(t, xs));
      } else {
        FullColumnsContents(t, xs, sqrt);
        assert WithIndicators(t, sqrt) == Some(FullColumns(t, xs, sqrt));
      }
    }
  }

  /**
   * A successful analysis needs a fetched, non-empty history carrying a text
   * name column; the reported name is its first cell, and the signal table
   * is projected from the frame with indicators, row for row.
   */
  lemma AnalysisSuccess(code: string, fetched: Option<Table>, reportDate: string, sqrt: real -> real)
    requires fetched.Some? ==> fetched.value.Valid()
    ensures var r := Analysis(code, fetched, reportDate, sqrt);
      r.Some? ==>
        && fetched.Some? && 0 < fetched.value.height
        && NameColumn in fetched.value.cols && fetched.value.cols[NameColumn].Texts?
        && 0 < |fetched.value.cols[NameColumn].ts|
        && r.value.name == fetched.value.cols[NameColumn].ts[0]
        && r.value.code == code
        && WithIndicators(fetched.value, sqrt).Some?
        && r.value.raw == WithIndicators(fetched.value, sqrt).value
        && r.value.signals == CreateSignalTable(r.value.raw, reportDate)
        && r.value.signals.height == r.value.raw.height == fetched.value.height
  {
    var r := Analysis(code, fetched, reportDate, sqrt);
    if r.Some? {
      var t := fetched.value;
      NameIsNotIndicator();
      IndicatorsKeepColumn(t, sqrt, NameColumn);
    }
  }
}
