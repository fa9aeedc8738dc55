/**
 * The per-fund DataFrame: named columns of equal length in insertion order.
 * `Table` is its value; `Frame` is the mutable object that
 * `calculate_technical_indicators` extends column by column.
 */
module Frames {
  import opened Wrappers
  import opened Signals

  // Column names of the fetched history and of the computed indicators.
  const DateColumn: string := "净值日期"
  const ValueColumn: string := "最新净值"
  const CodeColumn: string := "基金代码"
  const NameColumn: string := "基金简称"
  const TypeColumn: string := "投资类型"
  const Ma5Column: string := "MA5"
  const Ma10Column: string := "MA10"
  const MaSignalColumn: string := "均线信号"
  const RsiColumn: string := "RSI"
  const RsiSignalColumn: string := "RSI信号"
  const MacdColumn: string := "MACD"
  const MacdValueColumn: string := "macd值"
  const MacdSignalColumn: string := "macd信号"
  const CciValueColumn: string := "cci值"
  const CciSignalColumn: string := "cci信号"
  const MidBandColumn: string := "布林带中轨值"
  const UpperBandColumn: string := "布林带上轨值"
  const LowerBandColumn: string := "布林带下轨值"
  const BandSignalColumn: string := "布林带信号"
  const ReportDateColumn: string := "报告日期"

  /**
   * One column. Numbers without NaN are `Reals`; numbers that may be NaN are
   * `Floats` (None = NaN); label columns hold `Signal`s; dates are day numbers.
   */
  datatype Column =
    | Reals(xs: seq<real>)
    | Floats(ys: seq<Option<real>>)
    | Labels(ls: seq<Signal>)
    | Texts(ts: seq<string>)
    | Dates(ds: seq<int>)
  {
    function Length(): nat
    {
      match this
      case Reals(xs) => |xs|
      case Floats(ys) => |ys|
      case Labels(ls) => |ls|
      case Texts(ts) => |ts|
      case Dates(ds) => |ds|
    }

    /** The rows i with keep[i], in order (boolean indexing). */
    function Filter(keep: seq<bool>): (r: Column)
      requires |keep| == Length()
      ensures r.Length() == Count(keep)
    {
      match this
      case Reals(xs) => Reals(Select(xs, keep))
      case Floats(ys) => Floats(Select(ys, keep))
      case Labels(ls) => Labels(Select(ls, keep))
      case Texts(ts) => Texts(Select(ts, keep))
      case Dates(ds) => Dates(Select(ds, keep))
    }
  }

  /** Number of true entries. */
  function Count(keep: seq<bool>): (n: nat)
    ensures n <= |keep|
  {
    if |keep| == 0 then 0 else Count(keep[..|keep| - 1]) + (if keep[|keep| - 1] then 1 else 0)
  }

  /** The entries s[i] with keep[i], in order. */
  function Select<T>(s: seq<T>, keep: seq<bool>): (r: seq<T>)
    requires |keep| == |s|
    ensures |r| == Count(keep)
  {
    if |s| == 0 then []
    else
      var n := |s| - 1;
      Select(s[..n], keep[..n]) + (if keep[n] then [s[n]] else [])
  }

  /** A table: column names in order, their contents, and the row count. */
  datatype Table = Table(names: seq<string>, cols: map<string, Column>, height: nat)
  {
    /** Distinct names, exactly the columns present, all of the table's height. */
    ghost predicate Valid()
    {
      && (forall i, j :: 0 <= i < j < |names| ==> names[i] != names[j])
      && (forall n :: n in cols <==> n in names)
      && (forall n :: n in cols ==> cols[n].Length() == height)
    }

    /** `df[name] = col`: replaces an existing column in place, or appends a new one. */
    function Put(name: string, col: Column): (r: Table)
      ensures r.height == height
    {
      Table(if name in cols then names else names + [name], cols[name := col], height)
    }
  }

  /** `pd.DataFrame()` */
  function Empty(): (r: Table)
    ensures r.names == [] && r.height == 0
  {
    Table([], map[], 0)
  }

  /** A DataFrame updated in place. */
  class Frame {
    var names: seq<string>
    var cols: map<string, Column>
    var height: nat

    function Snapshot(): Table
      reads this
    {
      Table(names, cols, height)
    }

    ghost predicate Valid()
      reads this
    {
      Snapshot().Valid()
    }

    constructor (t: Table)
      ensures Snapshot() == t
    {
      names := t.names;
      cols := t.cols;
      height := t.height;
    }

    /** `df[name] = col` */
    method Assign(name: string, col: Column)
      modifies this
      ensures Snapshot() == old(Snapshot()).Put(name, col)
    {
      if name !in cols {
        names := names + [name];
      }
      cols := cols[name := col];
    }
  }

  // ======================================================================
  // Properties

  /** Assigning a full-height column keeps the table well formed. */
  lemma PutValid(t: Table, name: string, col: Column)
    requires t.Valid() && col.Length() == t.height
    ensures t.Put(name, col).Valid()
  {
  }

  /**
   * What `Put` does to the names and columns: the column is replaced or
   * appended at the end, and no other column changes.
   */
  lemma PutContents(t: Table, name: string, col: Column)
    ensures t.Put(name, col).cols[name] == col
    ensures forall n :: n in t.cols && n != name ==> t.Put(name, col).cols[n] == t.cols[n]
    ensures name in t.cols ==> t.Put(name, col).names == t.names
    ensures name !in t.cols ==> t.Put(name, col).names == t.names + [name]
  {
  }

  /** Selection keeps exactly the entries whose flag is set, in order. */
  lemma {:induction false} SelectMembership<T>(s: seq<T>, keep: seq<bool>, x: T)
    requires |keep| == |s|
    ensures x in Select(s, keep) <==> exists i :: 0 <= i < |s| && keep[i] && s[i] == x
  {
    if |s| > 0 {
      var n := |s| - 1;
      SelectMembership(s[..n], keep[..n], x);
      assert forall i :: 0 <= i < n ==> s[..n][i] == s[i] && keep[..n][i] == keep[i];
    }
  }

  /** Selection keeps the relative order of the entries it keeps. */
  lemma {:induction false} SelectKeepsOrder<T>(s: seq<T>, keep: seq<bool>, i: nat, j: nat)
    requires |keep| == |s| && i < j < |s| && keep[i] && keep[j]
    ensures exists p, q :: 0 <= p < q < |Select(s, keep)| && Select(s, keep)[p] == s[i] && Select(s, keep)[q] == s[j]
  {
    var n := |s| - 1;
    var front := Select(s[..n], keep[..n]);
    assert Select(s, keep) == front + (if keep[n] then [s[n]] else []);
    if j < n {
      SelectKeepsOrder(s[..n], keep[..n], i, j);
      var p, q :| 0 <= p < q < |front| && front[p] == s[i] && front[q] == s[j];
      assert Select(s, keep)[p] == s[i] && Select(s, keep)[q] == s[j];
    } else {
      SelectMembership(s[..n], keep[..n], s[i]);
      assert s[..n][i] == s[i] && keep[..n][i];
      var p :| 0 <= p < |front| && front[p] == s[i];
      assert Select(s, keep)[p] == s[i] && Select(s, keep)[|front|] == s[j];
    }
  }

  /** Selecting from distinct entries yields distinct entries. */
  lemma {:induction false} SelectDistinct<T>(s: seq<T>, keep: seq<bool>)
    requires |keep| == |s|
    requires forall i, j :: 0 <= i < j < |s| ==> s[i] != s[j]
    ensures var r := Select(s, keep); forall i, j :: 0 <= i < j < |r| ==> r[i] != r[j]
  {
    if |s| > 0 {
      var n := |s| - 1;
      SelectDistinct(s[..n], keep[..n]);
      SelectMembership(s[..n], keep[..n], s[n]);
    }
  }

  /** Some flag set means a non-empty selection. */
  lemma {:induction false} CountPositive(keep: seq<bool>, i: nat)
    requires i < |keep| && keep[i]
    ensures 0 < Count(keep)
  {
    var n := |keep| - 1;
    if i < n {
      CountPositive(keep[..n], i);
    }
  }
}
