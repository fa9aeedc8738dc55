/**
 * The batch driver `FundSignalAnalyzer.run`: where the fund codes come
 * from, the per-fund loop that skips funds whose analysis fails, the
 * trailing-date retention of each signal table, the screener's name and
 * investment type stamped on it, the blocks appended to the CSV report,
 * the report mail, and the run's outcome.
 *
 * The fund-history source, the screener's answer, the report date, the
 * square root and the environment are parameters. Files, the Excel copy,
 * logging and the pause between funds are not part of this model.
 */
module Pipeline {
  import opened Wrappers
  import opened Text
  import opened Signals
  import opened Frames
  import opened Analyzer
  import EmailSender

  const DefaultFundCodes: seq<string> := ["110020.OF", "001051.OF"]

  /** One screener row: the code as the screener wrote it, the fund's name and type. */
  datatype ScreenerRow = ScreenerRow(rawCode: string, name: string, investType: string)

  /** The screener's table, and whether it carries an investment-type column. */
  datatype Screener = Screener(rows: seq<ScreenerRow>, hasInvestType: bool)

  // ----------------------------------------------------------------------
  // Fund codes

  /** The screener's codes with any suffix after '.' removed, row by row. */
  function ScreenedCodes(s: Screener): (r: seq<string>)
    ensures |r| == |s.rows|
  {
    seq(|s.rows|, k requires 0 <= k < |s.rows| => BaseCode(s.rows[k].rawCode))
  }

  /** A query string Python treats as true: given and not empty. */
  predicate Truthy(query: Option<string>)
  {
    query.Some? && query.value != ""
  }

  /** The screener table `run` keeps for stamping names: only when it asked the screener. */
  function ScreenerInUse(query: Option<string>, screened: Option<Screener>): Option<Screener>
  {
    if Truthy(query) then screened else None
  }

  /**
   * The codes `run` analyses. `screened` is the screener's answer to the
   * query (None when it fails); it is consulted only for a non-empty query.
   */
  function SelectFundCodes(query: Option<string>, given: Option<seq<string>>, screened: Option<Screener>): (r: seq<string>)
    ensures || r == DefaultFundCodes
            || (given.Some? && !Truthy(query) && r == given.value)
            || (screened.Some? && Truthy(query) && r == ScreenedCodes(screened.value))
  {
    if Truthy(query) then
      if screened.Some? then ScreenedCodes(screened.value) else DefaultFundCodes
    else if given.None? then DefaultFundCodes
    else given.value
  }

  /** Taking the code before the first '.' is the first piece of `code.split('.')`. */
  lemma {:induction false} BaseCodeIsFirstPiece(code: string)
    ensures BaseCode(code) == Split(code, '.')[0]
  {
    if |code| > 0 && code[0] != '.' {
      BaseCodeIsFirstPiece(code[1..]);
    }
  }

  /**
   * Without a query the screener plays no part; with one, its codes are
   * used row for row, stripped of their suffix; the list is empty only when
   * the screener or the caller supplied an empty one.
   */
  lemma SelectFundCodesSpec(query: Option<string>, given: Option<seq<string>>, screened: Option<Screener>)
    ensures var r := SelectFundCodes(query, given, screened);
      && (!Truthy(query) ==> r == SelectFundCodes(query, given, None) && ScreenerInUse(query, screened) == None)
      && (!Truthy(query) && given.None? ==> r == DefaultFundCodes)
      && (Truthy(query) && screened.Some? ==>
            |r| == |screened.value.rows|
            && forall k :: 0 <= k < |r| ==>
                 '.' !in r[k] && r[k] == Split(screened.value.rows[k].rawCode, '.')[0])
      && (r == [] ==>
            (Truthy(query) && screened.Some? && screened.value.rows == [])
            || (!Truthy(query) && given == Some([])))
  {
    if Truthy(query) && screened.Some? {
      var rows := screened.value.rows;
      forall k | 0 <= k < |rows|
        ensures '.' !in BaseCode(rows[k].rawCode) && BaseCode(rows[k].rawCode) == Split(rows[k].rawCode, '.')[0]
      {
        BaseCodeSpec(rows[k].rawCode);
        BaseCodeIsFirstPiece(rows[k].rawCode);
      }
    }
  }

  // ----------------------------------------------------------------------
  // Retention

  /** The most recent of a non-empty list of dates. */
  function MaxDate(ds: seq<int>): (m: int)
    requires |ds| > 0
    ensures (forall k :: 0 <= k < |ds| ==> ds[k] <= m) && m in ds
  {
    if |ds| == 1 then ds[0]
    else
      var m := MaxDate(ds[..|ds| - 1]);
      if ds[|ds| - 1] > m then ds[|ds| - 1] else m
  }

  /** The rows dated no earlier than `days` days before the latest date. */
  function RecentMask(ds: seq<int>, days: int): (keep: seq<bool>)
    ensures |keep| == |ds|
  {
    if |ds| == 0 then [] else seq(|ds|, k requires 0 <= k < |ds| => ds[k] >= MaxDate(ds) - days)
  }

  /** Keeps the rows the mask selects, in every column. */
  function FilterRows(t: Table, keep: seq<bool>): (r: Table)
    requires t.Valid() && |keep| == t.height
    ensures r.names == t.names && r.height == Count(keep)
  {
    Table(t.names, map c | c in t.cols :: t.cols[c].Filter(keep), Count(keep))
  }

  /**
   * The retention step of `run`: with a date column, the rows at most
   * `days` days older than the latest one; without, the table as it is.
   */
  function Retain(t: Table, days: int): (r: Table)
    requires t.Valid()
    ensures r.names == t.names && r.height <= t.height
  {
    if DateColumn in t.cols && t.cols[DateColumn].Dates? then
      FilterRows(t, RecentMask(t.cols[DateColumn].ds, days))
    else t
  }

  lemma FilterRowsValid(t: Table, keep: seq<bool>)
    requires t.Valid() && |keep| == t.height
    ensures FilterRows(t, keep).Valid()
  {
  }

  /**
   * Retention keeps the table well formed and its column order; it keeps
   * exactly the rows dated on or after the cutoff (each kept date is recent
   * enough, and every recent date is kept); with `days >= 0` the latest row
   * always stays; without a date column nothing is filtered.
   */
  lemma RetainSpec(t: Table, days: int)
    requires t.Valid()
    ensures var r := Retain(t, days);
      && r.Valid() && r.names == t.names
      && (DateColumn !in t.cols || !t.cols[DateColumn].Dates? ==> r == t)
      && (DateColumn in t.cols && t.cols[DateColumn].Dates? && 0 < t.height ==>
            var ds := t.cols[DateColumn].ds;
            var cutoff := MaxDate(ds) - days;
            && r.cols[DateColumn].Dates?
            && (forall d :: d in r.cols[DateColumn].ds <==> d in ds && d >= cutoff)
            && (0 <= days ==> 0 < r.height))
      && (DateColumn in t.cols && t.cols[DateColumn].Dates? ==>
            var keep := RecentMask(t.cols[DateColumn].ds, days);
            && (forall k :: 0 <= k < |keep| ==> (keep[k] <==> t.cols[DateColumn].ds[k] >= MaxDate(t.cols[DateColumn].ds) - days))
            && r.height == Count(keep)
            && (forall c :: c in t.cols ==> c in r.cols && r.cols[c] == t.cols[c].Filter(keep)))
  {
    if DateColumn in t.cols && t.cols[DateColumn].Dates? {
      var ds := t.cols[DateColumn].ds;
      var keep := RecentMask(ds, days);
      FilterRowsValid(t, keep);
      if 0 < t.height {
        var cutoff := MaxDate(ds) - days;
        var kept := Select(ds, keep);
        assert FilterRows(t, keep).cols[DateColumn] == Dates(kept);
        forall d
          ensures d in kept <==> d in ds && d >= cutoff
        {
          SelectMembership(ds, keep, d);
        }
        if 0 <= days {
          var m := MaxDate(ds);
          var i :| 0 <= i < |ds| && ds[i] == m;
          CountPositive(keep, i);
        }
      }
    }
  }

  // ----------------------------------------------------------------------
  // Screener name and type

  /** The first screener row whose stripped code is `code` (`fund_info.iloc[0]`). */
  function FindRow(rows: seq<ScreenerRow>, code: string): (r: Option<ScreenerRow>)
    ensures r.Some? ==> r.value in rows && BaseCode(r.value.rawCode) == code
  {
    if |rows| == 0 then None
    else if BaseCode(rows[0].rawCode) == code then Some(rows[0])
    else FindRow(rows[1..], code)
  }

  /** FindRow returns the first matching row, and None only when no row matches. */
  lemma {:induction false} FindRowSpec(rows: seq<ScreenerRow>, code: string)
    ensures var r := FindRow(rows, code);
      && (r.None? <==> forall k :: 0 <= k < |rows| ==> BaseCode(rows[k].rawCode) != code)
      && (r.Some? ==> exists i :: 0 <= i < |rows| && rows[i] == r.value && BaseCode(rows[i].rawCode) == code
                        && forall k :: 0 <= k < i ==> BaseCode(rows[k].rawCode) != code)
  {
    if |rows| > 0 && BaseCode(rows[0].rawCode) != code {
      var rest := rows[1..];
      FindRowSpec(rest, code);
      assert FindRow(rows, code) == FindRow(rest, code);
      assert forall k :: 1 <= k < |rows| ==> rows[k] == rest[k - 1];
      if FindRow(rest, code).Some? {
        var i :| 0 <= i < |rest| && rest[i] == FindRow(rest, code).value && BaseCode(rest[i].rawCode) == code
          && forall k :: 0 <= k < i ==> BaseCode(rest[k].rawCode) != code;
        assert rows[i + 1] == rest[i];
      }
    } else if |rows| > 0 {
      assert rows[0] == FindRow(rows, code).value;
    }
  }

  /** `signal_df[name] = value`: one value on every row. */
  function Broadcast(t: Table, name: string, value: string): (r: Table)
    ensures r.height == t.height
  {
    t.Put(name, Texts(seq(t.height, _ => value)))
  }

  /**
   * Stamps the screener's name, and its investment type when the screener
   * table has that column, on every row of a fund's table. Without a
   * screener table, or without a row for the fund, the table is unchanged.
   */
  function ApplyScreenerInfo(t: Table, screener: Option<Screener>, code: string): (r: Table)
    ensures r.height == t.height
  {
    if screener.None? then t
    else match FindRow(screener.value.rows, code)
      case None => t
      case Some(row) =>
        var named := Broadcast(t, NameColumn, row.name);
        if screener.value.hasInvestType then Broadcast(named, TypeColumn, row.investType) else named
  }

  lemma BroadcastValid(t: Table, name: string, value: string)
    requires t.Valid()
    ensures Broadcast(t, name, value).Valid()
  {
    PutValid(t, name, Texts(seq(t.height, _ => value)));
  }

  /**
   * The screener's name (and type) is on every row; every other column,
   * and the row count, stay as they were.
   */
  lemma ApplyScreenerInfoSpec(t: Table, screener: Option<Screener>, code: string)
    requires t.Valid()
    ensures var r := ApplyScreenerInfo(t, screener, code);
      && r.Valid()
      && (forall c :: c in t.cols ==> c in r.cols)
      && (forall c :: c in t.cols && c != NameColumn && c != TypeColumn ==> r.cols[c] == t.cols[c])
      && (screener.None? || FindRow(screener.value.rows, code).None? ==> r == t)
      && (screener.Some? && FindRow(screener.value.rows, code).Some? ==>
            var row := FindRow(screener.value.rows, code).value;
            && r.cols[NameColumn].Texts?
            && (forall k :: 0 <= k < t.height ==> r.cols[NameColumn].ts[k] == row.name)
            && (screener.value.hasInvestType ==>
                  r.cols[TypeColumn].Texts? && forall k :: 0 <= k < t.height ==> r.cols[TypeColumn].ts[k] == row.investType))
  {
    if screener.Some? && FindRow(screener.value.rows, code).Some? {
      var row := FindRow(screener.value.rows, code).value;
      var named := Broadcast(t, NameColumn, row.name);
      BroadcastValid(t, NameColumn, row.name);
      PutContents(t, NameColumn, Texts(seq(t.height, _ => row.name)));
      if screener.value.hasInvestType {
        BroadcastValid(named, TypeColumn, row.investType);
        PutContents(named, TypeColumn, Texts(seq(t.height, _ => row.investType)));
      }
    }
  }

  // ----------------------------------------------------------------------
  // The batch

  /** The outcome of `analyze_fund` for one code. */
  function Outcome(code: string, fetch: string -> Option<Table>, reportDate: string, sqrt: real -> real): Option<FundResult>
  {
    Analysis(code, fetch(BaseCode(code)), reportDate, sqrt)
  }

  /** The outcome for each code, in order. */
  function Outcomes(codes: seq<string>, fetch: string -> Option<Table>, reportDate: string, sqrt: real -> real): (r: seq<Option<FundResult>>)
    ensures |r| == |codes|
  {
    seq(|codes|, k requires 0 <= k < |codes| => Outcome(codes[k], fetch, reportDate, sqrt))
  }

  /** The successful analyses, in order; failures are skipped. */
  function Successes(outcomes: seq<Option<FundResult>>): (r: seq<FundResult>)
    ensures |r| <= |outcomes|
  {
    if |outcomes| == 0 then []
    else
      var last := outcomes[|outcomes| - 1];
      Successes(outcomes[..|outcomes| - 1]) + (if last.Some? then [last.value] else [])
  }

  ghost predicate SignalsValid(results: seq<FundResult>)
  {
    forall k :: 0 <= k < |results| ==> results[k].signals.Valid()
  }

  /** The block of one fund appended to the CSV report. */
  function ReportBlock(result: FundResult, days: int, screener: Option<Screener>): Table
    requires result.signals.Valid()
  {
    ApplyScreenerInfo(Retain(result.signals, days), screener, result.code)
  }

  /** The blocks appended to the CSV report, one per successful fund, in order. */
  function ReportBlocks(results: seq<FundResult>, days: int, screener: Option<Screener>): (r: seq<Table>)
    requires SignalsValid(results)
    ensures |r| == |results|
  {
    if |results| == 0 then []
    else ReportBlocks(results[..|results| - 1], days, screener) + [ReportBlock(results[|results| - 1], days, screener)]
  }

  /** The Bollinger labels of the CSV report, block after block, as text. */
  function BandLabels(blocks: seq<Table>): (r: seq<string>)
    ensures forall k :: 0 <= k < |r| ==> EmailSender.IsLabelText(r[k])
  {
    if |blocks| == 0 then []
    else
      var b := blocks[|blocks| - 1];
      var labels := if BandSignalColumn in b.cols && b.cols[BandSignalColumn].Labels?
        then EmailSender.Texts(b.cols[BandSignalColumn].ls) else [];
      BandLabels(blocks[..|blocks| - 1]) + labels
  }

  lemma AnalysisSignalsValid(code: string, fetched: Option<Table>, reportDate: string, sqrt: real -> real)
    requires fetched.Some? ==> fetched.value.Valid()
    ensures var r := Analysis(code, fetched, reportDate, sqrt);
      r.Some? ==> r.value.signals.Valid()
  {
    var r := Analysis(code, fetched, reportDate, sqrt);
    if r.Some? {
      IndicatorsKeepOtherColumns(fetched.value, sqrt);
      var raw := WithIndicators(fetched.value, sqrt).value;
      AnalysisSuccess(code, fetched, reportDate, sqrt);
      CreateSignalTableSpec(raw, reportDate);
    }
  }

  lemma {:induction false} SuccessesValid(outcomes: seq<Option<FundResult>>)
    requires forall k :: 0 <= k < |outcomes| && outcomes[k].Some? ==> outcomes[k].value.signals.Valid()
    ensures SignalsValid(Successes(outcomes))
  {
    if |outcomes| > 0 {
      SuccessesValid(outcomes[..|outcomes| - 1]);
    }
  }

  /** Every successful outcome of a well-formed source has a well-formed signal table. */
  lemma OutcomesValid(codes: seq<string>, fetch: string -> Option<Table>, reportDate: string, sqrt: real -> real)
    requires WellFormedSource(fetch)
    ensures var o := Outcomes(codes, fetch, reportDate, sqrt);
      forall k :: 0 <= k < |o| && o[k].Some? ==> o[k].value.signals.Valid()
  {
    forall k | 0 <= k < |codes|
      ensures var o := Outcome(codes[k], fetch, reportDate, sqrt); o.Some? ==> o.value.signals.Valid()
    {
      AnalysisSignalsValid(codes[k], fetch(BaseCode(codes[k])), reportDate, sqrt);
    }
  }

  /** Analysing a list in two parts gives the successes of each part, in order. */
  lemma {:induction false} SuccessesAppend(a: seq<Option<FundResult>>, b: seq<Option<FundResult>>)
    ensures Successes(a + b) == Successes(a) + Successes(b)
  {
    if |b| > 0 {
      var b0 := b[..|b| - 1];
      SuccessesAppend(a, b0);
      assert (a + b)[..|a + b| - 1] == a + b0;
    } else {
      assert a + b == a;
    }
  }

  lemma SuccessesSnoc(outcomes: seq<Option<FundResult>>, o: Option<FundResult>)
    ensures Successes(outcomes + [o]) == Successes(outcomes) + (if o.Some? then [o.value] else [])
  {
    assert (outcomes + [o])[..|outcomes|] == outcomes;
  }

  lemma OutcomesSnoc(codes: seq<string>, i: nat, fetch: string -> Option<Table>, reportDate: string, sqrt: real -> real)
    requires i < |codes|
    ensures Outcomes(codes[..i + 1], fetch, reportDate, sqrt)
      == Outcomes(codes[..i], fetch, reportDate, sqrt) + [Outcome(codes[i], fetch, reportDate, sqrt)]
  {
  }

  lemma ReportBlocksSnoc(results: seq<FundResult>, r: FundResult, days: int, screener: Option<Screener>)
    requires SignalsValid(results) && r.signals.Valid()
    ensures SignalsValid(results + [r])
    ensures ReportBlocks(results + [r], days, screener) == ReportBlocks(results, days, screener) + [ReportBlock(r, days, screener)]
  {
    assert (results + [r])[..|results|] == results;
  }

  /** A fund whose analysis fails is skipped: the others' results are as without it. */
  lemma SkipFailure(a: seq<Option<FundResult>>, b: seq<Option<FundResult>>)
    ensures Successes(a + [None] + b) == Successes(a + b)
  {
    SuccessesAppend(a + [None], b);
    SuccessesAppend(a, [None]);
    SuccessesAppend(a, b);
    var one: seq<Option<FundResult>> := [None];
    assert one[..0] == [];
  }

  /** No successes exactly when every outcome is a failure; never more successes than outcomes. */
  lemma {:induction false} NoSuccesses(outcomes: seq<Option<FundResult>>)
    ensures var r := Successes(outcomes);
      && |r| <= |outcomes|
      && (r == [] <==> forall k :: 0 <= k < |outcomes| ==> outcomes[k].None?)
  {
    if |outcomes| > 0 {
      var init := outcomes[..|outcomes| - 1];
      NoSuccesses(init);
      assert forall k :: 0 <= k < |init| ==> init[k] == outcomes[k];
    }
  }

  /**
   * One pass of the loop in `run`: analyse the fund and, when that
   * succeeds, build the block the report receives for it.
   */
  method ReportFund(code: string, days: int, screener: Option<Screener>,
                    fetch: string -> Option<Table>, reportDate: string, sqrt: real -> real)
    returns (result: Option<FundResult>, block: Table)
    requires WellFormedSource(fetch)
    ensures result == Outcome(code, fetch, reportDate, sqrt)
    ensures result.Some? ==> result.value.signals.Valid() && block == ReportBlock(result.value, days, screener)
  {
    result := AnalyzeFund(code, fetch, reportDate, sqrt);
    block := Empty();
    if result.Some? {
      AnalysisSignalsValid(code, fetch(BaseCode(code)), reportDate, sqrt);
      block := ReportBlock(result.value, days, screener);
    }
  }

  /** What the loop of `run` has produced after the first i codes. */
  ghost predicate LoopState(codes: seq<string>, i: nat, days: int, screener: Option<Screener>,
                            fetch: string -> Option<Table>, reportDate: string, sqrt: real -> real,
                            results: seq<FundResult>, csv: seq<Table>, header: Option<seq<string>>)
    requires i <= |codes|
  {
    && results == Successes(Outcomes(codes[..i], fetch, reportDate, sqrt))
    && SignalsValid(results)
    && csv == ReportBlocks(results, days, screener)
    && header == (if |csv| > 0 then Some(csv[0].names) else None)
  }

  /** Before the first code nothing has been produced. */
  lemma LoopStart(codes: seq<string>, days: int, screener: Option<Screener>,
                  fetch: string -> Option<Table>, reportDate: string, sqrt: real -> real)
    ensures LoopState(codes, 0, days, screener, fetch, reportDate, sqrt, [], [], None)
  {
    assert Outcomes(codes[..0], fetch, reportDate, sqrt) == [];
  }

  /** After the last code the loop has produced the results of all codes. */
  lemma LoopEnd(codes: seq<string>, days: int, screener: Option<Screener>,
                fetch: string -> Option<Table>, reportDate: string, sqrt: real -> real,
                results: seq<FundResult>, csv: seq<Table>, header: Option<seq<string>>)
    requires LoopState(codes, |codes|, days, screener, fetch, reportDate, sqrt, results, csv, header)
    ensures results == Successes(Outcomes(codes, fetch, reportDate, sqrt))
    ensures SignalsValid(results)
    ensures csv == ReportBlocks(results, days, screener)
    ensures header == (if |csv| > 0 then Some(csv[0].names) else None)
  {
    assert codes[..|codes|] == codes;
  }

  /**
   * One pass of the loop in `run`: a failure leaves everything as it was; a
   * success is appended to the results and its block to the CSV report,
   * with the header row when it is the first block written.
   */
  method Step(codes: seq<string>, i: nat, days: int, screener: Option<Screener>,
              fetch: string -> Option<Table>, reportDate: string, sqrt: real -> real,
              results: seq<FundResult>, csv: seq<Table>, header: Option<seq<string>>, firstWrite: bool)
    returns (results': seq<FundResult>, csv': seq<Table>, header': Option<seq<string>>, firstWrite': bool)
    requires WellFormedSource(fetch) && i < |codes|
    requires LoopState(codes, i, days, screener, fetch, reportDate, sqrt, results, csv, header)
    requires firstWrite == (|csv| == 0)
    ensures LoopState(codes, i + 1, days, screener, fetch, reportDate, sqrt, results', csv', header')
    ensures firstWrite' == (|csv'| == 0)
  {
    var result, block := ReportFund(codes[i], days, screener, fetch, reportDate, sqrt);
    OutcomesSnoc(codes, i, fetch, reportDate, sqrt);
    SuccessesSnoc(Outcomes(codes[..i], fetch, reportDate, sqrt), result);
    results', csv', header', firstWrite' := results, csv, header, firstWrite;
    if result.Some? {
      ReportBlocksSnoc(results, result.value, days, screener);
      results' := results + [result.value];
      if firstWrite {
        header' := Some(block.names);
        firstWrite' := false;
      }
      csv' := csv + [block];
    }
  }

  /**
   * The loop of `run` over the fund codes: each fund is analysed in turn, a
   * failure is skipped, and each success appends its block to the CSV
   * report, the first one with the header row.
   */
  method AnalyseAll(codes: seq<string>, days: int, screener: Option<Screener>,
                    fetch: string -> Option<Table>, reportDate: string, sqrt: real -> real)
    returns (results: seq<FundResult>, csv: seq<Table>, header: Option<seq<string>>)
    requires WellFormedSource(fetch)
    ensures results == Successes(Outcomes(codes, fetch, reportDate, sqrt))
    ensures SignalsValid(results)
    ensures csv == ReportBlocks(results, days, screener)
    ensures header == (if |csv| > 0 then Some(csv[0].names) else None)
  {
    results := [];
    csv := [];
    header := None;
    var firstWrite := true;
    var i := 0;
    LoopStart(codes, days, screener, fetch, reportDate, sqrt);
    while i < |codes|
      invariant 0 <= i <= |codes|
      invariant LoopState(codes, i, days, screener, fetch, reportDate, sqrt, results, csv, header)
      invariant firstWrite == (|csv| == 0)
    {
      results, csv, header, firstWrite := Step(codes, i, days, screener, fetch, reportDate, sqrt, results, csv, header, firstWrite);
      i := i + 1;
    }
    LoopEnd(codes, days, screener, fetch, reportDate, sqrt, results, csv, header);
  }

  /**
   * `run`. Returns whether any fund succeeded, the successful analyses, the
   * blocks written to the CSV report (the first with the header row, named
   * by `header`), and the report mail, sent only after a success.
   */
  method Run(days: int, given: Option<seq<string>>, query: Option<string>, screened: Option<Screener>,
             fetch: string -> Option<Table>, reportDate: string, sqrt: real -> real,
             env: EmailSender.Environment)
    returns (ok: bool, results: seq<FundResult>, csv: seq<Table>, header: Option<seq<string>>,
             mail: Option<EmailSender.Message>)
    requires WellFormedSource(fetch)
    ensures var codes := SelectFundCodes(query, given, screened);
      && results == Successes(Outcomes(codes, fetch, reportDate, sqrt))
      && SignalsValid(results)
      && csv == ReportBlocks(results, days, ScreenerInUse(query, screened))
      && header == (if |csv| > 0 then Some(csv[0].names) else None)
      && (ok <==> exists k :: 0 <= k < |codes| && Outcomes(codes, fetch, reportDate, sqrt)[k].Some?)
      && ok == (|results| > 0)
      && mail == (if ok then EmailSender.ReportMessage(EmailSender.LoadConfig(env), reportDate, BandLabels(csv)) else None)
  {
    var screener := ScreenerInUse(query, screened);
    var codes := SelectFundCodes(query, given, screened);
    results, csv, header := AnalyseAll(codes, days, screener, fetch, reportDate, sqrt);
    ghost var outcomes := Outcomes(codes, fetch, reportDate, sqrt);
    NoSuccesses(outcomes);
    ok := |results| > 0;
    assert ok <==> exists k :: 0 <= k < |codes| && outcomes[k].Some?;
    if ok {
      mail := EmailSender.ReportMessage(EmailSender.LoadConfig(env), reportDate, BandLabels(csv));
    } else {
      mail := None;
    }
  }
}
