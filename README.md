# Fund signal system — a verified model of its signal engine

The fund signal system reads the daily net-value history of a list of
mutual funds. For each fund it computes five technical-indicator
families, each with a label column:

- 5/10-day moving averages;
- 14-period RSI;
- 12/26 EMA MACD;
- 20-period CCI;
- 20-period, two-sigma Bollinger bands.

Labels are 持有 hold, 买入 buy, 卖出 sell, 机会买入 opportunistic buy and
提示风险 risk alert. The system projects every fund onto a fixed report
layout stamped with the report date, keeps the last N days of each fund,
appends the funds to one CSV report, and mails a summary whose body
tallies the Bollinger labels.

This project models that engine in Dafny and proves what it promises.

| module | file | models |
|---|---|---|
| `Wrappers` | wrappers.dfy | `Option`, the "no value / raised" outcome |
| `Numerics` | numerics.dfy | sums and means over partial windows, deviations, sample variance, decimal rounding |
| `Indicators` | indicators.dfy | rolling mean, RSI, EMA and MACD, CCI, Bollinger bands as functions over `seq<real>` |
| `Signals` | signals.dfy | the label datatype, the crossing rules, and the masked in-place overwrite of a label column |
| `Frames` | frames.dfy | the data frame: a `Table` value and a `Frame` class whose columns are assigned in place |
| `Analyzer` | analyzer.dfy | `calculate_technical_indicators` (in place, on a `Frame`), `create_signal_table`, `analyze_fund` |
| `Pipeline` | pipeline.dfy | fund-code selection, retention, screener stamping, and the `run` loop with skip-on-failure |
| `Text` | text.dfy | Python's `strip`, `split`, `join` and `int` on decimal text |
| `EmailSender` | email_sender.dfy | `_load_config` (port, server, recipients), the `send_email` guard, headers and label tally |

Net values are mathematical reals. The square root behind the sample
standard deviation is a parameter `sqrt`; every property that depends on
it assumes `IsSqrt(sqrt)`. A standard deviation that pandas leaves
undefined, for a one-row window, is `None`; so is a band built from it. A
comparison with an undefined value is false, as in pandas.

The outside world comes in as parameters:

- the history fetch is a function from a base code to an optional table;
- the screener result is an optional list of rows;
- the environment is a map from variable names to values;
- the report date is a string.

## Model

| member | source | states |
|---|---|---|
| Numerics.MeanBounds | fund_signal_system/main.py:283-284 | the mean of a window of values in [lo, hi] lies in [lo, hi] |
| Numerics.ConstantWindowStatistics | fund_signal_system/main.py:322-334 | a constant window has its value as mean, zero mean absolute deviation and zero sample variance |
| Numerics.ZeroDeviationMeansCentered | fund_signal_system/main.py:322-324 | a zero mean absolute deviation forces every window value, the latest included, to equal the mean |
| Numerics.VarianceNonnegative | fund_signal_system/main.py:334 | the sample variance (ddof 1) is never negative |
| Numerics.RoundMonotone | fund_signal_system/main.py:297 | rounding to d decimals never reverses the order of two values |
| Numerics.RoundInteger | fund_signal_system/main.py:297 | rounding leaves whole numbers unchanged |
| Indicators.RollingMean | fund_signal_system/main.py:283-284 | one partial-window mean per row: as many values as the series |
| Indicators.Gains | fund_signal_system/main.py:293-294 | one gain per row: as many values as the series |
| Indicators.Losses | fund_signal_system/main.py:293-295 | one loss per row: as many values as the series |
| Indicators.Rsi | fund_signal_system/main.py:293-298 | one RSI value per row |
| Indicators.Ema | fund_signal_system/main.py:307-308 | one EMA value per row |
| Indicators.Macd | fund_signal_system/main.py:307-309 | one MACD value per row |
| Indicators.Cci | fund_signal_system/main.py:320-324 | one CCI value per row |
| Indicators.RollingStd | fund_signal_system/main.py:334 | one optional sample standard deviation per row |
| Indicators.UpperBand | fund_signal_system/main.py:335 | one optional upper band value per row |
| Indicators.LowerBand | fund_signal_system/main.py:336 | one optional lower band value per row |
| Indicators.RollingMeanWithin | fund_signal_system/main.py:283-284 | a partial-window rolling mean of values in [lo, hi] stays in [lo, hi] at every index |
| Indicators.RollingMeanFirst | fund_signal_system/main.py:283-284 | with min_periods 1 the rolling mean at index 0 is the first value |
| Indicators.RollingMeanOfConstant | fund_signal_system/main.py:283-284 | the rolling mean of a constant series is that constant everywhere |
| Indicators.GainsLossesSplitDifference | fund_signal_system/main.py:293-295 | gain and loss are non-negative, never both positive, and their difference is the first difference (0 at index 0) |
| Indicators.AverageGainLossNonnegative | fund_signal_system/main.py:294-295 | the 14-window average gain and average loss are non-negative |
| Indicators.RsiClosedForm | fund_signal_system/main.py:296-297 | with a positive loss, 100 − 100/(1 + gain/loss) equals 100·gain/(gain + loss) |
| Indicators.RsiValueSpec | fund_signal_system/main.py:293-298 | RSI is 50 in the 0/0 case (gain and loss both 0, the filled NaN), otherwise 100·gain/(gain+loss) rounded to 2 decimals; always in [0, 100] |
| Indicators.RsiWithinRange | fund_signal_system/main.py:293-298 | every RSI value lies in [0, 100] |
| Indicators.RsiFirstIsNeutral | fund_signal_system/main.py:293-298 | RSI at index 0 is 50 |
| Indicators.RsiOfConstant | fund_signal_system/main.py:293-298 | a flat series has RSI 50 at every index |
| Indicators.RsiOfRising | fund_signal_system/main.py:293-298 | a strictly rising series has RSI 100 at every index after the first |
| Indicators.ConvexWithin | fund_signal_system/main.py:307-308 | one EMA step, a convex combination, stays inside any interval holding both operands |
| Indicators.EmaWithin | fund_signal_system/main.py:307-308 | the EMA at i stays within any bounds of the values up to i |
| Indicators.AlphaInUnitInterval | fund_signal_system/main.py:307-308 | the smoothing factor 2/(span+1) lies in (0, 1] |
| Indicators.MacdFirstIsZero | fund_signal_system/main.py:307-309 | MACD at index 0 is 0, because both EMAs start at the first value |
| Indicators.MacdOfConstant | fund_signal_system/main.py:307-309 | a flat series has MACD 0 everywhere |
| Indicators.CciFillIsZeroOverZero | fund_signal_system/main.py:320-324 | when the mean absolute deviation is 0, the numerator x − mean is 0 too, so the only undefined CCI is 0/0, which is filled with 0 |
| Indicators.CciFirstIsZero | fund_signal_system/main.py:320-324 | CCI at index 0 is 0 |
| Indicators.CciOfConstant | fund_signal_system/main.py:320-324 | a flat series has CCI 0 everywhere |
| Indicators.BandsShape | fund_signal_system/main.py:333-336 | the bands are defined exactly from index 1 on (sample std of one value is undefined), and lower ≤ upper where defined |
| Indicators.BandsUndefinedOnFirstRow | fund_signal_system/main.py:334-336 | both bands are undefined at index 0 |
| Indicators.BandsOfConstant | fund_signal_system/main.py:333-336 | for a flat series both bands equal the rounded value from index 1 on |
| Signals.Overwrite | fund_signal_system/main.py:288-289 | a masked overwrite keeps the column's length |
| Signals.CrossLabels | fund_signal_system/main.py:285-289 | one label per row of the buy mask |
| Signals.MaSignals | fund_signal_system/main.py:285-289 | one MA label per row |
| Signals.ThresholdSignals | fund_signal_system/main.py:299-303 | one threshold label per row |
| Signals.BollingerSignals | fund_signal_system/main.py:337-346 | one Bollinger label per row |
| Signals.AssignWhere | fund_signal_system/main.py:288-289 | the masked assignment overwrites exactly the masked rows of the label column with the label |
| Signals.CrossLabelsOutcome | fund_signal_system/main.py:285-289 | with buy and sell masks that do not overlap, a row is buy iff buy, sell iff sell, hold iff neither |
| Signals.MaSignalsSpec | fund_signal_system/main.py:285-289 | MA label is buy iff MA5 crosses above MA10 at i, sell iff it crosses below, otherwise hold; index 0 is hold |
| Signals.ThresholdSignalsSpec | fund_signal_system/main.py:299-303 | a threshold label is buy iff the value rises above the lower threshold at i, sell iff it falls below the upper one; index 0 is hold |
| Signals.RsiSignalsSpec | fund_signal_system/main.py:299-303 | RSI label: buy iff crossing above 30, sell iff crossing below 70, otherwise hold |
| Signals.MacdSignalsSpec | fund_signal_system/main.py:312-316 | MACD label: buy iff crossing above −100, sell iff crossing below 100, otherwise hold |
| Signals.CciSignalsSpec | fund_signal_system/main.py:325-329 | CCI label: buy iff crossing above −100, sell iff crossing below 100, otherwise hold |
| Signals.BollingerPrecedence | fund_signal_system/main.py:337-346 | Bollinger label, by the order of the overwrites: sell iff cross-sell; buy iff cross-buy and not cross-sell; risk alert iff above the upper band and no crossing; opportunistic buy iff below the lower band, not above the upper, no crossing; hold otherwise |
| Signals.BollingerUndefinedBands | fund_signal_system/main.py:338-346 | undefined bands give hold; undefined bands at i − 1 rule out both crossings at i |
| Signals.BandPositionsExclusive | fund_signal_system/main.py:338-339 | with lower ≤ upper a value is never both below the lower band and above the upper band |
| Signals.BothCrossingsNeedClosedBands | fund_signal_system/main.py:340-346 | both crossings at once need lower = upper = the previous value, and then the label is sell |
| Frames.Frame.Assign | fund_signal_system/main.py:263-274 | assigning a column replaces it, or appends it after the existing columns, and changes nothing else |
| Frames.PutValid | fund_signal_system/main.py:263-274 | assigning a full-height column keeps the frame well formed |
| Frames.PutContents | fund_signal_system/main.py:263-274 | after an assignment the column holds the new values, other columns are unchanged, and a new name goes last |
| Frames.SelectMembership | fund_signal_system/main.py:387 | an element survives a mask selection iff some masked position holds it |
| Frames.SelectKeepsOrder | fund_signal_system/main.py:387 | a mask selection keeps the relative order of kept elements |
| Frames.SelectDistinct | fund_signal_system/main.py:387 | selecting from distinct names gives distinct names |
| Analyzer.FallbackColumns | fund_signal_system/main.py:259-277 | the fallback keeps the row count |
| Analyzer.FullColumns | fund_signal_system/main.py:279-346 | the five families keep the row count |
| Analyzer.WithIndicators | fund_signal_system/main.py:249-366 | None (the caught KeyError) exactly when a non-empty frame lacks a numeric value column; an empty frame comes back as it was; a result keeps the row count |
| Analyzer.CalculateTechnicalIndicators | fund_signal_system/main.py:249-366 | the frame is updated in place to exactly `WithIndicators` of its old contents; when that is None (no value column) it is left as it was |
| Analyzer.AddFallbackColumns | fund_signal_system/main.py:262-274 | adds the fallback columns |
| Analyzer.AddMovingAverages | fund_signal_system/main.py:283-289 | adds MA5, MA10 and the MA labels, built by masked overwrites |
| Analyzer.ThresholdLabels | fund_signal_system/main.py:299-303 | a fresh label column starts all hold and takes the buy overwrite, then the sell overwrite, giving exactly the threshold-crossing labels |
| Analyzer.AddRsi | fund_signal_system/main.py:293-303 | adds RSI and its labels |
| Analyzer.AddMacd | fund_signal_system/main.py:307-316 | adds MACD, its copy macd值 and the MACD labels |
| Analyzer.AddCci | fund_signal_system/main.py:320-329 | adds cci值 and the CCI labels |
| Analyzer.AddBollinger | fund_signal_system/main.py:333-346 | adds the three bands and the Bollinger labels, built by the four overwrites in order |
| Analyzer.MaColumnsContents | fund_signal_system/main.py:283-289 | MA5 and MA10 are the 5- and 10-window rolling means, the MA labels their crossings, and no other column changes |
| Analyzer.RsiColumnsContents | fund_signal_system/main.py:293-303 | the RSI column and RSI labels are the RSI formula and its 30/70 crossings; no other column changes |
| Analyzer.MacdColumnsContents | fund_signal_system/main.py:307-316 | MACD and macd值 hold the same MACD series, the labels its ±100 crossings; no other column changes |
| Analyzer.CciColumnsContents | fund_signal_system/main.py:320-329 | cci值 is the CCI series, the labels its ±100 crossings; no other column changes |
| Analyzer.BollingerColumnsContents | fund_signal_system/main.py:333-346 | mid is the 20-window rolling mean, upper and lower the rounded two-sigma bands, the labels the ordered band rule; no other column changes |
| Analyzer.EmptyFrameUnchanged | fund_signal_system/main.py:251-253 | an empty frame comes back unchanged |
| Analyzer.ShortSeriesFallback | fund_signal_system/main.py:259-277 | with 1–19 rows every label column is hold, RSI is 50, MACD = macd值 = cci值 = 0, mid = value, upper = 1.1·value, lower = 0.9·value, the row count is unchanged and other columns are kept |
| Analyzer.FallbackColumnsValid | fund_signal_system/main.py:259-277 | the fallback columns keep the frame well formed |
| Analyzer.FallbackColumnsContents | fund_signal_system/main.py:262-274 | the fallback writes the constant labels and values and the scaled bands, and leaves other columns as they were |
| Analyzer.FullSeriesColumns | fund_signal_system/main.py:279-346 | with 20 or more rows each indicator and label column is exactly its formula over the value column; the frame stays well formed and other columns are kept |
| Analyzer.FullColumnsValid | fund_signal_system/main.py:283-337 | the full indicator columns keep the frame well formed and every column as long as the input |
| Analyzer.FullLabelsHoldOnFirstRow | fund_signal_system/main.py:285-346 | each of the five label rules gives hold at index 0 |
| Analyzer.FirstRowHolds | fund_signal_system/main.py:259-346 | whatever the length, every label column starts with hold |
| Analyzer.IndicatorColumnRanges | fund_signal_system/main.py:259-324 | RSI lies in [0, 100] on every row, and MACD, macd值 and cci值 are 0 on the first row, on both paths |
| Analyzer.IndicatorsKeepOtherColumns | fund_signal_system/main.py:249-366 | adding indicators keeps the row count and well-formedness and leaves every other column untouched |
| Analyzer.IndicatorsKeepColumn | fund_signal_system/main.py:249-366 | a column outside the indicator family is neither added, dropped nor changed |
| Analyzer.CreateSignalTable | fund_signal_system/main.py:368-414 | the report table has as many rows as the frame |
| Analyzer.PresentSpec | fund_signal_system/main.py:387 | the present columns are exactly the listed columns the frame has |
| Analyzer.CreateSignalTableSpec | fund_signal_system/main.py:368-414 | empty input gives an empty table; otherwise same row count, exactly the present listed columns in list order, their values copied, and the report date on every row |
| Analyzer.CreateSignalTableOrder | fund_signal_system/main.py:378-396 | two listed columns that are both present appear in list order |
| Analyzer.BaseCode | fund_signal_system/main.py:170-173 | the base code is never longer than the code |
| Analyzer.BaseCodeSpec | fund_signal_system/main.py:170-173 | the base code is the longest prefix without '.', the whole code when it has none, and stripping twice changes nothing |
| Analyzer.Analysis | fund_signal_system/main.py:416-446 | a failed fetch gives no result; a result carries the fund's code and a report table with as many rows as its frame |
| Analyzer.AnalyzeFund | fund_signal_system/main.py:416-446 | analysing a fund is fetch by base code, then indicators, then projection; any failure gives no result |
| Analyzer.AnalysisSuccess | fund_signal_system/main.py:416-446 | a result needs a fetched, non-empty history with a non-empty text name column; its name is the first cell of that column, its frame is the history with indicators, its report table the projection of that frame, with as many rows as the history |
| Pipeline.BaseCodeIsFirstPiece | fund_signal_system/main.py:89 | the base code is the first piece of splitting the code on '.' |
| Pipeline.SelectFundCodes | fund_signal_system/main.py:460-472 | the codes are the default list, the given list when there is no query, or the screened codes when there is one |
| Pipeline.SelectFundCodesSpec | fund_signal_system/main.py:460-472 | with a screener query the screened codes, suffixes stripped, are used; otherwise the given list, or the default list when none was given; an empty list has only those two causes |
| Pipeline.FindRow | fund_signal_system/main.py:523-526 | a found row is one of the screener rows and has the code as its base code |
| Pipeline.FindRowSpec | fund_signal_system/main.py:523-526 | the screener row found for a code is the first one with that base code, and there is none only when no row has it |
| Pipeline.ApplyScreenerInfo | fund_signal_system/main.py:522-536 | stamping the screener information keeps the row count |
| Pipeline.ApplyScreenerInfoSpec | fund_signal_system/main.py:522-536 | a screener match sets the name (and the investment type when the screener has it) on every row; other columns are kept, and without a match nothing changes |
| Pipeline.RecentMask | fund_signal_system/main.py:514-519 | one keep flag per date |
| Pipeline.Retain | fund_signal_system/main.py:512-519 | retention keeps the column names and never adds rows |
| Pipeline.RetainSpec | fund_signal_system/main.py:512-519 | with a date column, a row is kept exactly when its date is ≥ latest date − days, the row count is the number of kept rows, every column is filtered by that same mask, and some row survives when days ≥ 0; without a date column the table is unchanged |
| Pipeline.FilterRowsValid | fund_signal_system/main.py:519 | filtering rows keeps the table well formed |
| Pipeline.SkipFailure | fund_signal_system/main.py:504-568 | a failed fund contributes nothing and does not stop the loop |
| Pipeline.NoSuccesses | fund_signal_system/main.py:583-585 | there are at most as many results as funds, and none exactly when every fund failed |
| Pipeline.Successes | fund_signal_system/main.py:501-507 | there are never more results than outcomes |
| Pipeline.SuccessesAppend | fund_signal_system/main.py:501-507 | the results of a concatenated batch are the concatenation of the results |
| Pipeline.OutcomesValid | fund_signal_system/main.py:501-503 | every successful outcome carries a well-formed report table |
| Pipeline.ReportFund | fund_signal_system/main.py:502-547 | one iteration: the analysis outcome and, on success, the retained and stamped report block |
| Pipeline.Step | fund_signal_system/main.py:501-547 | one iteration of the loop extends the results, report blocks and header to those of one more fund |
| Pipeline.AnalyseAll | fund_signal_system/main.py:501-547 | after the loop the results are the successes in code order and the CSV holds one block per result, with the header from the first |
| Pipeline.BandLabels | fund_signal_system/email_sender.py:90-96 | every label read from the blocks is one of the five label texts |
| Pipeline.Run | fund_signal_system/main.py:448-599 | results are the successes in code order; the CSV holds one block per result, with the header from the first; `run` returns true iff some fund succeeded; the mail is tried only then |
| EmailSender.SmtpPort | fund_signal_system/email_sender.py:27-40 | a port other than 465 comes from a non-blank SMTP_PORT (or SMTP when SMTP_PORT is blank) whose stripped text parses to it |
| EmailSender.SmtpServer | fund_signal_system/email_sender.py:43-51 | the server is smtp.qq.com, or the stripped SMTP_SERVER when that is not blank |
| EmailSender.Recipients | fund_signal_system/email_sender.py:60 | no recipient is empty |
| EmailSender.LoadConfig | fund_signal_system/email_sender.py:16-61 | the server is non-empty and unpadded; both port variables blank give 465, and any other port is the parse of the chosen variable; every recipient is non-empty, unpadded and without ';', and none are configured when RECIPIENTS is unset; user and password default to the empty string |
| EmailSender.PortDefault | fund_signal_system/email_sender.py:27-40 | both SMTP_PORT and SMTP blank give port 465 |
| EmailSender.PortFromSmtpPort | fund_signal_system/email_sender.py:27-40 | SMTP_PORT holding an integer's text, padded or not, gives that integer |
| EmailSender.PortFromSmtp | fund_signal_system/email_sender.py:27-40 | a blank SMTP_PORT falls back to SMTP |
| EmailSender.PortFromInvalidText | fund_signal_system/email_sender.py:27-40 | when the chosen variable (SMTP_PORT, or SMTP when SMTP_PORT is blank) is not blank but its stripped text is not an integer literal, the port is 465 |
| EmailSender.PortFromStrayCharacter | fund_signal_system/email_sender.py:33-40 | a non-blank SMTP_PORT containing a character other than a digit, an underscore or a leading sign gives 465 |
| EmailSender.ServerSpec | fund_signal_system/email_sender.py:43-51 | the server is smtp.qq.com when SMTP_SERVER is unset or whitespace, otherwise its stripped value; never empty, never padded |
| EmailSender.NonEmptyStrippedSpec | fund_signal_system/email_sender.py:60 | each kept entry is non-empty, unpadded and free of the separator |
| EmailSender.RecipientsClean | fund_signal_system/email_sender.py:60 | every recipient is non-empty, unpadded and without ';' |
| EmailSender.RecipientsUnset | fund_signal_system/email_sender.py:60 | an unset RECIPIENTS gives no recipients |
| EmailSender.NonEmptyStrippedClean | fund_signal_system/email_sender.py:60 | clean entries pass through unchanged and in order |
| EmailSender.RecipientsRoundTrip | fund_signal_system/email_sender.py:60 | a ';'-joined list of clean addresses reads back as that list, in order |
| EmailSender.ReportMessage | fund_signal_system/email_sender.py:72-86 | a message exists exactly when user, password and recipients are all set; its sender is the user and its To header the ','-joined recipients |
| EmailSender.ReportMessageSpec | fund_signal_system/email_sender.py:72-86 | no message iff the user or password is empty or there are no recipients; otherwise the sender is the user, the To header is the recipients joined by ',', it splits back into the recipients when none contains ',', and the subject is the fixed prefix followed by the report date |
| EmailSender.TallyBound | fund_signal_system/email_sender.py:93-96 | counts of distinct label texts never add up to more than the rows read |
| EmailSender.Texts | fund_signal_system/email_sender.py:90-96 | every text of a label column is one of the five label texts |
| EmailSender.TallyComplete | fund_signal_system/email_sender.py:93-96 | over a column holding only the five label texts, buy + sell + hold counts equal its length |
| EmailSender.ReportCountsExact | fund_signal_system/email_sender.py:90-96 | when every label read is one of the five texts, the message's buy, sell and hold counts add up to the number of labels |
| EmailSender.ReportCountsBound | fund_signal_system/email_sender.py:93-96 | the buy, sell and hold counts of a message add up to at most the number of labels |
| Text.Strip | fund_signal_system/email_sender.py:28 | stripping never lengthens the text |
| Text.StripSpec | fund_signal_system/email_sender.py:28 | strip removes a whitespace prefix and suffix and nothing else, leaving no whitespace at either end |
| Text.StripIdempotent | fund_signal_system/email_sender.py:28 | stripping twice is stripping once |
| Text.StripEmpty | fund_signal_system/email_sender.py:28 | strip gives the empty string exactly for all-whitespace text |
| Text.Split | fund_signal_system/email_sender.py:60 | a split has at least one piece |
| Text.Join | fund_signal_system/email_sender.py:86 | joining n ≥ 1 pieces gives at least n − 1 characters, the separators |
| Text.JoinSplit | fund_signal_system/email_sender.py:60 | joining the pieces of a split gives back the text |
| Text.SplitPiecesFree | fund_signal_system/email_sender.py:60 | no piece of a split contains the separator |
| Text.SplitJoin | fund_signal_system/email_sender.py:86 | splitting a join of separator-free pieces gives back the pieces |
| Text.ParseInt | fund_signal_system/email_sender.py:35 | `int` succeeds exactly on an optional sign followed by digits with single separating underscores |
| Text.ParseIntString | fund_signal_system/email_sender.py:35 | `int(str(i)) == i` for every integer |
| Text.ParseIntRejects | fund_signal_system/email_sender.py:35-39 | text with a character other than digits, underscores and a leading sign is no integer literal and is rejected |

## Left out

- Fetching histories (`get_fund_data`, akshare) and screening (`get_funds_from_wencai`, pywencai) are not modelled. Both are network calls. They appear as a fetch function and an optional screener result. The model keeps what the code does to their output: the `.OF` stripping, the `基金代码` column and the `基金简称`/`投资类型` columns.
- The retry helper `retry_api_call` is not modelled. It sleeps and draws random delays.
- The random pause between funds and `show_progress` are not modelled. Both depend on the clock and stdout.
- Logging, including the summary counts at the end of `calculate_technical_indicators`, is not modelled. logger.py is not part of this model.
- File I/O is not modelled: the output directory, the CSV and Excel files, and reading the CSV back in `send_email`. The CSV is modelled as the sequence of blocks written, with the header taken from the first block. `Pipeline.BandLabels` reads the Bollinger labels of those blocks directly, in place of parsing the file.
- Pipeline.Run: a later block whose column set differs from the first is appended under the first block's header. The model records each block's own columns and does not model the misaligned rows.
- MIME building, the HTML body, the SMTP connection and login, and `test_connection` are not modelled. A message that passes the guard is returned as a value. The true/false result of the actual send does not affect `run`.
- The `argparse` entry point `main` and the test scripts are not modelled.
- The default report date is not modelled. It comes from the clock, so the report date is a parameter.
- `MACD_signal` is not modelled. It is computed but never used or reported. The model's frame never gets this column, so `Analyzer.IndicatorsKeepColumn`'s "neither added, dropped nor changed" does not hold for `MACD_signal`: the source adds it, or overwrites it, on the full path.
- Numerics.Round: ties round upward, where pandas rounds ties to even. The two differ only at exact ties.
- Floating point is not modelled. Values are reals, so there is no IEEE rounding and no infinities.
- The square root is a parameter `sqrt` constrained by `IsSqrt`.
- NaN net values in the input are not modelled. Undefined values exist only where the code produces them: the first difference at index 0, the bands at index 0, and the filled 0/0 quotients.
- Dates are day numbers. `pd.to_datetime` and `strftime('%Y-%m-%d')` are not modelled.
- Text.ParseInt accepts only ASCII digits. Python's `int` also accepts other Unicode decimal digits.
- Analyzer.CalculateTechnicalIndicators: on the short path a frame without the value column raises after some columns were already added. The model leaves the frame unchanged in that case. The only caller discards the frame on failure, so the difference cannot be seen.
- EmailSender.ReportMessage: the tally reads the labels as text. A label that is not one of the five texts counts towards none of the totals; `EmailSender.ReportCountsExact` covers columns holding only the five texts.
