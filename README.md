# SimpleTransactionAnalyzer core, modelled in Dafny

This project models the analysis engine of the transaction analyser and proves
properties about the model:

- the transaction record and its CSV line parser (`TransactionRecord.of`);
- the accumulator contract (`AnalyzerFunction`) and its two implementations:
  - the averaging function;
  - the minimum/maximum function;
- the engine (`TransactionAnalyzer`). It keeps:
  - an ordered dataset of records;
  - an id index into that dataset;
  - one accumulator for its whole lifetime.

The engine's operations:

- `add` stores a record and resolves a REVERSAL by marking the record that the
  reversal's related id names.
- `analyze(from, to)` does three things in turn:
  - it rejects an empty dataset or an inverted range;
  - it skips the records dated before `from`;
  - it feeds the following records to the accumulator up to the first one dated
    after `to`, then returns the accumulator's result map.
- `interpretResult` renders one `key = value` line per key of the accumulator's
  key set.

Files:

- `wrappers.dfy` holds `Option`.
- `transaction_record.dfy` (module `Model`) holds the record, its type enum and
  the parser.
- `analyzer_function.dfy` (module `AnalyzerFunctions`) holds the result map, the
  inherited defaults and the rule for which records are counted.
- `averaging_function.dfy` (module `Averaging`) and `min_max_function.dfy`
  (module `MinMax`) hold the two accumulators. Each is a class with the Java
  fields, plus a value-level state with a step function, a fold (`Feed`) and
  lemmas about that fold.
- `transaction_analyzer.dfy` (module `Analyzer`) holds the accumulator dispatch,
  the engine class, the window of `analyze`, the report text and the factory
  taken from the command-line front end.
- `scenarios.dfy` (module `Scenarios`) works through the behaviours that the
  repository's unit tests pin down, using records written out explicitly.

Modelling decisions:

- `AnalyzerFunction` is a Java interface. It is modelled as the closed datatype
  `Analyzer.Accumulator`, which dispatches to one of the two shipped classes.
  Its third alternative, `DefaultFn`, stands for an implementation (a lambda,
  say) that keeps the inherited `getResult` and `getKeySet`.
- Records are values.
  - The index is a map from id to a position in the dataset sequence.
  - `setReversed(true)` on the indexed record is an update of the dataset at
    that position.
  - This keeps the Java property that a flag flipped through the index is
    visible through the dataset.
- Amounts are `real` values bounded by Java's `Double.MAX_VALUE`.
- Dates are integers within the range of Java's `long`. `Long.MIN_VALUE` is the
  sentinel for a date that does not parse.
- The library routines are opaque functions passed in through
  `Model.Formats`:
  - date parsing and formatting (`SimpleDateFormat`);
  - `Double.parseDouble`;
  - `String.format("%1$,.2f", x)`.
- The separator pattern `" *, *"` of `split` is modelled directly:
  - the line is cut at each comma;
  - the spaces next to each comma are removed;
  - without a comma, the line is its own single token;
  - with a comma, trailing empty tokens are dropped, as `split` does with
    limit 0.
  So `"..., PAYMENT,"` gives five tokens.

The model reproduces these behaviours of the code as written:

- **The accumulator is created once, with the engine.** Repeated `analyze`
  calls keep feeding the same accumulator (`Scenarios.AverageTwice`).
- **Averaging `getResult` changes the accumulator.** It overwrites the running
  sum with the quotient. The reported average, before formatting, therefore
  differs on a second report unless at most one record was counted or the sum
  is zero (`Averaging.ReportTwice`).
- **A reversal can mark itself.** The new record is indexed before its target
  is looked up (`Analyzer.SelfReversal`).
- **A reversal can mark any kind of record**, a REVERSAL included.
- **An error map renders as `key = null` lines.** `interpretResult` looks up only
  key-set keys (`Analyzer.ErrorRendersAsNulls`).

These follow from particular lines of the code:

- Averaging `getResult` is not idempotent, because it assigns the quotient back
  to the running-sum field (src/main/java/analyzer/AveragingFunction.java:41).
- No fresh accumulator is made for each `analyze` call. The accumulator is a
  field set once by the constructor
  (src/main/java/analyzer/TransactionAnalyzer.java:16-22).
- A reversal may mark its own record or another REVERSAL. The lookup uses the
  index after the new record has been put into it, and it does not check the
  target's type (src/main/java/analyzer/TransactionAnalyzer.java:27-31).

## Model

| member | source | states |
|---|---|---|
| `Model.ValueOf` | src/main/java/model/TransactionRecord.java:53 | the type is found only by an exact, case-sensitive match of a constant's name; any other string has no type (where Java throws) |
| `Model.ValueOfName` | src/main/java/model/TransactionRecord.java:13-15 | every enum constant is recovered from its own name |
| `Model.CommaPieces` | src/main/java/model/TransactionRecord.java:34 | the comma-free pieces of a line, at least one, which join back with commas to the line |
| `Model.TrimLeadingSpaces` | src/main/java/model/TransactionRecord.java:34 | the result is a suffix of the input; only spaces were removed; it starts with no space |
| `Model.TrimTrailingSpaces` | src/main/java/model/TransactionRecord.java:34 | the result is a prefix of the input; only spaces were removed; it ends with no space |
| `Model.DropTrailingEmpty` | src/main/java/model/TransactionRecord.java:34 | the result is a prefix whose last token is non-empty; only empty tokens were dropped |
| `Model.TrimPieceStripped` | src/main/java/model/TransactionRecord.java:34 | the trimmed piece is a slice of the piece. Only spaces are removed: the leading ones when a comma precedes it, the trailing ones when a comma follows it, and no others. What is left starts and ends accordingly with no space |
| `Model.TokensOfLine` | src/main/java/model/TransactionRecord.java:34 | every token is comma-free. A line without a comma is its own single token. Otherwise token `i` is comma piece `i` stripped of the spaces next to its commas, the last token is non-empty, and the dropped trailing pieces are exactly ones that strip to nothing |
| `Model.PiecesUnique` | src/main/java/model/TransactionRecord.java:34 | cutting at commas inverts joining comma-free pieces with commas |
| `Model.PiecesOfCsvLine` | src/main/java/model/TransactionRecord.java:34 | the pieces of a `", "`-separated line of plain fields, with one empty piece more after a trailing comma |
| `Model.TokensOfCsvLine` | src/main/java/model/TransactionRecord.java:34 | splitting a line written from plain fields gives back the fields, with or without a trailing comma |
| `Model.OfTokens` | src/main/java/model/TransactionRecord.java:35-58 | no record exactly when there are fewer than 5 tokens or the line is a header. The parse fails exactly when token 4 names no type. Otherwise the record has id, merchant and type from their tokens and is not reversed. An unparsable date falls back to Long.MIN_VALUE and an unparsable amount to 0.0. The related id is set exactly when a non-empty token 5 exists |
| `Model.Of` | src/main/java/model/TransactionRecord.java:31-61 | a null line gives no record; any other line is decided by its tokens |
| `Model.LineWithoutComma` | src/main/java/model/TransactionRecord.java:24-35 | a line with no comma, the empty line included, is a single token, so it gives no record |
| `Model.OfCsvLine` | src/main/java/model/TransactionRecord.java:34-56 | a line of 5 or 6 plain fields parses to the record those fields describe, a trailing comma included: `"..., PAYMENT,"` has no related id |
| `AnalyzerFunctions.DefaultGetResult` | src/main/java/analyzer/AnalyzerFunction.java:20-24 | exactly one entry, `WARNING`, holding the warning text |
| `AnalyzerFunctions.DefaultGetKeySet` | src/main/java/analyzer/AnalyzerFunction.java:30-32 | the inherited key set is empty |
| `AnalyzerFunctions.CountedRecords` | src/main/java/analyzer/AveragingFunction.java:26 | the counted records are exactly the unreversed PAYMENTs of the input, and no more of them than the input holds |
| `AnalyzerFunctions.CountedAppend` | src/main/java/analyzer/MinMaxFunction.java:49 | a record adds itself to the counted records exactly when it is an unreversed PAYMENT |
| `Averaging.ResultMap` | src/main/java/analyzer/AveragingFunction.java:43-44 | the result holds exactly the two key-set keys |
| `Averaging.SumAppend` | src/main/java/analyzer/AveragingFunction.java:28 | the running sum grows by the amount of each record added |
| `Averaging.FeedCounts` | src/main/java/analyzer/AveragingFunction.java:25-30 | counted records raise the count by their number and the sum by their amounts; no other record changes anything |
| `Averaging.FeedConcat` | src/main/java/analyzer/TransactionAnalyzer.java:66-71 | feeding one window and then another is feeding their concatenation: the accumulator carries over from one `analyze` to the next |
| `Averaging.FeedKeepsInv` | src/main/java/analyzer/AveragingFunction.java:16-17 | the count never goes negative, and the value stays 0.0 while nothing is counted |
| `Averaging.ReportedMean` | src/main/java/analyzer/AveragingFunction.java:38-46 | from a fresh function, the reported count is the number of counted records. The reported value is their mean, or 0.0 when none was counted |
| `Averaging.ReportTwice` | src/main/java/analyzer/AveragingFunction.java:40-41 | the reported average, before formatting, repeats on a second report exactly when the count is at most 1 or the value is 0 |
| `Averaging.AveragingFunction.constructor` | src/main/java/analyzer/AveragingFunction.java:16-17 | count 0, value 0.0 |
| `Averaging.AveragingFunction.Accept` | src/main/java/analyzer/AveragingFunction.java:25-30 | a counted record adds 1 to the count and its amount to the sum; any other record leaves both fields unchanged |
| `Averaging.AveragingFunction.GetResult` | src/main/java/analyzer/AveragingFunction.java:38-46 | returns the count and the formatted reported value, and leaves the quotient in place of the sum; the count is unchanged |
| `Averaging.AveragingFunction.GetKeySet` | src/main/java/analyzer/AveragingFunction.java:54-56 | `[count key, average key]`, which are the keys of every result |
| `MinMax.ResultMap` | src/main/java/analyzer/MinMaxFunction.java:23-29 | the result holds exactly the three key-set keys |
| `MinMax.StepSummarises` | src/main/java/analyzer/MinMaxFunction.java:48-58 | one counted record keeps the state an exact summary of the counted records |
| `MinMax.FeedSummarises` | src/main/java/analyzer/MinMaxFunction.java:48-58 | from a fresh function, the state exactly summarises the counted records. The count is their number. The max is at least 0.0, at least every counted amount, and is 0.0 or one of them. The min is at most every counted amount and is one of them once any is counted |
| `MinMax.ReportedBounds` | src/main/java/analyzer/MinMaxFunction.java:23-29 | the reported min is 0.0 when nothing was counted and the smallest counted amount otherwise; the reported max is the larger of 0.0 and the largest counted amount |
| `MinMax.FeedConcat` | src/main/java/analyzer/TransactionAnalyzer.java:66-71 | feeding one window and then another is feeding their concatenation |
| `MinMax.SecondWindowSummarises` | src/main/java/analyzer/MinMaxFunction.java:48-58 | after a second window, the one lifetime accumulator exactly summarises the counted records of both windows together, since getResult leaves it unchanged |
| `MinMax.FeedKeepsInv` | src/main/java/analyzer/MinMaxFunction.java:13-15 | the count stays non-negative, the max at least 0.0, and both bounds keep their initial values while nothing is counted |
| `MinMax.MinMaxFunction.constructor` | src/main/java/analyzer/MinMaxFunction.java:13-15 | min Double.MAX_VALUE, max 0.0, count 0 |
| `MinMax.MinMaxFunction.Accept` | src/main/java/analyzer/MinMaxFunction.java:48-58 | a counted record adds 1 to the count and may lower the min or raise the max; any other record changes nothing |
| `MinMax.MinMaxFunction.GetResult` | src/main/java/analyzer/MinMaxFunction.java:23-29 | the formatted min (0.0 while nothing is counted), the formatted max and the count; no field changes, so repeated calls agree |
| `MinMax.MinMaxFunction.GetKeySet` | src/main/java/analyzer/MinMaxFunction.java:37-39 | `[min key, max key, count key]`, which are the keys of every result |
| `Analyzer.Accumulator.GetKeySet` | src/main/java/analyzer/AnalyzerFunction.java:30-32 | the empty key set for an inherited implementation, otherwise the key set of the class |
| `Analyzer.FeedAppend` | src/main/java/analyzer/AnalyzerFunction.java:14 | feeding one more record is one more accept |
| `Analyzer.Accept` | src/main/java/analyzer/AnalyzerFunction.java:14 | accept moves the accumulator's state by one step |
| `Analyzer.GetResult` | src/main/java/analyzer/AnalyzerFunction.java:20-24 | the result is the report of the state before the call; only the averaging function's state changes |
| `Analyzer.AddKeepsIndex` | src/main/java/analyzer/TransactionAnalyzer.java:26-27 | after an add, every id still maps to the position of the last stored record with that id, and every stored id is indexed |
| `Analyzer.ReversalMarksTarget` | src/main/java/analyzer/TransactionAnalyzer.java:28-31 | a REVERSAL whose related id is indexed, or is its own id, marks the last record with that id. It changes no other record |
| `Analyzer.DanglingReversal` | src/main/java/analyzer/TransactionAnalyzer.java:32-35 | a REVERSAL of an unknown id only appends itself; no stored `reversed` flag changes |
| `Analyzer.SelfReversal` | src/main/java/analyzer/TransactionAnalyzer.java:27-29 | a REVERSAL naming its own id is stored already marked reversed, and the earlier records are untouched |
| `Analyzer.AddOnlySetsFlags` | src/main/java/analyzer/TransactionAnalyzer.java:24-38 | an add appends exactly one record. It changes no stored field but `reversed`, and never clears a flag |
| `Analyzer.AddIndexesRecord` | src/main/java/analyzer/TransactionAnalyzer.java:26-31 | after an add the index holds the old ids plus the new id. The new id names the new record, reversed exactly when it names itself. Every other id names its old record, marked reversed when it is the target |
| `Analyzer.SkipBefore` | src/main/java/analyzer/TransactionAnalyzer.java:61-64 | the first position at or after the start that is dated no earlier than `from` |
| `Analyzer.TakeThrough` | src/main/java/analyzer/TransactionAnalyzer.java:66-71 | the first position at or after the start that is dated later than `to` |
| `Analyzer.SkipBeforeAt` | src/main/java/analyzer/TransactionAnalyzer.java:62 | any position satisfying the skip loop's exit condition is the one `SkipBefore` gives |
| `Analyzer.TakeThroughAt` | src/main/java/analyzer/TransactionAnalyzer.java:68 | any position satisfying the accept loop's exit condition is the one `TakeThrough` gives |
| `Analyzer.InRangeAppend` | src/main/java/analyzer/TransactionAnalyzer.java:59-72 | the in-range filter distributes over concatenation |
| `Analyzer.WindowOfSorted` | src/main/java/analyzer/TransactionAnalyzer.java:59-72 | on date-ordered data the fed records are exactly those with from <= date <= to, in order: both bounds are inclusive |
| `Analyzer.WindowNotAfter` | src/main/java/analyzer/TransactionAnalyzer.java:66-71 | even on unordered data no fed record is dated after `to`, and the first one is not dated before `from` |
| `Analyzer.SkipEarlier` | src/main/java/analyzer/TransactionAnalyzer.java:59-64 | the skip loop stops at the first record not dated before `from` |
| `Analyzer.AcceptThrough` | src/main/java/analyzer/TransactionAnalyzer.java:66-71 | the accept loops feed, in order, the records from the start up to the first dated after `to` |
| `Analyzer.ErrorResult` | src/main/java/analyzer/TransactionAnalyzer.java:48-57 | an error result has the single key `ERROR`, holding the message |
| `Analyzer.RangeMessage` | src/main/java/analyzer/TransactionAnalyzer.java:53-57 | the message contains both formatted bounds |
| `Analyzer.RenderLinesAppend` | src/main/java/analyzer/TransactionAnalyzer.java:84 | the report of the keys `a + b` is the report of `a` followed by the report of `b` |
| `Analyzer.MissingLine` | src/main/java/analyzer/TransactionAnalyzer.java:84 | a key the result lacks renders as `key = null` |
| `Analyzer.ErrorRendersAsNulls` | src/main/java/analyzer/TransactionAnalyzer.java:84 | an error map renders as `key = null` lines in key-set order, for either accumulator |
| `Analyzer.AveragingReportText` | src/main/java/analyzer/TransactionAnalyzer.java:84 | the averaging report is the count line followed by the average line |
| `Analyzer.MinMaxReportText` | src/main/java/analyzer/TransactionAnalyzer.java:84 | the min/max report is the minimum line, then the maximum line, then the count line |
| `Analyzer.TransactionAnalyzer.constructor` | src/main/java/analyzer/TransactionAnalyzer.java:16-22 | the engine keeps the accumulator it is given, with an empty dataset and index |
| `Analyzer.TransactionAnalyzer.Add` | src/main/java/analyzer/TransactionAnalyzer.java:24-38 | a null record changes nothing. Otherwise the record is appended and its id maps to its position, overwriting an earlier entry. A REVERSAL's indexed target is marked, and the index invariant is kept |
| `Analyzer.TransactionAnalyzer.GetTransactionIndex` | src/main/java/analyzer/TransactionAnalyzer.java:103-105 | the index holds exactly the stored ids, and each names the last stored record with that id |
| `Analyzer.TransactionAnalyzer.Analyze` | src/main/java/analyzer/TransactionAnalyzer.java:47-74 | an empty dataset, and then an inverted range, each give an error result without touching the accumulator. Otherwise the result is the report of the accumulator after feeding it the window, and the accumulator is left in the state that report leaves |
| `Analyzer.TransactionAnalyzer.InterpretResult` | src/main/java/analyzer/TransactionAnalyzer.java:81-87 | `""` for a null or empty result. Otherwise one `key = value` line per key-set key, in key-set order. Always `""` for an accumulator with the inherited key set |
| `Analyzer.NewAnalyzer` | src/main/java/app/SimpleTransactionAnalyzer.java:100-115 | a fresh, empty engine. It holds a min/max function exactly when the name is "minmax" in any case; otherwise (including no name) an averaging function. The accumulator starts in its initial state |
| `Scenarios.AverageOfThree` | src/main/java/analyzer/AveragingFunction.java:25-30 | only the unreversed payment is counted, giving count 1 and its amount as the average |
| `Scenarios.MinMaxOfThree` | src/main/java/analyzer/MinMaxFunction.java:48-58 | the reversed payment and the REVERSAL are skipped: min = max = the one counted amount, and count 1 |
| `Scenarios.AverageAtInstant` | src/test/java/analyzer/TransactionAnalyzerTest.java:54-63 | a window that is one instant (from == to) counts both payments dated exactly then and none dated just before or after: count 2, and their mean 25 |
| `Scenarios.MinMaxAtInstant` | src/test/java/analyzer/TransactionAnalyzerTest.java:76-86 | over the same instant the min/max function reports minimum 5, maximum 45 and count 2 |
| `Scenarios.AverageBeforeAll` | src/test/java/analyzer/TransactionAnalyzerTest.java:65-74 | a window before every record reports count 0 and average 0.0 |
| `Scenarios.InvertedRange` | src/test/java/analyzer/TransactionAnalyzerTest.java:43-52 | an inverted range is the range error, and its report text holds only `null` lines |
| `Scenarios.AverageTwice` | src/main/java/analyzer/TransactionAnalyzer.java:16-22 | the same query twice counts the payment twice, because the accumulator is never reset |
| `Scenarios.AddPaymentThenReversal` | src/test/java/analyzer/TransactionAnalyzerTest.java:17-31 | a payment is marked reversed exactly when the reversal added after it names its id |
| `Scenarios.PaymentLine` | src/test/java/analyzer/TransactionAnalyzerTest.java:20 | the payment line with a trailing comma parses to a payment with no related id |
| `Scenarios.ReversalLine` | src/test/java/analyzer/TransactionAnalyzerTest.java:21 | the reversal line parses to a REVERSAL of the named id |

## Left out

- The command-line front end (`app.SimpleTransactionAnalyzer`) is not modelled:
  option parsing, file reading, printing and exiting. Only its factory
  `getAnalyzer` is modelled, as `Analyzer.NewAnalyzer`.
- `SimpleDateFormat`, `Double.parseDouble` and `String.format` are opaque
  functions in `Model.Formats`, because their behaviour is library and locale
  detail. The fixed strings such as `"32.50"` and `"36.19"` are therefore not
  derived.
- Averaging.AveragingFunction.Accept: the count is an unbounded integer, so the
  32-bit `int` wrap-around after 2^31 - 1 counted records is not modelled. The
  running sum is an exact rational, so double rounding, overflow to infinity and
  NaN are not modelled either: floating point is outside the model.
- Averaging.AveragingFunction.GetResult: the quotient is exact, with no double
  rounding.
- Averaging.ReportTwice: speaks of the number before `String.format("%1$,.2f")`.
  Two different averages can format to the same text (0.002 and 0.001 both give
  "0.00"), so two report texts may still be equal where the numbers differ.
- MinMax.MinMaxFunction.Accept: the count is an unbounded integer, for the same
  reason as above. Amounts are compared exactly, and NaN is not modelled.
- The `[WARN]` console message `add` prints for a dangling reversal is console
  output. Only its effect is modelled: nothing is marked.
- `TransactionRecord.toString` is display formatting only.
- Setters other than `setReversed` are used only while `of` builds a record.
  They are folded into the record value `of` returns.
- A record with a null id, and `HashMap`'s null key, are not modelled. Ids are
  always strings.
- Aliasing is not modelled. A record object shared between the list, the map
  and the caller is modelled as positions into one sequence. A caller that keeps
  a record and changes it after `add` is outside the model.
- The `accept` of an implementation other than the two shipped classes is not
  modelled, because its code is not part of the repository. `DefaultFn` accepts
  without changing state.
- `String.toLowerCase` is modelled on ASCII letters only. The header and factory
  tests compare only with the ASCII words `id`, `date` and `minmax`.
- The default locale is assumed to lowercase `I` to `i`. Under a Turkish locale,
  `toLowerCase` turns `"ID"` into `"ıd"`, so the line is not taken as a header,
  and `"MINMAX"` into `"mınmax"`, so the averaging function is chosen. The model
  does not capture that.
- The regular expression engine is not modelled. `split(" *, *")` is modelled by
  what it does on these lines: cut at commas, trim adjacent spaces, drop trailing
  empty tokens.
- The scan of `analyze` is split into the two methods `Analyzer.SkipEarlier` and
  `Analyzer.AcceptThrough`. Its loops and their order are kept.
- `Analyzer.TransactionAnalyzer.GetDataSet` returns the dataset and states
  nothing beyond that.
- The file-based tests (`analyze`, `analyzeIdenticalDates`, `minmaxRange` and
  `analyzeNotMatchingRange`) need data files that are not part of this
  repository. The scenarios restate their situations on explicit records: the
  single-instant window of `analyzeIdenticalDates` and `minmaxRange`, and the
  empty window of `analyzeDefaultRange`. The counts and amounts are their own.
