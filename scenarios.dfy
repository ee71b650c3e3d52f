/**
 * Worked runs of the engine on explicit records: the reversal-excluding count,
 * a window that is a single instant, an inverted range, a repeated query and
 * the add-with-reversal cases, each stated as what the run returns.
 */
module Scenarios {
  import opened Wrappers
  import opened Model
  import opened AnalyzerFunctions
  import Averaging
  import MinMax
  import opened Analyzer

  /** 10:00, 10:05 and 10:10 of 1 January 1970, in milliseconds. */
  const AT_1000: Long := 36_000_000
  const AT_1005: Long := 36_300_000
  const AT_1010: Long := 36_600_000

  const A: Record := Record("A", AT_1000, 100.0, "Kwik-E-Mart", PAYMENT, None, false)
  const B: Record := Record("B", AT_1005, 50.0, "Kwik-E-Mart", PAYMENT, None, false)
  const C: Record := Record("C", AT_1010, 100.0, "Kwik-E-Mart", REVERSAL, Some("A"), false)

  /** The dataset after adding A, B and C. */
  const STORED: seq<Record> := [A.(reversed := true), B, C]

  /** Adding A and B stores them as they are; adding C then marks A. */
  lemma AddedThree()
    ensures AddedRecords([], map[], A) == [A]
    ensures AddedRecords([A], map["A" := 0], B) == [A, B]
    ensures AddedRecords([A, B], map["A" := 0, "B" := 1], C) == STORED
  {
    assert ReversalTarget(C, map["A" := 0, "B" := 1, "C" := 2]) == Some(0);
    assert map["A" := 0, "B" := 1][C.id := 2] == map["A" := 0, "B" := 1, "C" := 2];
  }

  /** A fresh engine of the named kind holding A, B and C. */
  method ThreeRecordEngine(analysisType: Option<string>) returns (analyzer: TransactionAnalyzer)
    ensures fresh(analyzer) && fresh(analyzer.fn.Repr())
    ensures analyzer.Valid() && analyzer.dataSet == STORED
    ensures analyzer.fn.MinMaxFn? <==> analysisType.Some? && LowerAscii(analysisType.value) == "minmax"
    ensures analyzer.fn.MinMaxFn? ==> analyzer.fn.State() == OfMinMax(MinMax.INITIAL)
    ensures !analyzer.fn.MinMaxFn? ==> analyzer.fn.State() == OfAveraging(Averaging.INITIAL)
  {
    analyzer := NewAnalyzer(analysisType);
    AddedThree();
    analyzer.Add(Some(A));
    analyzer.Add(Some(B));
    assert analyzer.dataSet == [A, B];
    assert analyzer.index == map["A" := 0, "B" := 1];
    analyzer.Add(Some(C));
  }

  lemma ThreeWindow()
    ensures Window(STORED, AT_1000, AT_1010) == STORED
    ensures Window(STORED, 0, 1000) == []
  {
    assert SkipBefore(STORED, AT_1000, 0) == 0;
    TakeThroughAt(STORED, AT_1010, 0, 3);
    assert SkipBefore(STORED, 0, 0) == 0;
    assert TakeThrough(STORED, 1000, 0) == 0;
  }

  lemma FeedThree(s: AccState, x: Record, y: Record, z: Record)
    ensures Feed(s, [x, y, z]) == Step(Step(Step(s, x), y), z)
  {
    FeedAppend(s, [], x);
    FeedAppend(s, [x], y);
    FeedAppend(s, [x, y], z);
    assert [] + [x] == [x] && [x] + [y] == [x, y] && [x, y] + [z] == [x, y, z];
  }

  /** Only B is counted: the averaging and min/max states after the three records. */
  lemma FedStates()
    ensures Feed(OfAveraging(Averaging.INITIAL), STORED) == OfAveraging(Averaging.AvgState(1, 50.0))
    ensures Feed(OfAveraging(Averaging.AvgState(1, 50.0)), STORED) == OfAveraging(Averaging.AvgState(2, 100.0))
    ensures Feed(OfMinMax(MinMax.INITIAL), STORED) == OfMinMax(MinMax.MinMaxState(50.0, 50.0, 1))
    ensures AfterReport(OfAveraging(Averaging.AvgState(1, 50.0))) == OfAveraging(Averaging.AvgState(1, 50.0))
    ensures Averaging.Reported(Averaging.AvgState(2, 100.0)) == 50.0
  {
    FeedThree(OfAveraging(Averaging.INITIAL), A.(reversed := true), B, C);
    FeedThree(OfAveraging(Averaging.AvgState(1, 50.0)), A.(reversed := true), B, C);
    FeedThree(OfMinMax(MinMax.INITIAL), A.(reversed := true), B, C);
  }

  /** Averaging over [10:00, 10:10]: the reversed A is not counted, B is, C is a REVERSAL. */
  method AverageOfThree(f: Formats) returns (result: Result)
    ensures result == Averaging.ResultMap(Averaging.AvgState(1, 50.0), f)
    ensures result[Averaging.COUNT_KEY] == IntValue(1)
    ensures result[Averaging.AVERAGE_KEY] == TextValue(f.formatAmount(50.0))
  {
    var analyzer := ThreeRecordEngine(None);
    ThreeWindow();
    FedStates();
    result := analyzer.Analyze(AT_1000, AT_1010, f);
  }

  /** Min/max over the same window: only B is counted. */
  method MinMaxOfThree(f: Formats) returns (result: Result)
    ensures result == MinMax.ResultMap(MinMax.MinMaxState(50.0, 50.0, 1), f)
    ensures result[MinMax.MIN_KEY] == TextValue(f.formatAmount(50.0))
    ensures result[MinMax.MAX_KEY] == TextValue(f.formatAmount(50.0))
    ensures result[MinMax.COUNT_KEY] == IntValue(1)
  {
    assert LowerAscii("MinMax") == "minmax";
    var analyzer := ThreeRecordEngine(Some("MinMax"));
    ThreeWindow();
    FedStates();
    result := analyzer.Analyze(AT_1000, AT_1010, f);
  }

  /** A window before every record: nothing is counted, and the average reported is 0.0. */
  method AverageBeforeAll(f: Formats) returns (result: Result)
    ensures result == Averaging.ResultMap(Averaging.INITIAL, f)
    ensures result[Averaging.COUNT_KEY] == IntValue(0)
    ensures result[Averaging.AVERAGE_KEY] == TextValue(f.formatAmount(0.0))
  {
    var analyzer := ThreeRecordEngine(None);
    ThreeWindow();
    result := analyzer.Analyze(0, 1000, f);
  }

  /** An inverted range is an error naming both bounds; the report text shows only nulls. */
  method InvertedRange(f: Formats) returns (result: Result, text: string)
    ensures result == ErrorResult(RangeMessage(f, AT_1010, AT_1000))
    ensures text == (Averaging.COUNT_KEY + " = null\n") + (Averaging.AVERAGE_KEY + " = null\n")
  {
    var analyzer := ThreeRecordEngine(None);
    result := analyzer.Analyze(AT_1010, AT_1000, f);
    text := analyzer.InterpretResult(Some(result));
    ErrorRendersAsNulls(RangeMessage(f, AT_1010, AT_1000));
  }

  /** The same query twice: the accumulator is never reset, so B is counted twice. */
  method AverageTwice(f: Formats) returns (first: Result, second: Result)
    ensures first == Averaging.ResultMap(Averaging.AvgState(1, 50.0), f)
    ensures second == Averaging.ResultMap(Averaging.AvgState(2, 100.0), f)
    ensures second[Averaging.COUNT_KEY] == IntValue(2)
    ensures second[Averaging.AVERAGE_KEY] == TextValue(f.formatAmount(50.0))
  {
    var analyzer := ThreeRecordEngine(None);
    ThreeWindow();
    FedStates();
    first := analyzer.Analyze(AT_1000, AT_1010, f);
    second := analyzer.Analyze(AT_1000, AT_1010, f);
  }

  /**
   * Four payments: two at 10:05 with different amounts, and one just before
   * and one just after that instant.
   */
  const E: Record := Record("E", AT_1005 - 1000, 1000.0, "Kwik-E-Mart", PAYMENT, None, false)
  const F: Record := Record("F", AT_1005, 5.0, "Kwik-E-Mart", PAYMENT, None, false)
  const G: Record := Record("G", AT_1005, 45.0, "Kwik-E-Mart", PAYMENT, None, false)
  const H: Record := Record("H", AT_1005 + 1000, 1000.0, "Kwik-E-Mart", PAYMENT, None, false)
  const INSTANT: seq<Record> := [E, F, G, H]

  /** Adding a record that is not a REVERSAL only appends it. */
  lemma AddedPayment(ds: seq<Record>, ix: map<string, nat>, r: Record)
    requires r.kind != REVERSAL
    ensures AddedRecords(ds, ix, r) == ds + [r]
  {
  }

  /** Adds a record that is not a REVERSAL: it is appended and the accumulator is untouched. */
  method AddPayment(analyzer: TransactionAnalyzer, r: Record)
    requires analyzer.Valid() && r.kind != REVERSAL
    modifies analyzer
    ensures analyzer.Valid() && analyzer.dataSet == old(analyzer.dataSet) + [r]
    ensures analyzer.fn.State() == old(analyzer.fn.State())
  {
    AddedPayment(analyzer.dataSet, analyzer.index, r);
    analyzer.Add(Some(r));
  }

  /** A fresh engine of the named kind holding E, F, G and H. */
  method InstantEngine(analysisType: Option<string>) returns (analyzer: TransactionAnalyzer)
    ensures fresh(analyzer) && fresh(analyzer.fn.Repr())
    ensures analyzer.Valid() && analyzer.dataSet == INSTANT
    ensures analyzer.fn.MinMaxFn? <==> analysisType.Some? && LowerAscii(analysisType.value) == "minmax"
    ensures analyzer.fn.MinMaxFn? ==> analyzer.fn.State() == OfMinMax(MinMax.INITIAL)
    ensures !analyzer.fn.MinMaxFn? ==> analyzer.fn.State() == OfAveraging(Averaging.INITIAL)
  {
    analyzer := NewAnalyzer(analysisType);
    AddPayment(analyzer, E);
    assert analyzer.dataSet == [E];
    AddPayment(analyzer, F);
    assert analyzer.dataSet == [E, F];
    AddPayment(analyzer, G);
    assert analyzer.dataSet == [E, F, G];
    AddPayment(analyzer, H);
  }

  /** The window [10:05, 10:05] holds exactly the two records dated at that instant. */
  lemma InstantWindow()
    ensures Window(INSTANT, AT_1005, AT_1005) == [F, G]
  {
    SkipBeforeAt(INSTANT, AT_1005, 0, 1);
    TakeThroughAt(INSTANT, AT_1005, 1, 3);
    assert INSTANT[1..3] == [F, G];
  }

  lemma FeedTwo(s: AccState, x: Record, y: Record)
    ensures Feed(s, [x, y]) == Step(Step(s, x), y)
  {
    FeedAppend(s, [], x);
    FeedAppend(s, [x], y);
    assert [] + [x] == [x] && [x] + [y] == [x, y];
  }

  /** Both records at the instant are counted: the averaging and min/max states after them. */
  lemma InstantStates(f: Formats)
    ensures Feed(OfAveraging(Averaging.INITIAL), [F, G]) == OfAveraging(Averaging.AvgState(2, 50.0))
    ensures Averaging.Reported(Averaging.AvgState(2, 50.0)) == 25.0
    ensures Feed(OfMinMax(MinMax.INITIAL), [F, G]) == OfMinMax(MinMax.MinMaxState(5.0, 45.0, 2))
    ensures var m := MinMax.ResultMap(MinMax.MinMaxState(5.0, 45.0, 2), f);
      && m[MinMax.MIN_KEY] == TextValue(f.formatAmount(5.0))
      && m[MinMax.MAX_KEY] == TextValue(f.formatAmount(45.0))
      && m[MinMax.COUNT_KEY] == IntValue(2)
  {
    FeedTwo(OfAveraging(Averaging.INITIAL), F, G);
    FeedTwo(OfMinMax(MinMax.INITIAL), F, G);
  }

  /** Averaging over the single instant 10:05: both records there are counted, the mean is 25. */
  method AverageAtInstant(f: Formats) returns (result: Result)
    ensures result == Averaging.ResultMap(Averaging.AvgState(2, 50.0), f)
    ensures result[Averaging.COUNT_KEY] == IntValue(2)
    ensures result[Averaging.AVERAGE_KEY] == TextValue(f.formatAmount(25.0))
  {
    var analyzer := InstantEngine(None);
    InstantWindow();
    InstantStates(f);
    result := analyzer.Analyze(AT_1005, AT_1005, f);
  }

  /** Min/max over the single instant 10:05: minimum 5, maximum 45, count 2. */
  method MinMaxAtInstant(f: Formats) returns (result: Result)
    ensures result == MinMax.ResultMap(MinMax.MinMaxState(5.0, 45.0, 2), f)
    ensures result[MinMax.MIN_KEY] == TextValue(f.formatAmount(5.0))
    ensures result[MinMax.MAX_KEY] == TextValue(f.formatAmount(45.0))
    ensures result[MinMax.COUNT_KEY] == IntValue(2)
  {
    assert LowerAscii("MinMax") == "minmax";
    var analyzer := InstantEngine(Some("MinMax"));
    InstantWindow();
    InstantStates(f);
    result := analyzer.Analyze(AT_1005, AT_1005, f);
  }

  const PAYMENT_FIELDS: seq<string> := ["ABCDEF", "20/08/2018 12:46:17", "10.95", "Kwik-E-Mart", "PAYMENT"]

  /** The fields of a reversal of `related`. */
  function ReversalFields(related: string): seq<string> {
    ["AKNBVHMN", "20/08/2018 13:14:11", "10.95", "Kwik-E-Mart", "REVERSAL", related]
  }

  /** The payment line, trailing comma included, parses to a payment with no related id. */
  lemma PaymentLine(f: Formats)
    ensures var o := Of(Some(CsvLine(PAYMENT_FIELDS, true)), f);
      o.Parsed? && o.record.id == "ABCDEF" && o.record.kind == PAYMENT && o.record.relatedTransaction.None?
  {
    assert LowerAscii(PAYMENT_FIELDS[0]) != "id" by {
      assert |LowerAscii(PAYMENT_FIELDS[0])| == 6;
    }
    assert LowerAscii(PAYMENT_FIELDS[1]) != "date" by {
      assert |LowerAscii(PAYMENT_FIELDS[1])| == 19;
    }
    assert ValueOf("PAYMENT") == Some(PAYMENT);
    OfCsvLine(PAYMENT_FIELDS, true, f);
  }

  /** The reversal line parses to a REVERSAL of `related`. */
  lemma ReversalLine(related: string, f: Formats)
    requires PlainField(related) && related != ""
    ensures var o := Of(Some(CsvLine(ReversalFields(related), false)), f);
      o.Parsed? && o.record.id == "AKNBVHMN" && o.record.kind == REVERSAL
      && o.record.relatedTransaction == Some(related)
  {
    var fields := ReversalFields(related);
    assert LowerAscii(fields[0]) != "id" by {
      assert |LowerAscii(fields[0])| == 8;
    }
    assert LowerAscii(fields[1]) != "date" by {
      assert |LowerAscii(fields[1])| == 19;
    }
    assert ValueOf("REVERSAL") == Some(REVERSAL);
    OfCsvLine(fields, false, f);
  }

  /**
   * Adds a payment with id ABCDEF and then a reversal naming `related` (records
   * with the ids and kinds of the two lines above, written out directly);
   * returns whether the payment ended up reversed.
   */
  method AddPaymentThenReversal(related: string) returns (reversed: bool)
    ensures reversed <==> related == "ABCDEF"
  {
    var analyzer := NewAnalyzer(None);
    var payment := Record("ABCDEF", 0, 10.95, "Kwik-E-Mart", PAYMENT, None, false);
    var reversal := Record("AKNBVHMN", 0, 10.95, "Kwik-E-Mart", REVERSAL, Some(related), false);
    analyzer.Add(Some(payment));
    analyzer.Add(Some(reversal));
    reversed := analyzer.GetDataSet()[0].reversed;
  }
}
