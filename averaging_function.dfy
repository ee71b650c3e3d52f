/**
 * The "Average Transaction Value" accumulator (analyzer.AveragingFunction).
 * Its state is the count of counted records and one real field that holds the
 * running sum while records arrive and the quotient once getResult has run.
 */
module Averaging {
  import opened Model
  import opened AnalyzerFunctions

  const COUNT_KEY: string := "Number of Transactions"
  const AVERAGE_KEY: string := "Average Transaction Value"
  const KEY_SET: seq<string> := [COUNT_KEY, AVERAGE_KEY]

  /** The two fields: m_transactionCount and m_averageValue. */
  datatype AvgState = AvgState(count: int, value: real)

  const INITIAL: AvgState := AvgState(0, 0.0)

  /** What every reachable state satisfies: no count, no value. */
  ghost predicate Inv(s: AvgState) {
    s.count >= 0 && (s.count == 0 ==> s.value == 0.0)
  }

  /** accept: a counted record adds one to the count and its amount to the value. */
  function Step(s: AvgState, r: Record): AvgState {
    if Counted(r) then AvgState(s.count + 1, s.value + r.amount) else s
  }

  /** The state after accepting `rs` in order, starting from `s`. */
  function Feed(s: AvgState, rs: seq<Record>): AvgState {
    if rs == [] then s else Step(Feed(s, rs[..|rs| - 1]), rs[|rs| - 1])
  }

  /** The sum of the amounts of `rs`. */
  function Sum(rs: seq<Record>): real {
    if rs == [] then 0.0 else Sum(rs[..|rs| - 1]) + rs[|rs| - 1].amount
  }

  /** The number getResult formats: value / count when something was counted, else the value itself. */
  function Reported(s: AvgState): real {
    if s.count > 0 then s.value / s.count as real else s.value
  }

  /** The state getResult leaves behind: the value field overwritten with the quotient. */
  function AfterResult(s: AvgState): AvgState {
    AvgState(s.count, Reported(s))
  }

  /** The map getResult returns: the count, and the formatted reported value. */
  function ResultMap(s: AvgState, f: Formats): (r: Result)
    ensures r.Keys == set k | k in KEY_SET
  {
    map[COUNT_KEY := IntValue(s.count), AVERAGE_KEY := TextValue(f.formatAmount(Reported(s)))]
  }

  lemma {:induction false} SumAppend(rs: seq<Record>, r: Record)
    ensures Sum(rs + [r]) == Sum(rs) + r.amount
  {
    assert (rs + [r])[..|rs|] == rs;
  }

  /**
   * Accepting `rs` adds the number of counted records to the count and the sum
   * of their amounts to the value; other records change nothing.
   */
  lemma {:induction false} FeedCounts(s: AvgState, rs: seq<Record>)
    ensures Feed(s, rs).count == s.count + |CountedRecords(rs)|
    ensures Feed(s, rs).value == s.value + Sum(CountedRecords(rs))
  {
    if rs != [] {
      var init, last := rs[..|rs| - 1], rs[|rs| - 1];
      assert rs == init + [last];
      FeedCounts(s, init);
      CountedAppend(init, last);
      if Counted(last) {
        SumAppend(CountedRecords(init), last);
        assert CountedRecords(rs) == CountedRecords(init) + [last];
        assert Feed(s, rs).value == Feed(s, init).value + last.amount;
      } else {
        assert CountedRecords(rs) == CountedRecords(init);
      }
    }
  }

  /** Feeding `a` and then `b` is feeding `a + b`. */
  lemma {:induction false} FeedConcat(s: AvgState, a: seq<Record>, b: seq<Record>)
    ensures Feed(Feed(s, a), b) == Feed(s, a + b)
  {
    if b == [] {
      assert a + b == a;
    } else {
      var init := b[..|b| - 1];
      assert (a + b)[..|a + b| - 1] == a + init;
      assert (a + b)[|a + b| - 1] == b[|b| - 1];
      FeedConcat(s, a, init);
    }
  }

  lemma {:induction false} FeedKeepsInv(s: AvgState, rs: seq<Record>)
    requires Inv(s)
    ensures Inv(Feed(s, rs))
  {
    if rs != [] {
      FeedKeepsInv(s, rs[..|rs| - 1]);
    }
  }

  /**
   * From a fresh accumulator, getResult reports the number of counted records
   * and their mean, or 0.0 when none was counted.
   */
  lemma ReportedMean(rs: seq<Record>)
    ensures Feed(INITIAL, rs).count == |CountedRecords(rs)|
    ensures |CountedRecords(rs)| > 0 ==>
      Reported(Feed(INITIAL, rs)) == Sum(CountedRecords(rs)) / |CountedRecords(rs)| as real
    ensures |CountedRecords(rs)| == 0 ==> Reported(Feed(INITIAL, rs)) == 0.0
  {
    FeedCounts(INITIAL, rs);
  }

  /**
   * getResult is not idempotent: a second call reports the same number only
   * when at most one record was counted or the value is zero.
   */
  lemma ReportTwice(s: AvgState)
    requires Inv(s)
    ensures Reported(AfterResult(s)) == Reported(s) <==> s.count <= 1 || s.value == 0.0
  {
    if s.count > 1 {
      var c := s.count as real;
      var a := s.value / c;
      assert Reported(AfterResult(s)) == a / c;
      if a / c == a {
        assert a == (a / c) * c;
        assert (a / c) * c == a * c;
        assert a * (c - 1.0) == 0.0;
        assert a == (a * (c - 1.0)) / (c - 1.0);
        assert s.value == a * c;
      }
      if s.value == 0.0 {
        assert a == 0.0;
      }
    } else if s.count == 1 {
      assert Reported(s) == s.value;
    }
  }

  class AveragingFunction {
    var transactionCount: int
    var averageValue: real

    function Current(): AvgState
      reads this
    {
      AvgState(transactionCount, averageValue)
    }

    ghost predicate Valid()
      reads this
    {
      Inv(Current())
    }

    constructor ()
      ensures Valid() && Current() == INITIAL
    {
      transactionCount, averageValue := 0, 0.0;
    }

    /** Counts a payment that is not reversed; ignores every other record. */
    method Accept(r: Record)
      requires Valid()
      modifies this
      ensures Valid() && Current() == Step(old(Current()), r)
      ensures Counted(r) ==>
        transactionCount == old(transactionCount) + 1 && averageValue == old(averageValue) + r.amount
      ensures !Counted(r) ==>
        transactionCount == old(transactionCount) && averageValue == old(averageValue)
    {
      if !r.reversed && r.kind == PAYMENT {
        transactionCount := transactionCount + 1;
        averageValue := averageValue + r.amount;
      }
    }

    /** Reports count and average, and overwrites the running sum with the average. */
    method GetResult(f: Formats) returns (result: Result)
      requires Valid()
      modifies this
      ensures Valid()
      ensures result == ResultMap(old(Current()), f)
      ensures Current() == AfterResult(old(Current()))
      ensures transactionCount == old(transactionCount)
    {
      if transactionCount > 0 {
        averageValue := averageValue / transactionCount as real;
      }
      result := map[COUNT_KEY := IntValue(transactionCount), AVERAGE_KEY := TextValue(f.formatAmount(averageValue))];
    }

    /** The display order: the count first, then the average; the keys of every result. */
    function GetKeySet(): (keys: seq<string>)
      ensures keys == KEY_SET
      ensures forall s: AvgState, f: Formats {:trigger ResultMap(s, f)} :: (set k | k in keys) == ResultMap(s, f).Keys
    {
      KEY_SET
    }
  }
}
