/**
 * The minimum/maximum accumulator (analyzer.MinMaxFunction). Its state is the
 * smallest and largest counted amount seen so far, starting at Double.MAX_VALUE
 * and 0.0, and the number of counted records.
 */
module MinMax {
  import opened Model
  import opened AnalyzerFunctions

  const MIN_KEY: string := "Minimal Amount"
  const MAX_KEY: string := "Maximal Amount"
  const COUNT_KEY: string := "Number of Transactions"
  const KEY_SET: seq<string> := [MIN_KEY, MAX_KEY, COUNT_KEY]

  /** The three fields: m_minAmount, m_maxAmount and m_transactionCount. */
  datatype MinMaxState = MinMaxState(min: real, max: real, count: int)

  const INITIAL: MinMaxState := MinMaxState(DOUBLE_MAX, 0.0, 0)

  /** What every reachable state satisfies. */
  ghost predicate Inv(s: MinMaxState) {
    s.count >= 0 && s.max >= 0.0 && (s.count == 0 ==> s.min == DOUBLE_MAX && s.max == 0.0)
  }

  /** accept: a counted record is counted and may lower the minimum or raise the maximum. */
  function Step(s: MinMaxState, r: Record): MinMaxState {
    if Counted(r) then
      MinMaxState(
        if r.amount < s.min then r.amount else s.min,
        if r.amount > s.max then r.amount else s.max,
        s.count + 1)
    else s
  }

  /** The state after accepting `rs` in order, starting from `s`. */
  function Feed(s: MinMaxState, rs: seq<Record>): MinMaxState {
    if rs == [] then s else Step(Feed(s, rs[..|rs| - 1]), rs[|rs| - 1])
  }

  /** The minimum getResult formats: 0.0 while nothing is counted. */
  function ReportedMin(s: MinMaxState): real {
    if s.count > 0 then s.min else 0.0
  }

  /** The map getResult returns. */
  function ResultMap(s: MinMaxState, f: Formats): (r: Result)
    ensures r.Keys == set k | k in KEY_SET
  {
    map[MIN_KEY := TextValue(f.formatAmount(ReportedMin(s))),
        MAX_KEY := TextValue(f.formatAmount(s.max)),
        COUNT_KEY := IntValue(s.count)]
  }

  /**
   * How a state relates to the records `c` it has counted: the count is their
   * number, the maximum is at least 0.0 and at least each amount and is 0.0 or
   * one of them; once something is counted the minimum is at most each amount
   * and is one of them.
   */
  ghost predicate Summarises(s: MinMaxState, c: seq<Record>) {
    && s.count == |c|
    && s.max >= 0.0
    && (forall i :: 0 <= i < |c| ==> c[i].amount <= s.max)
    && (s.max == 0.0 || exists i :: 0 <= i < |c| && c[i].amount == s.max)
    && (|c| == 0 ==> s.min == DOUBLE_MAX)
    && (forall i :: 0 <= i < |c| ==> s.min <= c[i].amount)
    && (|c| > 0 ==> exists i :: 0 <= i < |c| && c[i].amount == s.min)
  }

  lemma {:induction false} StepSummarises(s: MinMaxState, c: seq<Record>, r: Record)
    requires Summarises(s, c) && Counted(r)
    ensures Summarises(Step(s, r), c + [r])
  {
    var t, c' := Step(s, r), c + [r];
    assert c'[|c|] == r;
    assert forall i :: 0 <= i < |c| ==> c'[i] == c[i];
    if t.max != 0.0 {
      if r.amount > s.max {
        assert c'[|c|].amount == t.max;
      } else {
        var i :| 0 <= i < |c| && c[i].amount == s.max;
        assert c'[i].amount == t.max;
      }
    }
    if r.amount < s.min || |c| == 0 {
      assert c'[|c|].amount == t.min;
    } else {
      var i :| 0 <= i < |c| && c[i].amount == s.min;
      assert c'[i].amount == t.min;
    }
  }

  /** From a fresh accumulator, the state summarises exactly the counted records accepted. */
  lemma {:induction false} FeedSummarises(rs: seq<Record>)
    ensures Summarises(Feed(INITIAL, rs), CountedRecords(rs))
  {
    if rs != [] {
      var init, last := rs[..|rs| - 1], rs[|rs| - 1];
      assert rs == init + [last];
      FeedSummarises(init);
      CountedAppend(init, last);
      if Counted(last) {
        StepSummarises(Feed(INITIAL, init), CountedRecords(init), last);
      } else {
        assert CountedRecords(rs) == CountedRecords(init);
      }
    }
  }

  /**
   * The reported minimum: 0.0 when nothing was counted, otherwise the smallest
   * counted amount. The reported maximum is max(0.0, largest counted amount).
   */
  lemma ReportedBounds(rs: seq<Record>)
    ensures var s, c := Feed(INITIAL, rs), CountedRecords(rs);
      && s.count == |c|
      && (|c| == 0 ==> ReportedMin(s) == 0.0 && s.max == 0.0)
      && (|c| > 0 ==> (forall i :: 0 <= i < |c| ==> ReportedMin(s) <= c[i].amount)
                      && exists i :: 0 <= i < |c| && c[i].amount == ReportedMin(s))
      && (forall i :: 0 <= i < |c| ==> c[i].amount <= s.max)
      && s.max >= 0.0
      && (s.max == 0.0 || exists i :: 0 <= i < |c| && c[i].amount == s.max)
  {
    FeedSummarises(rs);
  }

  /** Feeding `a` and then `b` is feeding `a + b`. */
  lemma {:induction false} FeedConcat(s: MinMaxState, a: seq<Record>, b: seq<Record>)
    ensures Feed(Feed(s, a), b) == Feed(s, a + b)
  {
    if b == [] {
      assert a + b == a;
    } else {
      var init := b[..|b| - 1];
      assert (a + b)[..|a + b| - 1] == a + init;
      assert (a + b)[|a + b| - 1] == b[|b| - 1];
      FeedConcat(s, a, init);
    }
  }

  /**
   * getResult leaves the state alone, so after two analyze calls the one
   * lifetime accumulator summarises the counted records of both windows.
   */
  lemma SecondWindowSummarises(a: seq<Record>, b: seq<Record>)
    ensures Summarises(Feed(Feed(INITIAL, a), b), CountedRecords(a + b))
  {
    FeedConcat(INITIAL, a, b);
    FeedSummarises(a + b);
  }

  lemma {:induction false} FeedKeepsInv(s: MinMaxState, rs: seq<Record>)
    requires Inv(s)
    ensures Inv(Feed(s, rs))
  {
    if rs != [] {
      FeedKeepsInv(s, rs[..|rs| - 1]);
    }
  }

  class MinMaxFunction {
    var minAmount: real
    var maxAmount: real
    var transactionCount: int

    function Current(): MinMaxState
      reads this
    {
      MinMaxState(minAmount, maxAmount, transactionCount)
    }

    ghost predicate Valid()
      reads this
    {
      Inv(Current())
    }

    constructor ()
      ensures Valid() && Current() == INITIAL
    {
      minAmount, maxAmount, transactionCount := DOUBLE_MAX, 0.0, 0;
    }

    /** Counts a payment that is not reversed and updates the bounds; ignores every other record. */
    method Accept(r: Record)
      requires Valid()
      modifies this
      ensures Valid() && Current() == Step(old(Current()), r)
      ensures !Counted(r) ==> Current() == old(Current())
      ensures Counted(r) ==> transactionCount == old(transactionCount) + 1
    {
      if !r.reversed && r.kind == PAYMENT {
        transactionCount := transactionCount + 1;
        if r.amount > maxAmount {
          maxAmount := r.amount;
        }
        if r.amount < minAmount {
          minAmount := r.amount;
        }
      }
    }

    /** Reports the bounds and the count; changes nothing, so repeated calls agree. */
    method GetResult(f: Formats) returns (result: Result)
      ensures result == ResultMap(Current(), f)
      ensures result[MIN_KEY] == TextValue(f.formatAmount(if transactionCount > 0 then minAmount else 0.0))
      ensures result[MAX_KEY] == TextValue(f.formatAmount(maxAmount))
      ensures result[COUNT_KEY] == IntValue(transactionCount)
    {
      result := map[];
      result := result[MIN_KEY := TextValue(f.formatAmount(if transactionCount > 0 then minAmount else 0.0))];
      result := result[MAX_KEY := TextValue(f.formatAmount(maxAmount))];
      result := result[COUNT_KEY := IntValue(transactionCount)];
    }

    /** The display order: minimum, maximum, count; the keys of every result. */
    function GetKeySet(): (keys: seq<string>)
      ensures keys == KEY_SET
      ensures forall s: MinMaxState, f: Formats {:trigger ResultMap(s, f)} :: (set k | k in keys) == ResultMap(s, f).Keys
    {
      KEY_SET
    }
  }
}
