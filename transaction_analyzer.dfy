/**
 * The analysis engine (analyzer.TransactionAnalyzer): the ordered dataset, the
 * id index into it, reversal resolution on `add`, the windowed scan of
 * `analyze` and the report text of `interpretResult`.
 */
module Analyzer {
  import opened Wrappers
  import opened Model
  import opened AnalyzerFunctions
  import Averaging
  import MinMax

  // ---------------------------------------------------------------------------
  // The accumulator an engine is built with
  // ---------------------------------------------------------------------------

  /**
   * An AnalyzerFunction<TransactionRecord>: one of the two shipped classes, or
   * an implementation (a lambda, say) that inherits the default getResult and
   * getKeySet. What such an implementation's own accept does is not modelled.
   */
  datatype Accumulator =
    | AveragingFn(avg: Averaging.AveragingFunction)
    | MinMaxFn(minMax: MinMax.MinMaxFunction)
    | DefaultFn
  {
    /** The objects whose fields make up the accumulator's state. */
    function Repr(): set<object> {
      match this
      case AveragingFn(a) => {a}
      case MinMaxFn(m) => {m}
      case DefaultFn => {}
    }

    ghost predicate Valid()
      reads Repr()
    {
      match this
      case AveragingFn(a) => a.Valid()
      case MinMaxFn(m) => m.Valid()
      case DefaultFn => true
    }

    function State(): AccState
      reads Repr()
    {
      match this
      case AveragingFn(a) => OfAveraging(a.Current())
      case MinMaxFn(m) => OfMinMax(m.Current())
      case DefaultFn => OfDefault
    }

    /** getKeySet: the display order of the result keys. */
    function GetKeySet(): (keys: seq<string>)
      ensures DefaultFn? ==> keys == []
      ensures AveragingFn? ==> keys == Averaging.KEY_SET
      ensures MinMaxFn? ==> keys == MinMax.KEY_SET
    {
      match this
      case AveragingFn(a) => a.GetKeySet()
      case MinMaxFn(m) => m.GetKeySet()
      case DefaultFn => DefaultGetKeySet()
    }
  }

  /** The state of an accumulator, as a value. */
  datatype AccState = OfAveraging(avg: Averaging.AvgState) | OfMinMax(minMax: MinMax.MinMaxState) | OfDefault

  /** accept, on the state. */
  function Step(s: AccState, r: Record): AccState {
    match s
    case OfAveraging(a) => OfAveraging(Averaging.Step(a, r))
    case OfMinMax(m) => OfMinMax(MinMax.Step(m, r))
    case OfDefault => OfDefault
  }

  /** The state after accepting `rs` in order. */
  function Feed(s: AccState, rs: seq<Record>): AccState {
    match s
    case OfAveraging(a) => OfAveraging(Averaging.Feed(a, rs))
    case OfMinMax(m) => OfMinMax(MinMax.Feed(m, rs))
    case OfDefault => OfDefault
  }

  lemma FeedAppend(s: AccState, rs: seq<Record>, r: Record)
    ensures Feed(s, rs + [r]) == Step(Feed(s, rs), r)
  {
    assert (rs + [r])[..|rs|] == rs;
  }

  /** The map getResult returns in state `s`. */
  function ReportOf(s: AccState, f: Formats): Result {
    match s
    case OfAveraging(a) => Averaging.ResultMap(a, f)
    case OfMinMax(m) => MinMax.ResultMap(m, f)
    case OfDefault => DefaultGetResult()
  }

  /** The state getResult leaves behind: only the averaging function changes. */
  function AfterReport(s: AccState): AccState {
    match s
    case OfAveraging(a) => OfAveraging(Averaging.AfterResult(a))
    case _ => s
  }

  /** accept, dispatched to the accumulator. */
  method Accept(acc: Accumulator, r: Record)
    requires acc.Valid()
    modifies acc.Repr()
    ensures acc.Valid() && acc.State() == Step(old(acc.State()), r)
  {
    match acc
    case AveragingFn(a) => a.Accept(r);
    case MinMaxFn(m) => m.Accept(r);
    case DefaultFn =>
  }

  /** getResult, dispatched to the accumulator. */
  method GetResult(acc: Accumulator, f: Formats) returns (result: Result)
    requires acc.Valid()
    modifies acc.Repr()
    ensures acc.Valid()
    ensures result == ReportOf(old(acc.State()), f) && acc.State() == AfterReport(old(acc.State()))
  {
    match acc
    case AveragingFn(a) => result := a.GetResult(f);
    case MinMaxFn(m) => result := m.GetResult(f);
    case DefaultFn => result := DefaultGetResult();
  }

  // ---------------------------------------------------------------------------
  // The dataset, its index and add
  // ---------------------------------------------------------------------------

  /**
   * The index invariant: every stored id is indexed, and each id maps to the
   * position of the LAST record with that id (put overwrites earlier entries).
   */
  ghost predicate IndexesLast(ds: seq<Record>, ix: map<string, nat>) {
    && (forall k :: k in ix ==> ix[k] < |ds| && ds[ix[k]].id == k)
    && (forall k, j :: k in ix && ix[k] < j < |ds| ==> ds[j].id != k)
    && (forall j :: 0 <= j < |ds| ==> ds[j].id in ix)
  }

  /** The position `add(r)` marks reversed, looked up after `r` itself is indexed. */
  function ReversalTarget(r: Record, ix: map<string, nat>): Option<nat> {
    if r.kind == REVERSAL && r.relatedTransaction.Some? && r.relatedTransaction.value in ix
    then Some(ix[r.relatedTransaction.value])
    else None
  }

  /** The dataset with the record at position `i` marked reversed (setReversed(true)). */
  function MarkReversed(ds: seq<Record>, i: nat): seq<Record>
    requires i < |ds|
  {
    ds[i := ds[i].(reversed := true)]
  }

  /** The dataset `add(r)` leaves: `r` appended, then its reversal target marked. */
  function AddedRecords(ds: seq<Record>, ix: map<string, nat>, r: Record): seq<Record> {
    var ix' := ix[r.id := |ds|];
    match ReversalTarget(r, ix')
    case Some(t) => if t < |ds| + 1 then MarkReversed(ds + [r], t) else ds + [r]
    case None => ds + [r]
  }

  /** `add` keeps the index pointing at the last record of each id. */
  lemma AddKeepsIndex(ds: seq<Record>, ix: map<string, nat>, r: Record)
    requires IndexesLast(ds, ix)
    ensures IndexesLast(AddedRecords(ds, ix, r), ix[r.id := |ds|])
  {
    var ds', ix' := AddedRecords(ds, ix, r), ix[r.id := |ds|];
    assert |ds'| == |ds| + 1;
    assert forall j :: 0 <= j < |ds'| ==> ds'[j].id == (ds + [r])[j].id;
  }

  /**
   * A REVERSAL whose related id is indexed marks the last record with that id
   * (possibly itself) reversed, and changes no other record.
   */
  lemma ReversalMarksTarget(ds: seq<Record>, ix: map<string, nat>, r: Record)
    requires IndexesLast(ds, ix)
    requires r.kind == REVERSAL && r.relatedTransaction.Some?
    requires var rel := r.relatedTransaction.value; rel == r.id || rel in ix
    ensures var ds', rel := AddedRecords(ds, ix, r), r.relatedTransaction.value;
      exists t :: 0 <= t < |ds'|
        && (ds + [r])[t].id == rel
        && (forall j :: t < j < |ds'| ==> (ds + [r])[j].id != rel)
        && ds'[t] == (ds + [r])[t].(reversed := true)
        && (forall j :: 0 <= j < |ds'| && j != t ==> ds'[j] == (ds + [r])[j])
  {
    var ix' := ix[r.id := |ds|];
    var t := ix'[r.relatedTransaction.value];
    assert ReversalTarget(r, ix') == Some(t);
    AddKeepsIndex(ds, ix, r);
    var ds' := AddedRecords(ds, ix, r);
    assert forall j :: 0 <= j < |ds'| ==> ds'[j].id == (ds + [r])[j].id;
  }

  /** A REVERSAL of an id that is not indexed (and is not its own) only appends it. */
  lemma DanglingReversal(ds: seq<Record>, ix: map<string, nat>, r: Record)
    requires r.kind == REVERSAL
    requires r.relatedTransaction.None? || (r.relatedTransaction.value !in ix && r.relatedTransaction.value != r.id)
    ensures AddedRecords(ds, ix, r) == ds + [r]
    ensures forall j :: 0 <= j < |ds| ==> AddedRecords(ds, ix, r)[j].reversed == ds[j].reversed
  {
  }

  /** A REVERSAL naming its own id marks itself and leaves every earlier record as it was. */
  lemma SelfReversal(ds: seq<Record>, ix: map<string, nat>, r: Record)
    requires r.kind == REVERSAL && r.relatedTransaction == Some(r.id)
    ensures AddedRecords(ds, ix, r) == ds + [r.(reversed := true)]
  {
    var ix' := ix[r.id := |ds|];
    assert ReversalTarget(r, ix') == Some(|ds|);
  }

  /**
   * `add` changes no stored field but `reversed`, and clears no flag: a record
   * once reversed stays reversed.
   */
  lemma AddOnlySetsFlags(ds: seq<Record>, ix: map<string, nat>, r: Record)
    ensures var ds' := AddedRecords(ds, ix, r);
      && |ds'| == |ds| + 1
      && ds'[|ds|].(reversed := r.reversed) == r
      && forall j :: 0 <= j < |ds| ==>
           ds'[j].(reversed := ds[j].reversed) == ds[j] && (ds[j].reversed ==> ds'[j].reversed)
  {
  }

  /**
   * The index as getTransacionIndex shows it: id -> the record at the indexed
   * position. The ensures is the element-wise view the proofs use;
   * GetTransactionIndex says what the index holds.
   */
  function RecordIndex(ds: seq<Record>, ix: map<string, nat>): (m: map<string, Record>)
    requires forall k :: k in ix ==> ix[k] < |ds|
    ensures m.Keys == ix.Keys
    ensures forall k :: k in m ==> m[k] == ds[ix[k]]
  {
    map k | k in ix :: ds[ix[k]]
  }

  /**
   * What `add(r)` does to the index as records: `r.id` now names `r` (marked
   * reversed exactly when it reverses itself), and every other id names the
   * record it named before, with `reversed` set when it is the target.
   */
  lemma AddIndexesRecord(ds: seq<Record>, ix: map<string, nat>, r: Record)
    requires IndexesLast(ds, ix)
    ensures var before, after := RecordIndex(ds, ix), RecordIndex(AddedRecords(ds, ix, r), ix[r.id := |ds|]);
      && after.Keys == before.Keys + {r.id}
      && after[r.id] == r.(reversed := r.reversed || (r.kind == REVERSAL && r.relatedTransaction == Some(r.id)))
      && forall k :: k in before && k != r.id ==>
           after[k] == before[k].(reversed := before[k].reversed
             || (r.kind == REVERSAL && r.relatedTransaction == Some(k)))
  {
    AddKeepsIndex(ds, ix, r);
    var ix' := ix[r.id := |ds|];
    var ds' := AddedRecords(ds, ix, r);
    forall k | k in ix && k != r.id
      ensures ds'[ix'[k]] == ds[ix[k]].(reversed := ds[ix[k]].reversed
        || (r.kind == REVERSAL && r.relatedTransaction == Some(k)))
    {
      assert ix'[k] == ix[k];
      if r.kind == REVERSAL && r.relatedTransaction.Some? && r.relatedTransaction.value in ix' {
        var t := ix'[r.relatedTransaction.value];
        assert ix[k] == t <==> r.relatedTransaction == Some(k);
      }
    }
  }

  // ---------------------------------------------------------------------------
  // The analysis window
  // ---------------------------------------------------------------------------

  /** The first position at or after `i` whose date is not before `from`. */
  function SkipBefore(ds: seq<Record>, from: int, i: nat): (j: nat)
    requires i <= |ds|
    ensures i <= j <= |ds|
    ensures forall k :: i <= k < j ==> ds[k].date < from
    ensures j < |ds| ==> ds[j].date >= from
    decreases |ds| - i
  {
    if i < |ds| && ds[i].date < from then SkipBefore(ds, from, i + 1) else i
  }

  /** The first position at or after `i` whose date is after `to`. */
  function TakeThrough(ds: seq<Record>, to: int, i: nat): (j: nat)
    requires i <= |ds|
    ensures i <= j <= |ds|
    ensures forall k :: i <= k < j ==> ds[k].date <= to
    ensures j < |ds| ==> ds[j].date > to
    decreases |ds| - i
  {
    if i < |ds| && ds[i].date <= to then TakeThrough(ds, to, i + 1) else i
  }

  /** The records `analyze(from, to)` feeds to the accumulator, in order. */
  function Window(ds: seq<Record>, from: int, to: int): seq<Record> {
    var lo := SkipBefore(ds, from, 0);
    ds[lo..TakeThrough(ds, to, lo)]
  }

  ghost predicate SortedByDate(ds: seq<Record>) {
    forall i, j :: 0 <= i < j < |ds| ==> ds[i].date <= ds[j].date
  }

  /** The records of `ds` with from <= date <= to, in order. */
  function InRange(ds: seq<Record>, from: int, to: int): seq<Record> {
    if ds == [] then []
    else (if from <= ds[0].date <= to then [ds[0]] else []) + InRange(ds[1..], from, to)
  }

  lemma {:induction false} InRangeAppend(a: seq<Record>, b: seq<Record>, from: int, to: int)
    ensures InRange(a + b, from, to) == InRange(a, from, to) + InRange(b, from, to)
  {
    if a != [] {
      assert (a + b)[1..] == a[1..] + b;
      InRangeAppend(a[1..], b, from, to);
    } else {
      assert a + b == b;
    }
  }

  lemma {:induction false} InRangeNone(ds: seq<Record>, from: int, to: int)
    requires forall k :: 0 <= k < |ds| ==> ds[k].date < from || ds[k].date > to
    ensures InRange(ds, from, to) == []
  {
    if ds != [] {
      InRangeNone(ds[1..], from, to);
    }
  }

  lemma {:induction false} InRangeAll(ds: seq<Record>, from: int, to: int)
    requires forall k :: 0 <= k < |ds| ==> from <= ds[k].date <= to
    ensures InRange(ds, from, to) == ds
  {
    if ds != [] {
      InRangeAll(ds[1..], from, to);
    }
  }

  /**
   * On date-ordered data the window is exactly the records with
   * from <= date <= to: both bounds are inclusive.
   */
  lemma WindowOfSorted(ds: seq<Record>, from: int, to: int)
    requires SortedByDate(ds)
    ensures Window(ds, from, to) == InRange(ds, from, to)
  {
    var lo := SkipBefore(ds, from, 0);
    var hi := TakeThrough(ds, to, lo);
    InsideWindow(ds, from, to, lo, hi);
    AfterWindow(ds, to, hi);
    InRangeOfSplit(ds, from, to, lo, hi);
  }

  /** Records before `lo` are too early, from `lo` to `hi` in range, from `hi` on too late. */
  lemma InRangeOfSplit(ds: seq<Record>, from: int, to: int, lo: nat, hi: nat)
    requires lo <= hi <= |ds|
    requires forall k :: 0 <= k < lo ==> ds[k].date < from
    requires forall k :: 0 <= k < hi - lo ==> from <= ds[lo..hi][k].date <= to
    requires forall k :: 0 <= k < |ds| - hi ==> ds[hi..][k].date > to
    ensures InRange(ds, from, to) == ds[lo..hi]
  {
    var before, inside, after := ds[..lo], ds[lo..hi], ds[hi..];
    assert ds == before + inside + after;
    assert forall k :: 0 <= k < |before| ==> before[k].date < from;
    InRangeNone(before, from, to);
    InRangeAll(inside, from, to);
    InRangeNone(after, from, to);
    InRangeAppend(before + inside, after, from, to);
    InRangeAppend(before, inside, from, to);
  }

  lemma InsideWindow(ds: seq<Record>, from: int, to: int, lo: nat, hi: nat)
    requires SortedByDate(ds) && lo <= hi <= |ds|
    requires lo < |ds| ==> ds[lo].date >= from
    requires forall k :: lo <= k < hi ==> ds[k].date <= to
    ensures forall k :: 0 <= k < hi - lo ==> from <= ds[lo..hi][k].date <= to
  {
    forall k | 0 <= k < hi - lo
      ensures from <= ds[lo..hi][k].date <= to
    {
      assert ds[lo..hi][k] == ds[lo + k];
      if k > 0 {
        assert ds[lo].date <= ds[lo + k].date;
      }
    }
  }

  lemma AfterWindow(ds: seq<Record>, to: int, hi: nat)
    requires SortedByDate(ds) && hi <= |ds|
    requires hi < |ds| ==> ds[hi].date > to
    ensures forall k :: 0 <= k < |ds| - hi ==> ds[hi..][k].date > to
  {
    forall k | 0 <= k < |ds| - hi
      ensures ds[hi..][k].date > to
    {
      assert ds[hi..][k] == ds[hi + k];
      if k > 0 {
        assert ds[hi].date <= ds[hi + k].date;
      }
    }
  }

  /** Every record the window feeds is dated no later than `to`, even on unordered data. */
  lemma WindowNotAfter(ds: seq<Record>, from: int, to: int)
    ensures forall k :: 0 <= k < |Window(ds, from, to)| ==> Window(ds, from, to)[k].date <= to
    ensures Window(ds, from, to) != [] ==> Window(ds, from, to)[0].date >= from
  {
  }

  /** SkipBefore is the first position at or after `i` not dated before `from`. */
  lemma {:induction false} SkipBeforeAt(ds: seq<Record>, from: int, i: nat, j: nat)
    requires i <= j <= |ds|
    requires forall k :: i <= k < j ==> ds[k].date < from
    requires j < |ds| ==> ds[j].date >= from
    ensures SkipBefore(ds, from, i) == j
    decreases j - i
  {
    if i < j {
      SkipBeforeAt(ds, from, i + 1, j);
    }
  }

  /** TakeThrough is the first position at or after `i` dated after `to`. */
  lemma {:induction false} TakeThroughAt(ds: seq<Record>, to: int, i: nat, j: nat)
    requires i <= j <= |ds|
    requires forall k :: i <= k < j ==> ds[k].date <= to
    requires j < |ds| ==> ds[j].date > to
    ensures TakeThrough(ds, to, i) == j
    decreases j - i
  {
    if i < j {
      TakeThroughAt(ds, to, i + 1, j);
    }
  }

  /** The first loop of `analyze`: skip the records dated before `from`. */
  method SkipEarlier(ds: seq<Record>, from: int) returns (searchIndex: nat)
    ensures searchIndex == SkipBefore(ds, from, 0)
  {
    var toIndex := |ds|;
    searchIndex := 0;
    while searchIndex < toIndex && ds[searchIndex].date < from
      invariant 0 <= searchIndex <= toIndex
      invariant forall k :: 0 <= k < searchIndex ==> ds[k].date < from
    {
      searchIndex := searchIndex + 1;
    }
    SkipBeforeAt(ds, from, 0, searchIndex);
  }

  /**
   * The rest of the scan of `analyze`: from position `lo`, accept each record
   * up to the first dated after `to`.
   */
  method AcceptThrough(acc: Accumulator, ds: seq<Record>, to: int, lo: nat)
    requires acc.Valid() && lo <= |ds|
    modifies acc.Repr()
    ensures acc.Valid() && acc.State() == Feed(old(acc.State()), ds[lo..TakeThrough(ds, to, lo)])
  {
    var toIndex := |ds|;
    var searchIndex := lo;
    assert ds[lo..lo] == [];
    if searchIndex < toIndex && ds[searchIndex].date <= to {
      FeedAppend(old(acc.State()), ds[lo..searchIndex], ds[searchIndex]);
      assert ds[lo..searchIndex + 1] == ds[lo..searchIndex] + [ds[searchIndex]];
      Accept(acc, ds[searchIndex]);
      searchIndex := searchIndex + 1;
      while searchIndex < toIndex && ds[searchIndex].date <= to
        invariant lo <= searchIndex <= toIndex
        invariant forall k :: lo <= k < searchIndex ==> ds[k].date <= to
        invariant acc.Valid() && acc.State() == Feed(old(acc.State()), ds[lo..searchIndex])
      {
        FeedAppend(old(acc.State()), ds[lo..searchIndex], ds[searchIndex]);
        assert ds[lo..searchIndex + 1] == ds[lo..searchIndex] + [ds[searchIndex]];
        Accept(acc, ds[searchIndex]);
        searchIndex := searchIndex + 1;
      }
    }
    TakeThroughAt(ds, to, lo, searchIndex);
  }

  // ---------------------------------------------------------------------------
  // Error results and the report text
  // ---------------------------------------------------------------------------

  const ERROR_KEY: string := "ERROR"
  const NO_DATA_MESSAGE: string := "TransactionAnalyzer has no transaction data to analyze."

  function ErrorResult(message: string): (r: Result)
    ensures r.Keys == {ERROR_KEY} && r[ERROR_KEY] == TextValue(message)
  {
    map[ERROR_KEY := TextValue(message)]
  }

  /** `t` occurs in `s`. */
  predicate Contains(s: string, t: string) {
    exists i :: 0 <= i <= |s| && t <= s[i..]
  }

  const RANGE_PREFIX: string := "date-from parameter must be before date-to. Actual requested range is from: "

  /** The invalid-range message; it holds both formatted bounds. */
  function RangeMessage(f: Formats, from: Long, to: Long): (m: string)
    ensures Contains(m, f.formatDate(from)) && Contains(m, f.formatDate(to))
  {
    var prefix := RANGE_PREFIX;
    var m := prefix + f.formatDate(from) + " to: " + f.formatDate(to);
    assert f.formatDate(from) <= m[|prefix|..];
    assert m[|m| - |f.formatDate(to)|..] == f.formatDate(to);
    m
  }

  function Digit(d: nat): char
    requires d < 10
  {
    "0123456789"[d]
  }

  /** Integer.toString. */
  function IntToString(n: int): string
    decreases if n < 0 then 1 - n else n
  {
    if n < 0 then "-" + IntToString(-n)
    else if n < 10 then [Digit(n)]
    else IntToString(n / 10) + [Digit(n % 10)]
  }

  /** String.valueOf of what Map.get returns: "null" for a missing key. */
  function RenderValue(v: Option<Value>): string {
    match v
    case None => "null"
    case Some(IntValue(n)) => IntToString(n)
    case Some(TextValue(s)) => s
  }

  /** The report line of key `k`. */
  function Line(k: string, m: Result): string {
    k + " = " + RenderValue(Get(m, k)) + "\n"
  }

  /** The report lines of `keys`, in order. */
  function RenderLines(keys: seq<string>, m: Result): string {
    if keys == [] then "" else RenderLines(keys[..|keys| - 1], m) + Line(keys[|keys| - 1], m)
  }

  /** The report is one line per key, in key order: the lines of a + b are those of a, then those of b. */
  lemma {:induction false} RenderLinesAppend(a: seq<string>, b: seq<string>, m: Result)
    ensures RenderLines(a + b, m) == RenderLines(a, m) + RenderLines(b, m)
  {
    if b == [] {
      assert a + b == a;
    } else {
      var init, last := b[..|b| - 1], b[|b| - 1];
      assert (a + b)[..|a + b| - 1] == a + init;
      assert (a + b)[|a + b| - 1] == last;
      RenderLinesAppend(a, init, m);
      assert RenderLines(a + b, m) == RenderLines(a + init, m) + Line(last, m);
      assert RenderLines(b, m) == RenderLines(init, m) + Line(last, m);
    }
  }

  lemma RenderTwo(a: string, b: string, m: Result)
    ensures RenderLines([a, b], m) == Line(a, m) + Line(b, m)
  {
    assert [a, b][..1] == [a];
    assert [a][..0] == [];
    assert RenderLines([a], m) == "" + Line(a, m) == Line(a, m);
  }

  lemma RenderThree(a: string, b: string, c: string, m: Result)
    ensures RenderLines([a, b, c], m) == Line(a, m) + Line(b, m) + Line(c, m)
  {
    assert [a, b, c][..2] == [a, b];
    RenderTwo(a, b, m);
  }

  /** The line of a key the result does not hold. */
  lemma MissingLine(k: string, m: Result)
    requires k !in m
    ensures Line(k, m) == k + " = null\n"
  {
    assert " = " + "null" + "\n" == " = null\n";
    assert k + " = " + "null" + "\n" == k + (" = " + "null" + "\n");
  }

  /** An error result renders as "key = null" lines: the error text is never displayed. */
  lemma ErrorRendersAsNulls(message: string)
    ensures RenderLines(Averaging.KEY_SET, ErrorResult(message))
         == (Averaging.COUNT_KEY + " = null\n") + (Averaging.AVERAGE_KEY + " = null\n")
    ensures RenderLines(MinMax.KEY_SET, ErrorResult(message))
         == (MinMax.MIN_KEY + " = null\n") + (MinMax.MAX_KEY + " = null\n") + (MinMax.COUNT_KEY + " = null\n")
  {
    var e := ErrorResult(message);
    RenderTwo(Averaging.COUNT_KEY, Averaging.AVERAGE_KEY, e);
    RenderThree(MinMax.MIN_KEY, MinMax.MAX_KEY, MinMax.COUNT_KEY, e);
    MissingLine(Averaging.COUNT_KEY, e);
    MissingLine(Averaging.AVERAGE_KEY, e);
    MissingLine(MinMax.MIN_KEY, e);
    MissingLine(MinMax.MAX_KEY, e);
  }

  /** The averaging report: the count line, then the average line. */
  lemma AveragingReportText(s: Averaging.AvgState, f: Formats)
    ensures RenderLines(Averaging.KEY_SET, Averaging.ResultMap(s, f))
         == (Averaging.COUNT_KEY + " = " + IntToString(s.count) + "\n")
          + (Averaging.AVERAGE_KEY + " = " + f.formatAmount(Averaging.Reported(s)) + "\n")
  {
    RenderTwo(Averaging.COUNT_KEY, Averaging.AVERAGE_KEY, Averaging.ResultMap(s, f));
  }

  /** The min/max report: the minimum line, the maximum line, then the count line. */
  lemma MinMaxReportText(s: MinMax.MinMaxState, f: Formats)
    ensures RenderLines(MinMax.KEY_SET, MinMax.ResultMap(s, f))
         == (MinMax.MIN_KEY + " = " + f.formatAmount(MinMax.ReportedMin(s)) + "\n")
          + (MinMax.MAX_KEY + " = " + f.formatAmount(s.max) + "\n")
          + (MinMax.COUNT_KEY + " = " + IntToString(s.count) + "\n")
  {
    var m := MinMax.ResultMap(s, f);
    RenderThree(MinMax.MIN_KEY, MinMax.MAX_KEY, MinMax.COUNT_KEY, m);
    assert Get(m, MinMax.MIN_KEY) == Some(TextValue(f.formatAmount(MinMax.ReportedMin(s))));
    assert Get(m, MinMax.MAX_KEY) == Some(TextValue(f.formatAmount(s.max)));
    assert Get(m, MinMax.COUNT_KEY) == Some(IntValue(s.count));
  }

  // ---------------------------------------------------------------------------
  // The engine
  // ---------------------------------------------------------------------------

  class TransactionAnalyzer {
    /** The accumulator, created once with the engine and used by every analyze call. */
    const fn: Accumulator
    var dataSet: seq<Record>
    var index: map<string, nat>

    ghost predicate Valid()
      reads this, fn.Repr()
    {
      IndexesLast(dataSet, index) && fn.Valid() && this !in fn.Repr()
    }

    constructor (analyzerFunction: Accumulator)
      requires analyzerFunction.Valid()
      ensures fn == analyzerFunction && dataSet == [] && index == map[]
      ensures Valid()
    {
      fn := analyzerFunction;
      dataSet := [];
      index := map[];
    }

    /**
     * Stores a record: append, index (overwriting an earlier entry for the id),
     * and, for a REVERSAL, mark the record its related id names, if indexed.
     * A null record changes nothing.
     */
    method Add(record: Option<Record>)
      requires Valid()
      modifies this
      ensures Valid()
      ensures record.None? ==> dataSet == old(dataSet) && index == old(index)
      ensures record.Some? ==>
        && index == old(index)[record.value.id := |old(dataSet)|]
        && dataSet == AddedRecords(old(dataSet), old(index), record.value)
    {
      if record.Some? {
        var r := record.value;
        AddKeepsIndex(dataSet, index, r);
        ghost var ds0, ix0 := dataSet, index;
        dataSet := dataSet + [r];
        index := index[r.id := |dataSet| - 1];
        if r.kind == REVERSAL {
          if r.relatedTransaction.Some? && r.relatedTransaction.value in index {
            var i := index[r.relatedTransaction.value];
            dataSet := dataSet[i := dataSet[i].(reversed := true)];
          }
        }
        assert dataSet == AddedRecords(ds0, ix0, r);
      }
    }

    /** getDataSet. */
    function GetDataSet(): seq<Record>
      reads this
    {
      dataSet
    }

    /**
     * getTransacionIndex, as id -> record: the ids present are exactly the
     * stored ids, and each maps to the last stored record with that id, the
     * very entry of the dataset a reversal marks.
     */
    function GetTransactionIndex(): (m: map<string, Record>)
      reads this, fn.Repr()
      requires Valid()
      ensures forall k :: k in m <==> exists i :: 0 <= i < |dataSet| && dataSet[i].id == k
      ensures forall k :: k in m ==>
        exists i :: 0 <= i < |dataSet| && m[k] == dataSet[i] && m[k].id == k
          && forall j :: i < j < |dataSet| ==> dataSet[j].id != k
    {
      RecordIndex(dataSet, index)
    }

    /**
     * Runs the accumulator over the window [from, to]: errors for an empty
     * dataset and an inverted range, without touching the accumulator;
     * otherwise skip the records dated before `from`, feed those up to the
     * first dated after `to`, and return getResult.
     */
    method Analyze(from: Long, to: Long, f: Formats) returns (result: Result)
      requires Valid()
      modifies fn.Repr()
      ensures Valid()
      ensures |dataSet| == 0 ==>
        result == ErrorResult(NO_DATA_MESSAGE) && fn.State() == old(fn.State())
      ensures |dataSet| > 0 && from > to ==>
        result == ErrorResult(RangeMessage(f, from, to)) && fn.State() == old(fn.State())
      ensures |dataSet| > 0 && from <= to ==>
        var s := Feed(old(fn.State()), Window(dataSet, from, to));
        result == ReportOf(s, f) && fn.State() == AfterReport(s)
    {
      if |dataSet| == 0 {
        result := ErrorResult(NO_DATA_MESSAGE);
        return;
      }
      if from > to {
        result := ErrorResult(RangeMessage(f, from, to));
        return;
      }
      var searchIndex := SkipEarlier(dataSet, from);
      AcceptThrough(fn, dataSet, to, searchIndex);
      result := GetResult(fn, f);
    }

    /**
     * The report text: empty for a null or empty result; otherwise one
     * "key = value" line per key of the accumulator's key set, in that order,
     * whatever keys the result itself holds.
     */
    method InterpretResult(result: Option<Result>) returns (text: string)
      ensures result.None? || |result.value| == 0 ==> text == ""
      ensures result.Some? && |result.value| > 0 ==> text == RenderLines(fn.GetKeySet(), result.value)
      ensures fn.DefaultFn? ==> text == ""
    {
      text := "";
      if result.Some? && |result.value| > 0 {
        var keys := fn.GetKeySet();
        var i := 0;
        while i < |keys|
          invariant 0 <= i <= |keys|
          invariant text == RenderLines(keys[..i], result.value)
        {
          assert keys[..i + 1][..i] == keys[..i];
          text := text + Line(keys[i], result.value);
          i := i + 1;
        }
        assert keys[..|keys|] == keys;
      }
    }
  }

  /**
   * The factory: "minmax", in any case, selects the min/max function; any
   * other name, and no name, selects the averaging function.
   */
  method NewAnalyzer(analysisType: Option<string>) returns (analyzer: TransactionAnalyzer)
    ensures fresh(analyzer) && fresh(analyzer.fn.Repr())
    ensures analyzer.Valid() && analyzer.dataSet == [] && analyzer.index == map[]
    ensures analyzer.fn.MinMaxFn? <==> analysisType.Some? && LowerAscii(analysisType.value) == "minmax"
    ensures analyzer.fn.MinMaxFn? ==> analyzer.fn.State() == OfMinMax(MinMax.INITIAL)
    ensures !analyzer.fn.MinMaxFn? ==> analyzer.fn.AveragingFn? && analyzer.fn.State() == OfAveraging(Averaging.INITIAL)
  {
    var name := analysisType.GetOr("avg");
    if LowerAscii(name) == "minmax" {
      var m := new MinMax.MinMaxFunction();
      analyzer := new TransactionAnalyzer(MinMaxFn(m));
    } else {
      var a := new Averaging.AveragingFunction();
      analyzer := new TransactionAnalyzer(AveragingFn(a));
    }
  }
}
