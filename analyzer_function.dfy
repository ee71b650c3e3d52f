/**
 * The accumulator contract (analyzer.AnalyzerFunction): the result map an
 * accumulator reports, the defaults an implementation inherits, and the
 * inclusion rule both shipped accumulators apply.
 */
module AnalyzerFunctions {
  import opened Wrappers
  import opened Model

  /** A value of the Map<String, Object> a result is: an Integer count or a formatted String. */
  datatype Value = IntValue(n: int) | TextValue(s: string)

  type Result = map<string, Value>

  const WARNING_KEY: string := "WARNING"
  const WARNING_TEXT: string := "Default (empty) implementation has been invoked."

  /** The inherited getResult: a fresh map whose only entry is the warning. */
  function DefaultGetResult(): (r: Result)
    ensures |r| == 1 && WARNING_KEY in r
    ensures r[WARNING_KEY] == TextValue(WARNING_TEXT)
  {
    map[WARNING_KEY := TextValue(WARNING_TEXT)]
  }

  /** The inherited getKeySet: no keys, so nothing of a result is ever displayed. */
  function DefaultGetKeySet(): (keys: seq<string>)
    ensures |keys| == 0
  {
    []
  }

  /** Map.get: None where Java returns null. The ensures is the view of it the proofs use. */
  function Get(m: Result, k: string): (v: Option<Value>)
    ensures v.Some? <==> k in m
    ensures v.Some? ==> v.value == m[k]
  {
    if k in m then Some(m[k]) else None
  }

  /** The records an accumulator counts: payments that have not been reversed. */
  predicate Counted(r: Record) {
    !r.reversed && r.kind == PAYMENT
  }

  /** The counted records of `rs`, in order. */
  function CountedRecords(rs: seq<Record>): (c: seq<Record>)
    ensures |c| <= |rs|
    ensures forall i :: 0 <= i < |c| ==> Counted(c[i])
    ensures forall r :: r in c <==> r in rs && Counted(r)
  {
    if rs == [] then []
    else
      var last := rs[|rs| - 1];
      assert rs == rs[..|rs| - 1] + [last];
      CountedRecords(rs[..|rs| - 1]) + if Counted(last) then [last] else []
  }

  lemma {:induction false} CountedAppend(rs: seq<Record>, r: Record)
    ensures CountedRecords(rs + [r]) == CountedRecords(rs) + if Counted(r) then [r] else []
  {
    assert (rs + [r])[..|rs|] == rs;
  }
}
