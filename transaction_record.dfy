/**
 * The transaction record (model.TransactionRecord): the record itself, its type,
 * and the parser `of` that builds a record from one CSV line.
 */
module Model {
  import opened Wrappers

  /** The range of Java's `long`, the type of a record's timestamp. */
  const LONG_MIN: int := -0x8000_0000_0000_0000
  const LONG_MAX: int := 0x7FFF_FFFF_FFFF_FFFF
  type Long = x: int | LONG_MIN <= x <= LONG_MAX

  /** Java's Double.MAX_VALUE, exactly: (2^53 - 1) * 2^971. */
  const DOUBLE_MAX: real := 179769313486231570814527423731704356798070567525844996598917476803157260780028538760589558632766878171540458953514382464234321326889464182768467546703537516986049910576551282076245490090389328944075868508455133942304583236903222948165808559332123348274797826204144723168738177180919299881250404026184124858368.0

  /**
   * An amount: a finite double, taken as an exact rational. Rounding of the
   * double arithmetic is not modelled.
   */
  type Amount = a: real | -DOUBLE_MAX <= a <= DOUBLE_MAX

  datatype TransactionType = PAYMENT | REVERSAL | UNKNOWN

  /**
   * One transaction. `kind` is the Java field `type`; `relatedTransaction` is
   * None where the Java field is null; `reversed` is the only field the
   * analyser changes after the record is stored.
   */
  datatype Record = Record(
    id: string,
    date: Long,
    amount: Amount,
    merchant: string,
    kind: TransactionType,
    relatedTransaction: Option<string>,
    reversed: bool)

  /**
   * The library routines the parser and the reports rely on, passed in
   * explicitly: SimpleDateFormat("dd/MM/yyyy HH:mm:ss") parse (None where it
   * throws) and format, Double.parseDouble (None where it throws), and
   * String.format("%1$,.2f", x).
   */
  datatype Formats = Formats(
    parseDate: string -> Option<Long>,
    formatDate: Long -> string,
    parseAmount: string -> Option<Amount>,
    formatAmount: real -> string)

  /** The name of an enum constant, as Enum.name() gives it. */
  function Name(t: TransactionType): string {
    match t
    case PAYMENT => "PAYMENT"
    case REVERSAL => "REVERSAL"
    case UNKNOWN => "UNKNOWN"
  }

  /** TransactionType.valueOf: an exact, case-sensitive match on the name; None where Java throws. */
  function ValueOf(name: string): (t: Option<TransactionType>)
    ensures t.Some? ==> Name(t.value) == name
    ensures t.None? ==> forall k: TransactionType :: Name(k) != name
  {
    if name == "PAYMENT" then Some(PAYMENT)
    else if name == "REVERSAL" then Some(REVERSAL)
    else if name == "UNKNOWN" then Some(UNKNOWN)
    else None
  }

  lemma ValueOfName(t: TransactionType)
    ensures ValueOf(Name(t)) == Some(t)
  {
  }

  // ---------------------------------------------------------------------------
  // Tokenising: csvLine.split(" *, *")
  // ---------------------------------------------------------------------------

  /** Concatenation of `parts` with `sep` between neighbours. */
  function Join(parts: seq<string>, sep: string): string
    requires |parts| >= 1
  {
    if |parts| == 1 then parts[0] else parts[0] + sep + Join(parts[1..], sep)
  }

  /** The raw pieces of `s` between its commas, in order and untrimmed. */
  function CommaPieces(s: string): (p: seq<string>)
    ensures |p| >= 1
    ensures forall i :: 0 <= i < |p| ==> ',' !in p[i]
    ensures Join(p, ",") == s
  {
    if s == [] then [""]
    else
      var rest := CommaPieces(s[1..]);
      if s[0] == ',' then
        assert ([""] + rest)[1..] == rest;
        [""] + rest
      else
        var p := [[s[0]] + rest[0]] + rest[1..];
        assert p[1..] == rest[1..];
        assert |rest| > 1 ==> Join(rest, ",") == rest[0] + "," + Join(rest[1..], ",");
        p
  }

  /** `s` without its leading spaces. */
  function TrimLeadingSpaces(s: string): (t: string)
    ensures |t| <= |s| && t == s[|s| - |t|..]
    ensures forall i :: 0 <= i < |s| - |t| ==> s[i] == ' '
    ensures t == [] || t[0] != ' '
  {
    if s != [] && s[0] == ' ' then TrimLeadingSpaces(s[1..]) else s
  }

  /** `s` without its trailing spaces. */
  function TrimTrailingSpaces(s: string): (t: string)
    ensures |t| <= |s| && t == s[..|t|]
    ensures forall i :: |t| <= i < |s| ==> s[i] == ' '
    ensures t == [] || t[|t| - 1] != ' '
  {
    if s != [] && s[|s| - 1] == ' ' then TrimTrailingSpaces(s[..|s| - 1]) else s
  }

  /**
   * `t` is `s` with its leading spaces removed when `front` holds and its
   * trailing spaces removed when `back` holds, and nothing else removed.
   */
  ghost predicate Stripped(s: string, t: string, front: bool, back: bool) {
    exists a: nat :: StrippedAt(s, t, a, front, back)
  }

  /** Stripped, with `t` found at offset `a` of `s`. */
  ghost predicate StrippedAt(s: string, t: string, a: nat, front: bool, back: bool) {
    && a + |t| <= |s| && t == s[a..a + |t|]
    && (forall k :: 0 <= k < a ==> s[k] == ' ')
    && (forall k :: a + |t| <= k < |s| ==> s[k] == ' ')
    && (!front ==> a == 0) && (!back ==> a + |t| == |s|)
    && (front && t != [] ==> t[0] != ' ')
    && (back && t != [] ==> t[|t| - 1] != ' ')
  }

  /**
   * Piece `i` with the spaces that the separator pattern " *, *" swallows
   * removed: those after the comma before it and those before the comma after it.
   */
  function TrimPiece(p: seq<string>, i: nat): string
    requires i < |p|
  {
    var t := if i > 0 then TrimLeadingSpaces(p[i]) else p[i];
    if i + 1 < |p| then TrimTrailingSpaces(t) else t
  }

  /**
   * TrimPiece removes exactly the spaces next to the piece's commas: the
   * leading ones when a comma precedes it, the trailing ones when one follows.
   */
  lemma TrimPieceStripped(p: seq<string>, i: nat)
    requires i < |p|
    ensures Stripped(p[i], TrimPiece(p, i), i > 0, i + 1 < |p|)
  {
    if i > 0 && i + 1 < |p| {
      StripBoth(p[i]);
    } else if i > 0 {
      StripLeading(p[i]);
    } else if i + 1 < |p| {
      StripTrailing(p[i]);
    } else {
      assert StrippedAt(p[i], p[i], 0, false, false);
    }
  }

  lemma StripLeading(s: string)
    ensures Stripped(s, TrimLeadingSpaces(s), true, false)
  {
    var t := TrimLeadingSpaces(s);
    assert StrippedAt(s, t, |s| - |t|, true, false);
  }

  lemma StripTrailing(s: string)
    ensures Stripped(s, TrimTrailingSpaces(s), false, true)
  {
    assert StrippedAt(s, TrimTrailingSpaces(s), 0, false, true);
  }

  lemma StripBoth(s: string)
    ensures Stripped(s, TrimTrailingSpaces(TrimLeadingSpaces(s)), true, true)
  {
    var u := TrimLeadingSpaces(s);
    var t := TrimTrailingSpaces(u);
    var a := |s| - |u|;
    assert StrippedAt(s, u, a, true, false);
    assert StrippedAt(u, t, 0, false, true);
    StrippedCompose(s, u, t, a);
  }

  /** Stripping the front and then the back strips both. */
  lemma StrippedCompose(s: string, u: string, t: string, a: nat)
    requires StrippedAt(s, u, a, true, false) && StrippedAt(u, t, 0, false, true)
    requires u == [] || u[0] != ' '
    ensures StrippedAt(s, t, a, true, true)
  {
    assert t == s[a..a + |t|] by {
      assert forall k :: 0 <= k < |t| ==> t[k] == u[k] == s[a + k];
    }
    forall k | a + |t| <= k < |s| ensures s[k] == ' ' {
      assert s[k] == u[k - a];
    }
  }

  /** `ts` without its trailing empty strings, as String.split with limit 0 returns it. */
  function DropTrailingEmpty(ts: seq<string>): (r: seq<string>)
    ensures |r| <= |ts| && r == ts[..|r|]
    ensures r == [] || r[|r| - 1] != ""
    ensures forall i :: |r| <= i < |ts| ==> ts[i] == ""
  {
    if ts != [] && ts[|ts| - 1] == "" then DropTrailingEmpty(ts[..|ts| - 1]) else ts
  }

  /**
   * csvLine.split(" *, *"): with no comma in the line the result is the line
   * itself; otherwise the trimmed pieces without trailing empty ones.
   */
  function Tokens(line: string): seq<string>
  {
    var p := CommaPieces(line);
    if |p| == 1 then p
    else DropTrailingEmpty(TrimPieces(p))
  }

  /**
   * What csvLine.split(" *, *") gives: comma-free tokens. A line without a comma
   * is its own single token. Otherwise token `i` is comma piece `i` stripped of
   * the spaces next to its commas, the last token is not empty, and only
   * pieces that strip to nothing are dropped, from the end.
   */
  lemma TokensOfLine(line: string)
    ensures var t := Tokens(line);
      forall i :: 0 <= i < |t| ==> ',' !in t[i]
    ensures ',' !in line ==> Tokens(line) == [line]
    ensures ',' in line ==>
      var t, p := Tokens(line), CommaPieces(line);
      && |t| <= |p| && (t == [] || t[|t| - 1] != "")
      && (forall i :: 0 <= i < |t| ==> Stripped(p[i], t[i], i > 0, i + 1 < |p|))
      && (forall i :: |t| <= i < |p| ==> Stripped(p[i], "", i > 0, i + 1 < |p|))
  {
    if ',' !in line {
      PiecesOfCommaFree(line);
    } else {
      TokensOfCommaLine(line);
    }
  }

  /** The comma case of TokensOfLine. */
  lemma TokensOfCommaLine(line: string)
    requires ',' in line
    ensures var t, p := Tokens(line), CommaPieces(line);
      && (forall i :: 0 <= i < |t| ==> ',' !in t[i])
      && |t| <= |p| && (t == [] || t[|t| - 1] != "")
      && (forall i :: 0 <= i < |t| ==> Stripped(p[i], t[i], i > 0, i + 1 < |p|))
      && (forall i :: |t| <= i < |p| ==> Stripped(p[i], "", i > 0, i + 1 < |p|))
  {
    TokensOfComma(line);
    StrippedTokens(CommaPieces(line), Tokens(line));
  }

  /** A line with a comma has at least two comma pieces, so Tokens trims them. */
  lemma TokensOfComma(line: string)
    requires ',' in line
    ensures Tokens(line) == DropTrailingEmpty(TrimPieces(CommaPieces(line)))
  {
    assert |CommaPieces(line)| >= 2;
  }

  /** The trimmed pieces without trailing empty ones, as the comma case of Tokens builds them. */
  lemma StrippedTokens(p: seq<string>, r: seq<string>)
    requires forall i :: 0 <= i < |p| ==> ',' !in p[i]
    requires r == DropTrailingEmpty(TrimPieces(p))
    ensures && (forall i :: 0 <= i < |r| ==> ',' !in r[i])
      && |r| <= |p| && (r == [] || r[|r| - 1] != "")
      && (forall i :: 0 <= i < |r| ==> Stripped(p[i], r[i], i > 0, i + 1 < |p|))
      && (forall i :: |r| <= i < |p| ==> Stripped(p[i], "", i > 0, i + 1 < |p|))
  {
    var t := TrimPieces(p);
    forall i | 0 <= i < |p| ensures Stripped(p[i], t[i], i > 0, i + 1 < |p|) {
      TrimPieceStripped(p, i);
    }
    forall i | 0 <= i < |r| ensures ',' !in r[i] && r[i] == t[i] {
      assert r[i] == t[i];
      StrippedPart(p[i], t[i], i > 0, i + 1 < |p|);
    }
  }

  /** A stripped string is a slice of the original, so it has no comma the original lacks. */
  lemma StrippedPart(s: string, t: string, front: bool, back: bool)
    requires Stripped(s, t, front, back)
    ensures forall c :: c in t ==> c in s
  {
    var a: nat :| StrippedAt(s, t, a, front, back);
    assert forall k :: 0 <= k < |t| ==> t[k] == s[a + k];
  }

  /**
   * Every piece trimmed as TrimPiece says. The ensures is the element-wise view
   * the proofs use; TrimPieceStripped says what the trimming means.
   */
  function TrimPieces(p: seq<string>): (t: seq<string>)
    ensures |t| == |p| && forall i :: 0 <= i < |p| ==> t[i] == TrimPiece(p, i)
  {
    seq(|p|, i requires 0 <= i < |p| => TrimPiece(p, i))
  }

  /** A field as a CSV writer emits it: no comma inside and no space at either end. */
  predicate PlainField(t: string) {
    ',' !in t && (t == [] || (t[0] != ' ' && t[|t| - 1] != ' '))
  }

  /** The line "f0, f1, ..., fn", with a trailing comma when asked for. */
  function CsvLine(fields: seq<string>, trailingComma: bool): string
    requires |fields| >= 1
  {
    Join(fields, ", ") + (if trailingComma then "," else "")
  }

  lemma {:induction false} JoinWithComma(p: seq<string>)
    requires |p| >= 2
    ensures ',' in Join(p, ",")
  {
    var s := Join(p, ",");
    assert s[|p[0]|] == ',';
  }

  lemma {:induction false} PiecesOfCommaFree(s: string)
    requires ',' !in s
    ensures CommaPieces(s) == [s]
  {
    var p := CommaPieces(s);
    if |p| >= 2 {
      JoinWithComma(p);
    }
  }

  lemma {:induction false} PiecesOfConcat(a: string, b: string)
    requires ',' !in a
    ensures CommaPieces(a + "," + b) == [a] + CommaPieces(b)
  {
    if a != [] {
      assert (a + "," + b)[1..] == a[1..] + "," + b;
      PiecesOfConcat(a[1..], b);
      assert [a[0]] + a[1..] == a;
    } else {
      assert (a + "," + b) == [','] + b;
      assert ([','] + b)[1..] == b;
    }
  }

  /** Pieces are determined by the string: a comma-free split that joins back to `s` is its split. */
  lemma {:induction false} PiecesUnique(q: seq<string>)
    requires |q| >= 1 && forall i :: 0 <= i < |q| ==> ',' !in q[i]
    ensures CommaPieces(Join(q, ",")) == q
  {
    if |q| == 1 {
      PiecesOfCommaFree(q[0]);
    } else {
      PiecesUnique(q[1..]);
      PiecesOfConcat(q[0], Join(q[1..], ","));
      assert [q[0]] + q[1..] == q;
    }
  }

  /**
   * The fields of a ", " separated line, with the space moved into the piece
   * after each comma. The ensures is the element-wise view the proofs use.
   */
  function SpacedFields(ts: seq<string>): (q: seq<string>)
    requires |ts| >= 1
    ensures |q| == |ts| && q[0] == ts[0]
    ensures forall i :: 1 <= i < |ts| ==> q[i] == " " + ts[i]
  {
    [ts[0]] + seq(|ts| - 1, i requires 0 <= i < |ts| - 1 => " " + ts[i + 1])
  }

  lemma {:induction false} JoinSpaced(ts: seq<string>)
    requires |ts| >= 1
    ensures Join(ts, ", ") == Join(SpacedFields(ts), ",")
  {
    if |ts| > 1 {
      JoinSpaced(ts[1..]);
      var q, q' := SpacedFields(ts), SpacedFields(ts[1..]);
      var r := q[1..];
      assert |r| == |q'| && r[0] == " " + q'[0];
      assert r[1..] == q'[1..];
      if |r| > 1 {
        assert Join(r, ",") == " " + Join(q', ",");
      } else {
        assert Join(r, ",") == " " + Join(q', ",");
      }
    }
  }

  lemma {:induction false} JoinSnoc(q: seq<string>, t: string)
    requires |q| >= 1
    ensures Join(q + [t], ",") == Join(q, ",") + "," + t
  {
    if |q| > 1 {
      assert (q + [t])[1..] == q[1..] + [t];
      JoinSnoc(q[1..], t);
    }
  }

  /** The comma pieces of a line written from plain fields. */
  lemma {:induction false} PiecesOfCsvLine(ts: seq<string>, trailingComma: bool)
    requires |ts| >= 1 && forall i :: 0 <= i < |ts| ==> PlainField(ts[i])
    ensures trailingComma ==> CommaPieces(CsvLine(ts, trailingComma)) == SpacedFields(ts) + [""]
    ensures !trailingComma ==> CommaPieces(CsvLine(ts, trailingComma)) == SpacedFields(ts)
  {
    var q := SpacedFields(ts);
    JoinSpaced(ts);
    var q' := if trailingComma then q + [""] else q;
    if trailingComma {
      JoinSnoc(q, "");
    }
    assert Join(q', ",") == CsvLine(ts, trailingComma);
    forall i | 0 <= i < |q'| ensures ',' !in q'[i] {
      if 0 < i < |ts| {
        assert q'[i] == [' '] + ts[i];
      }
    }
    PiecesUnique(q');
  }

  /** A plain field loses nothing to trimming. */
  lemma TrimPlain(t: string)
    requires PlainField(t)
    ensures TrimLeadingSpaces(t) == t && TrimTrailingSpaces(t) == t
  {
  }

  /** The piece a writer emits for plain field `t`, " " + t after the first, trims back to `t`. */
  lemma TrimPieceOfField(p: seq<string>, i: nat, t: string)
    requires i < |p| && PlainField(t)
    requires p[i] == if i > 0 then " " + t else t
    ensures TrimPiece(p, i) == t
  {
    TrimPlain(t);
    if i > 0 {
      assert p[i][1..] == t;
    }
  }

  /** Trimming the pieces of a line written from plain fields gives the fields back. */
  lemma {:induction false} TrimSpacedFields(ts: seq<string>, p: seq<string>)
    requires |ts| >= 1 && forall i :: 0 <= i < |ts| ==> PlainField(ts[i])
    requires |p| >= |ts| && p[..|ts|] == SpacedFields(ts)
    ensures forall i :: 0 <= i < |ts| ==> TrimPiece(p, i) == ts[i]
  {
    forall i | 0 <= i < |ts| ensures TrimPiece(p, i) == ts[i] {
      assert p[i] == SpacedFields(ts)[i];
      TrimPieceOfField(p, i, ts[i]);
    }
  }

  /** Splitting a line written from plain fields gives the fields back, with or without a trailing comma. */
  lemma {:induction false} TokensOfCsvLine(ts: seq<string>, trailingComma: bool)
    requires |ts| >= 1 && forall i :: 0 <= i < |ts| ==> PlainField(ts[i])
    requires ts[|ts| - 1] != ""
    ensures Tokens(CsvLine(ts, trailingComma)) == ts
  {
    var p := CommaPieces(CsvLine(ts, trailingComma));
    PiecesOfCsvLine(ts, trailingComma);
    TokensOfPieces(ts, p, trailingComma);
  }

  lemma {:induction false} TokensOfPieces(ts: seq<string>, p: seq<string>, trailingComma: bool)
    requires |ts| >= 1 && forall i :: 0 <= i < |ts| ==> PlainField(ts[i])
    requires ts[|ts| - 1] != ""
    requires p == if trailingComma then SpacedFields(ts) + [""] else SpacedFields(ts)
    ensures (if |p| == 1 then p else DropTrailingEmpty(TrimPieces(p))) == ts
  {
    TrimmedPieces(ts, p, trailingComma);
    if trailingComma {
      DropOneEmpty(ts);
    }
  }

  /** One empty string after a non-empty last one is all that DropTrailingEmpty removes. */
  lemma DropOneEmpty(ts: seq<string>)
    requires |ts| >= 1 && ts[|ts| - 1] != ""
    ensures DropTrailingEmpty(ts + [""]) == ts
  {
    assert (ts + [""])[..|ts|] == ts;
  }

  lemma {:induction false} TrimmedPieces(ts: seq<string>, p: seq<string>, trailingComma: bool)
    requires |ts| >= 1 && forall i :: 0 <= i < |ts| ==> PlainField(ts[i])
    requires p == if trailingComma then SpacedFields(ts) + [""] else SpacedFields(ts)
    ensures TrimPieces(p) == if trailingComma then ts + [""] else ts
  {
    assert p[..|ts|] == SpacedFields(ts);
    var trimmed := TrimPieces(p);
    TrimSpacedFields(ts, p);
    if trailingComma {
      assert trimmed[|ts|] == TrimLeadingSpaces("") == "";
    }
  }

  // ---------------------------------------------------------------------------
  // Parsing: TransactionRecord.of(csvLine)
  // ---------------------------------------------------------------------------

  /** Character-wise String.toLowerCase on the ASCII letters (the only ones the header test can match). */
  function LowerAscii(s: string): string {
    seq(|s|, i requires 0 <= i < |s| => if 'A' <= s[i] <= 'Z' then (s[i] as int + 32) as char else s[i])
  }

  /** The header test: the first token is "id" or the second is "date", ignoring case. */
  predicate IsHeader(tokens: seq<string>)
    requires |tokens| >= 2
  {
    LowerAscii(tokens[0]) == "id" || LowerAscii(tokens[1]) == "date"
  }

  /** What `of` does with a line: no record (null), a record, or an IllegalArgumentException. */
  datatype ParseOutcome = NoRecord | Parsed(record: Record) | IllegalArgument(typeName: string)

  /**
   * What `of` makes of the tokens of a non-null line. Fewer than five tokens
   * and a header give no record. Otherwise the type token must name a
   * TransactionType exactly, or the parse fails hard; an unparsable date gives
   * Long.MIN_VALUE and an unparsable amount leaves 0.0, without failing.
   */
  function OfTokens(tokens: seq<string>, f: Formats): (o: ParseOutcome)
    ensures o.NoRecord? <==> |tokens| < 5 || IsHeader(tokens)
    ensures o.IllegalArgument? ==> ValueOf(o.typeName).None?
    ensures !o.NoRecord? ==> (o.IllegalArgument? <==> ValueOf(tokens[4]).None?)
    ensures o.Parsed? ==>
      var r := o.record;
      && r.id == tokens[0] && r.merchant == tokens[3] && !r.reversed
      && Name(r.kind) == tokens[4]
      && (r.date == if f.parseDate(tokens[1]).Some? then f.parseDate(tokens[1]).value else LONG_MIN)
      && (r.amount == if f.parseAmount(tokens[2]).Some? then f.parseAmount(tokens[2]).value else 0.0)
      && (r.relatedTransaction.Some? <==> |tokens| > 5 && tokens[5] != "")
      && (r.relatedTransaction.Some? ==> r.relatedTransaction.value == tokens[5])
  {
    if |tokens| < 5 || IsHeader(tokens) then NoRecord
    else
      match ValueOf(tokens[4])
      case None => IllegalArgument(tokens[4])
      case Some(kind) =>
        Parsed(Record(
          id := tokens[0],
          date := f.parseDate(tokens[1]).GetOr(LONG_MIN),
          amount := f.parseAmount(tokens[2]).GetOr(0.0),
          merchant := tokens[3],
          kind := kind,
          relatedTransaction := if |tokens| > 5 && |tokens[5]| > 0 then Some(tokens[5]) else None,
          reversed := false))
  }

  /** TransactionRecord.of: a null line gives no record; otherwise the line's tokens decide. */
  function Of(csvLine: Option<string>, f: Formats): (o: ParseOutcome)
    ensures csvLine.None? ==> o.NoRecord?
    ensures csvLine.Some? ==> o == OfTokens(Tokens(csvLine.value), f)
  {
    if csvLine.None? then NoRecord else OfTokens(Tokens(csvLine.value), f)
  }

  /** A line without a comma, the empty line included, is one token and gives no record. */
  lemma LineWithoutComma(line: string, f: Formats)
    requires ',' !in line
    ensures Tokens(line) == [line]
    ensures Of(Some(line), f).NoRecord?
  {
    PiecesOfCommaFree(line);
  }

  /**
   * A line written from five or six plain fields, with or without a trailing
   * comma, parses to the record those fields describe.
   */
  lemma OfCsvLine(fields: seq<string>, trailingComma: bool, f: Formats)
    requires 5 <= |fields| <= 6 && forall i :: 0 <= i < |fields| ==> PlainField(fields[i])
    requires fields[|fields| - 1] != ""
    requires LowerAscii(fields[0]) != "id" && LowerAscii(fields[1]) != "date"
    requires ValueOf(fields[4]).Some?
    ensures Of(Some(CsvLine(fields, trailingComma)), f) == Parsed(Record(
      fields[0],
      f.parseDate(fields[1]).GetOr(LONG_MIN),
      f.parseAmount(fields[2]).GetOr(0.0),
      fields[3],
      ValueOf(fields[4]).value,
      if |fields| == 6 then Some(fields[5]) else None,
      false))
  {
    TokensOfCsvLine(fields, trailingComma);
    OfFields(fields, f);
  }

  /** Five or six non-header tokens with a valid type give the record they describe. */
  lemma OfFields(fields: seq<string>, f: Formats)
    requires 5 <= |fields| <= 6 && fields[|fields| - 1] != ""
    requires LowerAscii(fields[0]) != "id" && LowerAscii(fields[1]) != "date"
    requires ValueOf(fields[4]).Some?
    ensures OfTokens(fields, f) == Parsed(Record(
      fields[0],
      f.parseDate(fields[1]).GetOr(LONG_MIN),
      f.parseAmount(fields[2]).GetOr(0.0),
      fields[3],
      ValueOf(fields[4]).value,
      if |fields| == 6 then Some(fields[5]) else None,
      false))
  {
    assert !IsHeader(fields);
  }
}
