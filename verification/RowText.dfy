/** The body of a ClickHouse insert: one JSON object per line, with version and deletion columns
 * added to each document. */
module RowText {
  import opened Documents
  import opened Text
  import opened JsonText

  const VERSION_COLUMN := Ascii("\"_version\":")
  const DELETED_COLUMN := Ascii(",\"_is_deleted\":")

  predicate IsBlank(c: Byte) { c == 32 || c == 9 || c == 13 || c == 10 }

  /** A space, a tab, a carriage return and a line feed. */
  lemma BlanksAre(c: Byte)
    ensures IsBlank(c) <==> c == ' ' as int || c == '\t' as int || c == '\r' as int || c == '\n' as int
  {
  }

  function Trimmed(b: Bytes): (r: Bytes)
    ensures r <= b && (r != [] ==> !IsBlank(r[|r| - 1])) && forall i :: |r| <= i < |b| ==> IsBlank(b[i])
  {
    if b == [] || !IsBlank(b[|b| - 1]) then b else Trimmed(b[..|b| - 1])
  }

  /** A body the sink can extend: after trimming, something between braces. */
  predicate IsObject(body: Bytes) {
    var t := Trimmed(body);
    |t| >= 2 && t[0] == OPEN_BRACE && t[|t| - 1] == CLOSE_BRACE
  }

  /** The last part of a row, from the version's digits on. */
  function Ending(version: nat, deleted: bool): Bytes {
    Decimal(version) + (DELETED_COLUMN + [if deleted then 49 else 48, CLOSE_BRACE])
  }

  /** The part of a row before the version's digits. */
  function Beginning(trimmed: Bytes): Bytes
    requires |trimmed| >= 2
  {
    Reopened(trimmed) + VERSION_COLUMN
  }

  /** The body with its brace open again. */
  function Reopened(trimmed: Bytes): Bytes
    requires |trimmed| >= 2
  {
    trimmed[..|trimmed| - 1] + if |trimmed| > 2 then [COMMA] else []
  }

  function Row(d: Doc): Bytes
    requires IsObject(d.body)
  {
    Beginning(Trimmed(d.body)) + Ending(d.version, d.deleted)
  }

  predicate AllObjects(docs: seq<Doc>) {
    forall i :: 0 <= i < |docs| ==> IsObject(docs[i].body)
  }

  predicate OneLineEach(docs: seq<Doc>) {
    forall i :: 0 <= i < |docs| ==> NEWLINE !in Trimmed(docs[i].body)
  }

  function RowLines(docs: seq<Doc>): (lines: seq<Bytes>)
    requires AllObjects(docs)
  {
    seq(|docs|, i requires 0 <= i < |docs| => Row(docs[i]))
  }

  lemma RowLinesAppend(docs: seq<Doc>, d: Doc)
    requires AllObjects(docs) && IsObject(d.body)
    ensures AllObjects(docs + [d]) && RowLines(docs + [d]) == RowLines(docs) + [Row(d)]
  {
  }

  lemma OneMoreRow(docs: seq<Doc>, i: nat)
    requires i < |docs| && AllObjects(docs[..i]) && IsObject(docs[i].body)
    ensures AllObjects(docs[..i + 1])
    ensures Unlines(RowLines(docs[..i + 1])) == Unlines(RowLines(docs[..i])) + (Row(docs[i]) + [NEWLINE])
  {
    RowLinesAppend(docs[..i], docs[i]);
    assert docs[..i + 1] == docs[..i] + [docs[i]];
    UnlinesOneMore(RowLines(docs[..i]), Row(docs[i]));
  }

  method EncodeLines(docs: seq<Doc>) returns (body: Option<Bytes>)
    ensures body == if AllObjects(docs) then Some(Unlines(RowLines(docs))) else None
  {
    var buf: Bytes := [];
    for i := 0 to |docs|
      invariant AllObjects(docs[..i]) && buf == Unlines(RowLines(docs[..i]))
    {
      var row := EncodeRow(docs[i]);
      if row.None? {
        return None;
      }
      OneMoreRow(docs, i);
      buf := buf + (row.value + [NEWLINE]);
    }
    assert docs[..|docs|] == docs;
    return Some(buf);
  }

  /** The insert's body, or None when a document is not a JSON object. */
  method EncodeRows(docs: seq<Doc>) returns (body: Option<Bytes>)
    ensures body == if AllObjects(docs) then Some(Unlines(RowLines(docs))) else None
    ensures body.Some? <==> forall i :: 0 <= i < |docs| ==>
              var text := Trimmed(docs[i].body);
              |text| >= 2 && text[0] == '{' as int && text[|text| - 1] == '}' as int
    ensures body.Some? && OneLineEach(docs) ==> ReadRows(body.value) == Some(Rows(docs))
  {
    body := EncodeLines(docs);
    if body.Some? && OneLineEach(docs) {
      RowsRoundTrip(docs);
    }
  }

  method EncodeRow(d: Doc) returns (row: Option<Bytes>)
    ensures row == if IsObject(d.body) then Some(Row(d)) else None
  {
    if |d.body| == 0 {
      return None;
    }
    var trimmed := Trimmed(d.body);
    if |trimmed| < 2 || trimmed[0] != OPEN_BRACE || trimmed[|trimmed| - 1] != CLOSE_BRACE {
      return None;
    }
    var r := trimmed[..|trimmed| - 1];
    if |trimmed| > 2 {
      r := r + [COMMA];
    }
    r := r + VERSION_COLUMN;
    assert r == Beginning(trimmed);
    return Some(r + (Decimal(d.version) + (DELETED_COLUMN + [if d.deleted then 49 else 48, CLOSE_BRACE])));
  }

  // Reading it back -----------------------------------------------------------------------------

  datatype Written = Written(body: Bytes, version: nat, deleted: bool)

  function TrailingDigits(b: Bytes): (n: nat)
    ensures n <= |b| && AllDigits(b[|b| - n..])
  {
    if b == [] || !IsDigit(b[|b| - 1]) then 0
    else
      var n := TrailingDigits(b[..|b| - 1]);
      assert b[|b| - (n + 1)..] == b[..|b| - 1][|b| - 1 - n..] + [b[|b| - 1]];
      n + 1
  }

  lemma {:induction false} TrailingDigitsAre(front: Bytes, digits: Bytes)
    requires AllDigits(digits) && front != [] && !IsDigit(front[|front| - 1])
    ensures TrailingDigits(front + digits) == |digits|
  {
    if digits == [] {
      assert front + digits == front;
    } else {
      TrailingDigitsAre(front, digits[..|digits| - 1]);
      assert (front + digits)[..|front + digits| - 1] == front + digits[..|digits| - 1];
    }
  }

  predicate EndsWith(b: Bytes, suffix: Bytes) {
    |suffix| <= |b| && b[|b| - |suffix|..] == suffix
  }

  lemma SuffixOff(front: Bytes, suffix: Bytes)
    ensures EndsWith(front + suffix, suffix) && (front + suffix)[..|front + suffix| - |suffix|] == front
  {
  }

  /** The document body from what precedes the version column. */
  function ReadBody(b: Bytes): Bytes {
    if |b| <= 1 then b + [CLOSE_BRACE] else b[..|b| - 1] + [CLOSE_BRACE]
  }

  function ReadVersion(b: Bytes, deleted: bool): Option<Written> {
    var n := TrailingDigits(b);
    var front := b[..|b| - n];
    if n == 0 || !EndsWith(front, VERSION_COLUMN) then None
    else Some(Written(ReadBody(front[..|front| - |VERSION_COLUMN|]), NumberOf(b[|b| - n..]), deleted))
  }

  /** Reads a row from its end: the columns the sink added are the last two. */
  function ReadRow(line: Bytes): Option<Written> {
    if EndsWith(line, DELETED_COLUMN + [49, CLOSE_BRACE]) then ReadVersion(line[..|line| - |DELETED_COLUMN| - 2], true)
    else if EndsWith(line, DELETED_COLUMN + [48, CLOSE_BRACE]) then
        ReadVersion(line[..|line| - |DELETED_COLUMN| - 2], false)
    else None
  }

  lemma VersionReadsBack(trimmed: Bytes, version: nat, deleted: bool)
    requires |trimmed| >= 2 && trimmed[|trimmed| - 1] == CLOSE_BRACE
    ensures ReadVersion(Beginning(trimmed) + Decimal(version), deleted) == Some(Written(trimmed, version, deleted))
  {
    var digits := Decimal(version);
    var front := Reopened(trimmed);
    assert Beginning(trimmed) == front + VERSION_COLUMN;
    assert Beginning(trimmed)[|Beginning(trimmed)| - 1] == VERSION_COLUMN[|VERSION_COLUMN| - 1] &&
           !IsDigit(VERSION_COLUMN[|VERSION_COLUMN| - 1]);
    TrailingDigitsAre(Beginning(trimmed), digits);
    SuffixOff(Beginning(trimmed), digits);
    SuffixOff(front, VERSION_COLUMN);
    DecimalRoundTrip(version);
    ReopenedReadsBack(trimmed);
  }

  lemma ReopenedReadsBack(trimmed: Bytes)
    requires |trimmed| >= 2 && trimmed[|trimmed| - 1] == CLOSE_BRACE
    ensures ReadBody(Reopened(trimmed)) == trimmed
  {
    assert trimmed == trimmed[..|trimmed| - 1] + [CLOSE_BRACE];
  }

  lemma TailReadsBack(front: Bytes, deleted: bool)
    ensures ReadRow(front + (DELETED_COLUMN + [if deleted then 49 else 48, CLOSE_BRACE])) == ReadVersion(front, deleted)
  {
    var tail := DELETED_COLUMN + [if deleted then 49 else 48, CLOSE_BRACE];
    SuffixOff(front, tail);
    if !deleted {
      assert tail[|tail| - 2] != (DELETED_COLUMN + [49, CLOSE_BRACE])[|tail| - 2];
    }
  }

  /** A row carries the document's trimmed body, its version and whether it is a deletion. */
  lemma RowRoundTrip(d: Doc)
    requires IsObject(d.body)
    ensures ReadRow(Row(d)) == Some(AsWritten(d))
  {
    var t := Trimmed(d.body);
    VersionReadsBack(t, d.version, d.deleted);
    TailReadsBack(Beginning(t) + Decimal(d.version), d.deleted);
    Grouped(Beginning(t), Decimal(d.version), DELETED_COLUMN + [if d.deleted then 49 else 48, CLOSE_BRACE]);
  }

  function AsWritten(d: Doc): Written { Written(Trimmed(d.body), d.version, d.deleted) }

  function ReadRows(b: Bytes): Option<seq<Written>> {
    match Lines(b)
    case None => None
    case Some(lines) => ReadAll(ReadRow, lines)
  }

  function Rows(docs: seq<Doc>): seq<Written> {
    seq(|docs|, i requires 0 <= i < |docs| => AsWritten(docs[i]))
  }

  lemma RowIsOneLine(d: Doc)
    requires IsObject(d.body) && NEWLINE !in Trimmed(d.body)
    ensures NEWLINE !in Row(d)
  {
    assert NEWLINE !in VERSION_COLUMN && NEWLINE !in DELETED_COLUMN;
    assert AllDigits(Decimal(d.version));
    assert NEWLINE !in Decimal(d.version);
    assert NEWLINE !in Beginning(Trimmed(d.body));
    assert NEWLINE !in Ending(d.version, d.deleted);
  }

  /** An insert stands for exactly the rows it was made from, in order, as long as no body holds a
    * raw line feed before its closing brace. */
  lemma RowsRoundTrip(docs: seq<Doc>)
    requires AllObjects(docs) && OneLineEach(docs)
    ensures ReadRows(Unlines(RowLines(docs))) == Some(Rows(docs))
  {
    forall i | 0 <= i < |docs|
      ensures NEWLINE !in RowLines(docs)[i] && ReadRow(RowLines(docs)[i]) == Some(Rows(docs)[i])
    {
      RowIsOneLine(docs[i]);
      RowRoundTrip(docs[i]);
    }
    LinesRoundTrip(RowLines(docs));
    ReadAllIs(ReadRow, RowLines(docs), Rows(docs));
  }
}
