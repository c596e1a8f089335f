/** The newline-delimited body of an Elasticsearch bulk request. */
module BulkText {
  import opened Documents
  import opened Text
  import opened JsonText

  const INDEX_OPEN := Ascii("{\"index\":{\"_index\":")
  const DELETE_OPEN := Ascii("{\"delete\":{\"_index\":")
  const ID := Ascii(",\"_id\":")
  const VERSION := Ascii(",\"version\":")
  const CLOSE := Ascii(",\"version_type\":\"external\"}}")

  /** Everything before the document's key. `index` is the index name, already a JSON string. */
  function Opening(index: Bytes, deleted: bool): Bytes {
    (if deleted then DELETE_OPEN else INDEX_OPEN) + index + ID
  }

  function ActionLine(index: Bytes, d: Doc): Bytes {
    Opening(index, d.deleted) + (Quoted(Long, d.key) + (VERSION + (Decimal(d.version) + CLOSE)))
  }

  function EncodedDoc(index: Bytes, d: Doc): Bytes {
    ActionLine(index, d) + [NEWLINE] + if d.deleted then [] else d.body + [NEWLINE]
  }

  function Encoded(index: Bytes, docs: seq<Doc>): Bytes {
    if docs == [] then [] else EncodedDoc(index, docs[0]) + Encoded(index, docs[1..])
  }

  predicate Sendable(d: Doc) { d.key != [] && (d.deleted || d.body != []) }

  /** One document's lines. */
  method EncodeDoc(index: Bytes, d: Doc) returns (lines: Option<Bytes>)
    ensures lines == if Sendable(d) then Some(EncodedDoc(index, d)) else None
  {
    if d.key == [] {
      return None;
    }
    var line := Opening(index, d.deleted);
    line := AppendKeyString(line, d.key);
    line := line + VERSION + Decimal(d.version) + CLOSE;
    Associates(Opening(index, d.deleted), Quoted(Long, d.key), VERSION, Decimal(d.version), CLOSE);
    assert line == ActionLine(index, d);
    line := line + [NEWLINE];
    if !d.deleted {
      if |d.body| == 0 {
        return None;
      }
      line := line + (d.body + [NEWLINE]);
    }
    assert line + [] == line;
    return Some(line);
  }

  lemma Associates(a: Bytes, b: Bytes, c: Bytes, d: Bytes, e: Bytes)
    ensures a + b + c + d + e == a + (b + (c + (d + e)))
  {
  }

  /** What is written so far, with the rest of the batch, makes the body. */
  ghost predicate WrittenUpTo(index: Bytes, buf: Bytes, docs: seq<Doc>, i: nat) {
    i <= |docs| && buf + Encoded(index, docs[i..]) == Encoded(index, docs)
  }

  lemma NoneWritten(index: Bytes, docs: seq<Doc>)
    ensures WrittenUpTo(index, [], docs, 0)
  {
    assert docs[0..] == docs;
  }

  lemma OneMoreWritten(index: Bytes, buf: Bytes, docs: seq<Doc>, i: nat)
    requires i < |docs| && WrittenUpTo(index, buf, docs, i)
    ensures WrittenUpTo(index, buf + EncodedDoc(index, docs[i]), docs, i + 1)
  {
    assert docs[i..][1..] == docs[i + 1..];
  }

  lemma AllWritten(index: Bytes, buf: Bytes, docs: seq<Doc>)
    requires WrittenUpTo(index, buf, docs, |docs|)
    ensures buf == Encoded(index, docs)
  {
  }

  predicate AllSendable(docs: seq<Doc>) {
    forall i :: 0 <= i < |docs| ==> Sendable(docs[i])
  }

  method EncodeDocs(index: Bytes, docs: seq<Doc>) returns (body: Option<Bytes>)
    ensures body == if AllSendable(docs) then Some(Encoded(index, docs)) else None
  {
    var buf: Bytes := [];
    NoneWritten(index, docs);
    for i := 0 to |docs|
      invariant forall j :: 0 <= j < i ==> Sendable(docs[j])
      invariant WrittenUpTo(index, buf, docs, i)
    {
      var lines := EncodeDoc(index, docs[i]);
      if lines.None? {
        return None;
      }
      OneMoreWritten(index, buf, docs, i);
      buf := buf + lines.value;
    }
    AllWritten(index, buf, docs);
    return Some(buf);
  }

  /** No body would break the framing. */
  predicate OneLineBodies(docs: seq<Doc>) {
    forall i :: 0 <= i < |docs| ==> docs[i].deleted || NEWLINE !in docs[i].body
  }

  /** The request body, or None when a document has no key or lacks the body it needs. */
  method EncodeBulk(index: Bytes, docs: seq<Doc>) returns (body: Option<Bytes>)
    ensures body == if AllSendable(docs) then Some(Encoded(index, docs)) else None
    ensures body.Some? <==> forall i :: 0 <= i < |docs| ==> docs[i].key != [] && (docs[i].deleted || docs[i].body != [])
    ensures body.Some? && NoControls(index) && OneLineBodies(docs) ==>
              ReadBulk(index, body.value) == Some(AllOnTheWire(docs))
  {
    body := EncodeDocs(index, docs);
    if NoControls(index) && OneLineBodies(docs) {
      BulkRoundTrip(index, docs);
    }
  }

  // Reading it back -----------------------------------------------------------------------------

  function ReadAfterKey(key: Bytes, deleted: bool, b: Bytes): Option<Doc> {
    if !StartsWith(b, VERSION) then None else
      var digits := b[|VERSION|..];
      var n := DigitRun(digits);
      if n == 0 || digits[n..] != CLOSE then None
      else Some(Doc(key, NumberOf(digits[..n]), deleted, []))
  }

  function ReadAfterOpening(deleted: bool, b: Bytes): Option<Doc> {
    match ReadString(b)
    case None => None
    case Some((key, rest)) => ReadAfterKey(key, deleted, rest)
  }

  function ReadAction(index: Bytes, line: Bytes): Option<Doc> {
    if StartsWith(line, Opening(index, true)) then ReadAfterOpening(true, line[|Opening(index, true)|..])
    else if StartsWith(line, Opening(index, false)) then ReadAfterOpening(false, line[|Opening(index, false)|..])
    else None
  }

  /** One document off the front of a bulk body. */
  function ReadDoc(index: Bytes, b: Bytes): Option<(Doc, Bytes)> {
    var (line, rest) := CutAt(b, NEWLINE);
    match (ReadAction(index, line), rest)
    case (Some(d), Some(more)) =>
      if d.deleted then Some((d, more)) else
        var (body, after) := CutAt(more, NEWLINE);
        if after.None? then None else Some((d.(body := body), after.value))
    case _ => None
  }

  function ReadBulk(index: Bytes, b: Bytes): Option<seq<Doc>>
    decreases |b|
  {
    if b == [] then Some([]) else
      match ReadDoc(index, b)
      case None => None
      case Some((d, rest)) =>
        if |rest| >= |b| then None else
          match ReadBulk(index, rest)
          case None => None
          case Some(ds) => Some([d] + ds)
  }

  /** A deletion is sent without a body. */
  function OnTheWire(d: Doc): Doc { if d.deleted then d.(body := []) else d }

  function AllOnTheWire(docs: seq<Doc>): seq<Doc> {
    seq(|docs|, i requires 0 <= i < |docs| => OnTheWire(docs[i]))
  }

  lemma ActionReadsBack(index: Bytes, d: Doc)
    ensures ReadAction(index, ActionLine(index, d)) == Some(d.(body := []))
  {
    var afterVersion := Decimal(d.version) + CLOSE;
    var afterKey := VERSION + afterVersion;
    var afterOpening := Quoted(Long, d.key) + afterKey;
    PrefixOff(Opening(index, d.deleted), afterOpening);
    StringRoundTrip(Long, d.key, afterKey);
    PrefixOff(VERSION, afterVersion);
    DigitRunIs(Decimal(d.version), CLOSE);
    assert afterVersion[..|Decimal(d.version)|] == Decimal(d.version);
    assert afterVersion[|Decimal(d.version)|..] == CLOSE;
    DecimalRoundTrip(d.version);
    assert ReadAfterOpening(d.deleted, afterOpening) == Some(d.(body := []));
    if !d.deleted {
      assert Opening(index, false)[2] == INDEX_OPEN[2] && Opening(index, true)[2] == DELETE_OPEN[2];
      assert ActionLine(index, d)[2] == INDEX_OPEN[2];
    }
  }

  lemma OpeningsHaveNoControls()
    ensures NoControls(INDEX_OPEN) && NoControls(DELETE_OPEN)
  {
    assert NoControls(INDEX_OPEN);
    assert NoControls(DELETE_OPEN);
  }

  lemma FixedTextHasNoControls()
    ensures NoControls(ID) && NoControls(VERSION) && NoControls(CLOSE)
  {
    assert NoControls(ID);
    assert NoControls(VERSION);
    assert NoControls(CLOSE);
  }

  lemma NoControlsConcat(a: Bytes, b: Bytes)
    requires NoControls(a) && NoControls(b)
    ensures NoControls(a + b)
  {
  }

  lemma ActionIsOneLine(index: Bytes, d: Doc)
    requires NoControls(index)
    ensures NoControls(ActionLine(index, d))
  {
    OpeningsHaveNoControls();
    FixedTextHasNoControls();
    QuotedHasNoControls(Long, d.key);
    var open := if d.deleted then DELETE_OPEN else INDEX_OPEN;
    NoControlsConcat(open, index);
    NoControlsConcat(open + index, ID);
    DecimalHasNoControls(d.version);
    NoControlsConcat(Decimal(d.version), CLOSE);
    NoControlsConcat(VERSION, Decimal(d.version) + CLOSE);
    NoControlsConcat(Quoted(Long, d.key), VERSION + (Decimal(d.version) + CLOSE));
    NoControlsConcat(Opening(index, d.deleted), Quoted(Long, d.key) + (VERSION + (Decimal(d.version) + CLOSE)));
  }

  lemma DecimalHasNoControls(n: nat)
    ensures NoControls(Decimal(n))
  {
    assert AllDigits(Decimal(n));
  }

  lemma DeletionReadsBack(index: Bytes, d: Doc, line: Bytes, rest: Bytes)
    requires NEWLINE !in line && ReadAction(index, line) == Some(d.(body := [])) && d.deleted
    ensures ReadDoc(index, line + [NEWLINE] + rest) == Some((OnTheWire(d), rest))
  {
    CutAtIs(line, NEWLINE, rest);
  }

  lemma IndexingReadsBack(index: Bytes, d: Doc, line: Bytes, rest: Bytes)
    requires NEWLINE !in line && ReadAction(index, line) == Some(d.(body := [])) && !d.deleted && NEWLINE !in d.body
    ensures ReadDoc(index, line + [NEWLINE] + (d.body + [NEWLINE] + rest)) == Some((OnTheWire(d), rest))
  {
    CutAtIs(line, NEWLINE, d.body + [NEWLINE] + rest);
    CutAtIs(d.body, NEWLINE, rest);
  }

  lemma FrameReadsBack(index: Bytes, d: Doc, line: Bytes, rest: Bytes)
    requires NEWLINE !in line && ReadAction(index, line) == Some(d.(body := []))
    requires d.deleted || NEWLINE !in d.body
    ensures ReadDoc(index, line + [NEWLINE] + (if d.deleted then [] else d.body + [NEWLINE]) + rest) ==
            Some((OnTheWire(d), rest))
  {
    if d.deleted {
      DeletionReadsBack(index, d, line, rest);
      assert line + [NEWLINE] + [] == line + [NEWLINE];
    } else {
      IndexingReadsBack(index, d, line, rest);
      Grouped(line + [NEWLINE], d.body + [NEWLINE], rest);
    }
  }

  lemma NoNewline(b: Bytes)
    requires NoControls(b)
    ensures NEWLINE !in b
  {
  }

  lemma DocReadsBack(index: Bytes, d: Doc, rest: Bytes)
    requires NoControls(index) && (d.deleted || NEWLINE !in d.body)
    ensures ReadDoc(index, EncodedDoc(index, d) + rest) == Some((OnTheWire(d), rest))
  {
    ActionIsOneLine(index, d);
    NoNewline(ActionLine(index, d));
    ActionReadsBack(index, d);
    FrameReadsBack(index, d, ActionLine(index, d), rest);
  }

  lemma FirstOnTheWire(docs: seq<Doc>)
    requires docs != []
    ensures AllOnTheWire(docs) == [OnTheWire(docs[0])] + AllOnTheWire(docs[1..])
  {
  }

  lemma BulkReadsOn(index: Bytes, first: Bytes, rest: Bytes, d: Doc, ds: seq<Doc>)
    requires first != [] && ReadDoc(index, first + rest) == Some((d, rest)) && ReadBulk(index, rest) == Some(ds)
    ensures ReadBulk(index, first + rest) == Some([d] + ds)
  {
  }

  /** A bulk body stands for exactly the documents it was made from, in order, as long as no body
    * holds a raw line feed. */
  lemma {:induction false} BulkRoundTrip(index: Bytes, docs: seq<Doc>)
    requires NoControls(index) && OneLineBodies(docs)
    ensures ReadBulk(index, Encoded(index, docs)) == Some(AllOnTheWire(docs))
  {
    if docs == [] {
      assert AllOnTheWire(docs) == [];
    } else {
      BulkRoundTrip(index, docs[1..]);
      DocReadsBack(index, docs[0], Encoded(index, docs[1..]));
      FirstOnTheWire(docs);
      BulkReadsOn(index, EncodedDoc(index, docs[0]), Encoded(index, docs[1..]), OnTheWire(docs[0]),
                  AllOnTheWire(docs[1..]));
    }
  }

  // And no further than that ---------------------------------------------------------------------

  function Newlines(b: Bytes): nat {
    if b == [] then 0 else (if b[0] == NEWLINE then 1 else 0) + Newlines(b[1..])
  }

  lemma {:induction false} NewlinesAppend(a: Bytes, b: Bytes)
    ensures Newlines(a + b) == Newlines(a) + Newlines(b)
  {
    if a == [] {
      assert a + b == b;
    } else {
      NewlinesAppend(a[1..], b);
      assert (a + b)[1..] == a[1..] + b;
    }
  }

  lemma {:induction false} NewlinesNone(b: Bytes)
    ensures Newlines(b) == 0 <==> NEWLINE !in b
  {
    if b != [] {
      NewlinesNone(b[1..]);
      assert b == [b[0]] + b[1..];
    }
  }

  /** The lines a receiver must see for the documents to be told apart. */
  function LinesNeeded(docs: seq<Doc>): nat {
    if docs == [] then 0 else (if docs[0].deleted then 1 else 2) + LinesNeeded(docs[1..])
  }

  lemma OneLineFirst(docs: seq<Doc>)
    requires docs != []
    ensures OneLineBodies(docs) <==> (docs[0].deleted || NEWLINE !in docs[0].body) && OneLineBodies(docs[1..])
  {
    assert forall i :: 0 < i < |docs| ==> docs[i] == docs[1..][i - 1];
  }

  /** The framing holds exactly when no body holds a raw line feed: every other body makes a line
    * too many. */
  lemma {:induction false} LinesExactlyWhen(index: Bytes, docs: seq<Doc>)
    requires NoControls(index)
    ensures Newlines(Encoded(index, docs)) >= LinesNeeded(docs)
    ensures Newlines(Encoded(index, docs)) == LinesNeeded(docs) <==> OneLineBodies(docs)
  {
    if docs != [] {
      var d := docs[0];
      LinesExactlyWhen(index, docs[1..]);
      OneLineFirst(docs);
      NewlinesAppend(EncodedDoc(index, d), Encoded(index, docs[1..]));
      DocNewlines(index, d);
    }
  }

  lemma DocNewlines(index: Bytes, d: Doc)
    requires NoControls(index)
    ensures Newlines(EncodedDoc(index, d)) >= if d.deleted then 1 else 2
    ensures Newlines(EncodedDoc(index, d)) == (if d.deleted then 1 else 2) <==> d.deleted || NEWLINE !in d.body
  {
    ActionIsOneLine(index, d);
    NewlinesNone(ActionLine(index, d));
    NewlinesAppend(ActionLine(index, d), [NEWLINE]);
    assert Newlines([NEWLINE]) == 1;
    if d.deleted {
      assert EncodedDoc(index, d) == ActionLine(index, d) + [NEWLINE];
    } else {
      NewlinesAppend(ActionLine(index, d) + [NEWLINE], d.body + [NEWLINE]);
      NewlinesAppend(d.body, [NEWLINE]);
      NewlinesNone(d.body);
    }
  }
}
