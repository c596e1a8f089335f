/** Encoding a row's selected columns as one JSON object. */
module Bodies {
  import opened Documents
  import opened Text
  import opened JsonText
  import opened MemberNumbers
  import RowText

  datatype Value = Null | Text(bytes: Bytes) | Number(n: int)

  type Row = seq<Value>

  /** Column kinds. `KRendered` is every kind whose text a library makes (floats, decimals, dates, base64
    * and texts of other character sets): quoted, or written as it is. */
  datatype Kind =
    | KBool | KInt | KUint | KText | KJson
    | KRendered(render: Value -> Option<Bytes>, quoted: bool)
    | KEnum(labels: seq<Bytes>)
    | KSet(labels: seq<Bytes>)

  /** `key` is the field's JSON name with its colon. */
  datatype Field = Field(position: nat, key: Bytes, kind: Kind)

  const NULL := Ascii("null")
  const TRUE := Ascii("true")
  const FALSE := Ascii("false")

  function SignedDecimal(n: int): Bytes { if n < 0 then [MINUS] + Decimal(-n) else Decimal(n) }

  /** A 64-bit number seen as bits. */
  function ToBits(n: int): bv64 { (n % 0x1_0000_0000_0000_0000) as bv64 }

  /** A value's JSON text, or None when the column cannot hold it. */
  function EncodedValue(utf8: Bytes -> bool, kind: Kind, v: Value): Option<Bytes> {
    if v.Null? then Some(NULL) else
      match kind
      case KBool => if v.Number? then Some(if v.n != 0 then TRUE else FALSE) else None
      case KInt => if v.Number? then Some(SignedDecimal(v.n)) else None
      case KUint => if v.Number? && v.n >= 0 then Some(SignedDecimal(v.n)) else None
      case KText => if v.Text? && utf8(v.bytes) then Some(Quoted(Short, v.bytes)) else None
      case KJson => if v.Text? then Some(if v.bytes == [] then NULL else v.bytes) else None
      case KRendered(render, quoted) =>
        (match render(v)
         case None => None
         case Some(text) => Some(if quoted then Quoted(Short, text) else text))
      case KEnum(labels) =>
        if v.Text? || MemberLabel(labels, v.n).None? then None else Some(Quoted(Short, MemberLabel(labels, v.n).value))
      case KSet(labels) => if v.Number? then Some(ArrayText(Chosen(labels, ToBits(v.n)))) else None
  }

  predicate Fits(fields: seq<Field>, row: Row) {
    forall i :: 0 <= i < |fields| ==> fields[i].position < |row|
  }

  function FieldText(utf8: Bytes -> bool, f: Field, row: Row): Option<Bytes>
    requires f.position < |row|
  {
    match EncodedValue(utf8, f.kind, row[f.position])
    case None => None
    case Some(text) => Some(f.key + text)
  }

  /** Every column can be encoded. */
  predicate AllEncode(utf8: Bytes -> bool, fields: seq<Field>, row: Row)
    requires Fits(fields, row)
  {
    forall i :: 0 <= i < |fields| ==> FieldText(utf8, fields[i], row).Some?
  }

  function FieldTexts(utf8: Bytes -> bool, fields: seq<Field>, row: Row): (ts: seq<Bytes>)
    requires Fits(fields, row) && AllEncode(utf8, fields, row)
    ensures |ts| == |fields| && forall i :: 0 <= i < |fields| ==> ts[i] == FieldText(utf8, fields[i], row).value
  {
    seq(|fields|, i requires 0 <= i < |fields| => FieldText(utf8, fields[i], row).value)
  }

  function OpenObject(texts: seq<Bytes>): Bytes { [OPEN_BRACE] + Join(texts, COMMA) }

  function ObjectText(texts: seq<Bytes>): Bytes { OpenObject(texts) + [CLOSE_BRACE] }

  lemma ObjectOneMore(texts: seq<Bytes>, text: Bytes)
    ensures OpenObject(texts + [text]) == OpenObject(texts) + (if texts == [] then [] else [COMMA]) + text
  {
    JoinOneMore(texts, text, COMMA);
    if texts == [] {
      assert OpenObject(texts) + [] == [OPEN_BRACE];
    }
  }

  /** The row's body, or None when a column cannot be encoded. */
  function EncodedFields(utf8: Bytes -> bool, fields: seq<Field>, row: Row): Option<Bytes>
    requires Fits(fields, row)
  {
    if AllEncode(utf8, fields, row) then Some(ObjectText(FieldTexts(utf8, fields, row))) else None
  }

  method EncodeFields(utf8: Bytes -> bool, fields: seq<Field>, row: Row) returns (body: Option<Bytes>)
    requires Fits(fields, row)
    ensures body == EncodedFields(utf8, fields, row)
  {
    var buf: Bytes := [OPEN_BRACE];
    ghost var texts: seq<Bytes> := [];
    for i := 0 to |fields|
      invariant |texts| == i && forall j :: 0 <= j < i ==> FieldText(utf8, fields[j], row) == Some(texts[j])
      invariant buf == OpenObject(texts)
    {
      var text := FieldText(utf8, fields[i], row);
      if text.None? {
        return None;
      }
      ObjectOneMore(texts, text.value);
      buf := buf + if i > 0 then [COMMA] else [];
      buf := buf + text.value;
      texts := texts + [text.value];
    }
    assert texts == FieldTexts(utf8, fields, row);
    return Some(buf + [CLOSE_BRACE]);
  }

  // Reading it back -----------------------------------------------------------------------------

  /** What a JSON value says. */
  datatype Meaning = Nothing | Truth(holds: bool) | Integer(n: int) | String(bytes: Bytes) | List(items: seq<Bytes>)

  /** Kinds whose text is made here or quoted here, so that it can be told where it ends. */
  predicate Readable(kind: Kind) { !kind.KJson? && (kind.KRendered? ==> kind.quoted) }

  /** What a column's value means. A number stands for true exactly when it is not zero; an ENUM's number for
    * its label; a SET's for the labels whose bits are set. */
  function MeaningOf(kind: Kind, v: Value): Meaning
    requires Readable(kind)
  {
    if v.Null? then Nothing else
      match kind
      case KBool => Truth(v.Number? && v.n != 0)
      case KInt => if v.Number? then Integer(v.n) else Nothing
      case KUint => if v.Number? then Integer(v.n) else Nothing
      case KText => if v.Text? then String(v.bytes) else Nothing
      case KRendered(render, _) => if render(v).Some? then String(render(v).value) else Nothing
      case KEnum(labels) =>
        if v.Number? && MemberLabel(labels, v.n).Some? then String(MemberLabel(labels, v.n).value) else Nothing
      case KSet(labels) => if v.Number? then List(Chosen(labels, ToBits(v.n))) else Nothing
  }

  function ReadUnsigned(b: Bytes): Option<(nat, Bytes)> {
    var n := DigitRun(b);
    if n == 0 then None else Some((NumberOf(b[..n]), b[n..]))
  }

  const MINUS: Byte := 45

  /** A decimal number, with a minus sign if it has one. */
  function ReadInteger(b: Bytes): Option<(int, Bytes)> {
    var negative := b != [] && b[0] == MINUS;
    var digits := ReadUnsigned(if negative then b[1..] else b);
    if digits.None? then None else
      var n: int := digits.value.0;
      Some((if negative then -n else n, digits.value.1))
  }

  /** Reads a value of a known kind off the front of a text. */
  function ReadValue(kind: Kind, b: Bytes): Option<(Meaning, Bytes)>
    requires Readable(kind)
  {
    if StartsWith(b, Ascii("null")) then Some((Nothing, b[4..])) else
      match kind
      case KBool =>
        if StartsWith(b, Ascii("true")) then Some((Truth(true), b[4..]))
        else if StartsWith(b, Ascii("false")) then Some((Truth(false), b[5..]))
        else None
      case KInt => (match ReadInteger(b) case None => None case Some((n, rest)) => Some((Integer(n), rest)))
      case KUint => (match ReadInteger(b) case None => None case Some((n, rest)) => Some((Integer(n), rest)))
      case KSet(_) => (match ReadArray(b) case None => None case Some((items, rest)) => Some((List(items), rest)))
      case _ => (match ReadString(b) case None => None case Some((s, rest)) => Some((String(s), rest)))
  }

  lemma UnsignedReadsBack(n: nat, rest: Bytes)
    requires rest != [] ==> !IsDigit(rest[0])
    ensures ReadUnsigned(Decimal(n) + rest) == Some((n, rest))
  {
    var b := Decimal(n) + rest;
    DigitRunIs(Decimal(n), rest);
    DecimalRoundTrip(n);
    assert b[..|Decimal(n)|] == Decimal(n) && b[|Decimal(n)|..] == rest;
  }

  lemma NegativeReadsBack(n: int, rest: Bytes)
    requires n >= 0 && (rest != [] ==> !IsDigit(rest[0]))
    ensures ReadInteger([MINUS] + (Decimal(n) + rest)) == Some((-n, rest))
  {
    var digits := Decimal(n) + rest;
    UnsignedReadsBack(n, rest);
    assert ([MINUS] + digits)[0] == MINUS && ([MINUS] + digits)[1..] == digits;
  }

  /** Every integer is read back from its text, so different integers have different texts. */
  lemma IntegerReadsBack(n: int, rest: Bytes)
    requires rest != [] ==> !IsDigit(rest[0])
    ensures ReadInteger(SignedDecimal(n) + rest) == Some((n, rest))
  {
    if n < 0 {
      NegativeReadsBack(-n, rest);
      Grouped([MINUS], Decimal(-n), rest);
    } else {
      UnsignedReadsBack(n, rest);
      assert IsDigit(Decimal(n)[0]);
      assert (Decimal(n) + rest)[0] == Decimal(n)[0];
    }
  }

  /** A text that does not begin with an n is no null. */
  lemma NoNull(b: Bytes)
    requires b != [] && b[0] != 'n' as int
    ensures !StartsWith(b, Ascii("null"))
  {
  }

  lemma TruthReadsBack(holds: bool, rest: Bytes)
    ensures ReadValue(KBool, (if holds then TRUE else FALSE) + rest) == Some((Truth(holds), rest))
  {
    var word := if holds then TRUE else FALSE;
    assert word[0] == if holds then 't' as int else 'f' as int;
    NoNull(word + rest);
    PrefixOff(word, rest);
    assert !holds ==> (word + rest)[0] != Ascii("true")[0];
  }

  lemma NumberReadsBack(kind: Kind, n: int, rest: Bytes)
    requires (kind.KInt? || kind.KUint?) && (rest != [] ==> !IsDigit(rest[0]))
    ensures ReadValue(kind, SignedDecimal(n) + rest) == Some((Integer(n), rest))
  {
    IntegerReadsBack(n, rest);
    NoNull(SignedDecimal(n) + rest);
  }

  lemma QuotedReadsBack(kind: Kind, s: Bytes, rest: Bytes)
    requires Readable(kind) && (kind.KText? || kind.KEnum? || kind.KRendered?)
    ensures ReadValue(kind, Quoted(Short, s) + rest) == Some((String(s), rest))
  {
    StringRoundTrip(Short, s, rest);
    NoNull(Quoted(Short, s) + rest);
  }

  lemma ListReadsBack(kind: Kind, items: seq<Bytes>, rest: Bytes)
    requires kind.KSet?
    ensures ReadValue(kind, ArrayText(items) + rest) == Some((List(items), rest))
  {
    ArrayReadsBack(items, rest);
    NoNull(ArrayText(items) + rest);
  }

  lemma NullReadsBack(kind: Kind, rest: Bytes)
    requires Readable(kind)
    ensures ReadValue(kind, NULL + rest) == Some((Nothing, rest))
  {
    PrefixOff(NULL, rest);
  }

  /** A value's text, followed by anything that is not a digit, is read back as what the value means. */
  lemma ValueReadsBack(utf8: Bytes -> bool, kind: Kind, v: Value, rest: Bytes)
    requires Readable(kind) && EncodedValue(utf8, kind, v).Some? && (rest != [] ==> !IsDigit(rest[0]))
    ensures ReadValue(kind, EncodedValue(utf8, kind, v).value + rest) == Some((MeaningOf(kind, v), rest))
  {
    if v.Null? {
      NullReadsBack(kind, rest);
    } else {
      match kind
      case KBool => TruthReadsBack(v.n != 0, rest);
      case KInt => NumberReadsBack(kind, v.n, rest);
      case KUint => NumberReadsBack(kind, v.n, rest);
      case KText => QuotedReadsBack(kind, v.bytes, rest);
      case KRendered(render, _) => QuotedReadsBack(kind, render(v).value, rest);
      case KEnum(labels) => QuotedReadsBack(kind, MemberLabel(labels, v.n).value, rest);
      case KSet(labels) => ListReadsBack(kind, Chosen(labels, ToBits(v.n)), rest);
    }
  }

  /** Which values a column can hold: any null; numbers for the numeric kinds, an unsigned one not below zero;
    * valid text for a text column; the number of a declared member, or 0, for an ENUM. */
  lemma EncodedExactlyWhen(utf8: Bytes -> bool, kind: Kind, v: Value)
    ensures EncodedValue(utf8, kind, v).Some? <==>
            || v.Null?
            || ((kind.KBool? || kind.KInt? || kind.KSet?) && v.Number?)
            || (kind.KUint? && v.Number? && v.n >= 0)
            || (kind.KText? && v.Text? && utf8(v.bytes))
            || (kind.KJson? && v.Text?)
            || (kind.KRendered? && kind.render(v).Some?)
            || (kind.KEnum? && v.Number? && 0 <= v.n <= |kind.labels|)
  {
  }

  ghost predicate AllReadable(fields: seq<Field>) {
    forall i :: 0 <= i < |fields| ==> Readable(fields[i].kind)
  }

  function Meanings(fields: seq<Field>, row: Row): (ms: seq<Meaning>)
    requires Fits(fields, row) && forall i :: 0 <= i < |fields| ==> Readable(fields[i].kind)
    ensures |ms| == |fields|
    ensures forall i :: 0 <= i < |fields| ==> ms[i] == MeaningOf(fields[i].kind, row[fields[i].position])
  {
    seq(|fields|, i requires 0 <= i < |fields| => MeaningOf(fields[i].kind, row[fields[i].position]))
  }

  /** Reads an object's fields, each behind its name. */
  function ReadFields(fields: seq<Field>, b: Bytes): Option<(seq<Meaning>, Bytes)>
    requires forall i :: 0 <= i < |fields| ==> Readable(fields[i].kind)
  {
    if fields == [] then Some(([], b))
    else if !StartsWith(b, fields[0].key) then None
    else match ReadValue(fields[0].kind, b[|fields[0].key|..])
      case None => None
      case Some((m, rest)) =>
        if |fields| == 1 then Some(([m], rest))
        else if !StartsWith(rest, [COMMA]) then None
        else match ReadFields(fields[1..], rest[1..])
          case None => None
          case Some((ms, after)) => Some(([m] + ms, after))
  }

  function ReadObject(fields: seq<Field>, b: Bytes): Option<seq<Meaning>>
    requires forall i :: 0 <= i < |fields| ==> Readable(fields[i].kind)
  {
    if !StartsWith(b, [OPEN_BRACE]) then None
    else match ReadFields(fields, b[1..])
      case None => None
      case Some((ms, rest)) => if rest == [CLOSE_BRACE] then Some(ms) else None
  }

  lemma FieldReadsBack(utf8: Bytes -> bool, f: Field, row: Row, rest: Bytes)
    requires f.position < |row| && Readable(f.kind) && FieldText(utf8, f, row).Some?
    requires rest != [] ==> !IsDigit(rest[0])
    ensures var b := FieldText(utf8, f, row).value + rest;
            StartsWith(b, f.key) && ReadValue(f.kind, b[|f.key|..]) == Some((MeaningOf(f.kind, row[f.position]), rest))
  {
    var text := EncodedValue(utf8, f.kind, row[f.position]).value;
    ValueReadsBack(utf8, f.kind, row[f.position], rest);
    Grouped(f.key, text, rest);
    PrefixOff(f.key, text + rest);
  }

  lemma ReadFieldsOne(fields: seq<Field>, b: Bytes, m: Meaning, rest: Bytes)
    requires (forall i :: 0 <= i < |fields| ==> Readable(fields[i].kind)) && |fields| == 1
    requires StartsWith(b, fields[0].key) && ReadValue(fields[0].kind, b[|fields[0].key|..]) == Some((m, rest))
    ensures ReadFields(fields, b) == Some(([m], rest))
  {
  }

  lemma ReadFieldsNext(fields: seq<Field>, b: Bytes, m: Meaning, more: Bytes, ms: seq<Meaning>, rest: Bytes)
    requires (forall i :: 0 <= i < |fields| ==> Readable(fields[i].kind)) && |fields| > 1
    requires StartsWith(b, fields[0].key)
    requires ReadValue(fields[0].kind, b[|fields[0].key|..]) == Some((m, [COMMA] + more))
    requires ReadFields(fields[1..], more) == Some((ms, rest))
    ensures ReadFields(fields, b) == Some(([m] + ms, rest))
  {
    PrefixOff([COMMA], more);
  }

  lemma FirstAndOthers(utf8: Bytes -> bool, fields: seq<Field>, row: Row)
    requires Fits(fields, row) && AllReadable(fields) && AllEncode(utf8, fields, row) && fields != []
    ensures Fits(fields[1..], row) && AllReadable(fields[1..]) && AllEncode(utf8, fields[1..], row)
    ensures FieldText(utf8, fields[0], row).Some?
    ensures FieldTexts(utf8, fields, row)[0] == FieldText(utf8, fields[0], row).value
    ensures FieldTexts(utf8, fields, row)[1..] == FieldTexts(utf8, fields[1..], row)
    ensures Meanings(fields, row) == [MeaningOf(fields[0].kind, row[fields[0].position])] + Meanings(fields[1..], row)
  {
  }

  lemma {:induction false} FieldsReadBack(utf8: Bytes -> bool, fields: seq<Field>, row: Row, rest: Bytes)
    requires Fits(fields, row) && AllReadable(fields) && AllEncode(utf8, fields, row) && fields != []
    requires rest != [] ==> !IsDigit(rest[0])
    ensures ReadFields(fields, Join(FieldTexts(utf8, fields, row), COMMA) + rest) == Some((Meanings(fields, row), rest))
  {
    var f, texts := fields[0], FieldTexts(utf8, fields, row);
    var m := MeaningOf(f.kind, row[f.position]);
    FirstAndOthers(utf8, fields, row);
    if |fields| == 1 {
      FieldReadsBack(utf8, f, row, rest);
      ReadFieldsOne(fields, texts[0] + rest, m, rest);
      assert Meanings(fields, row) == [m];
    } else {
      var more := Join(texts[1..], COMMA) + rest;
      FieldsReadBack(utf8, fields[1..], row, rest);
      FieldReadsBack(utf8, f, row, [COMMA] + more);
      OneFieldMore(texts, rest);
      ReadFieldsNext(fields, texts[0] + ([COMMA] + more), m, more, Meanings(fields[1..], row), rest);
    }
  }

  lemma OneFieldMore(texts: seq<Bytes>, rest: Bytes)
    requires |texts| > 1
    ensures Join(texts, COMMA) + rest == texts[0] + ([COMMA] + (Join(texts[1..], COMMA) + rest))
  {
    Grouped(texts[0], [COMMA], Join(texts[1..], COMMA));
    Grouped(texts[0], [COMMA] + Join(texts[1..], COMMA), rest);
    Grouped([COMMA], Join(texts[1..], COMMA), rest);
  }

  /** A row's body is read back as what the row's selected columns mean, in order and nothing else. */
  lemma BodyReadsBack(utf8: Bytes -> bool, fields: seq<Field>, row: Row)
    requires Fits(fields, row) && AllReadable(fields) && EncodedFields(utf8, fields, row).Some?
    ensures ReadObject(fields, EncodedFields(utf8, fields, row).value) == Some(Meanings(fields, row))
  {
    var body, texts := EncodedFields(utf8, fields, row).value, FieldTexts(utf8, fields, row);
    Grouped([OPEN_BRACE], Join(texts, COMMA), [CLOSE_BRACE]);
    PrefixOff([OPEN_BRACE], Join(texts, COMMA) + [CLOSE_BRACE]);
    if fields == [] {
      assert Join(texts, COMMA) + [CLOSE_BRACE] == [CLOSE_BRACE];
      assert Meanings(fields, row) == [];
    } else {
      FieldsReadBack(utf8, fields, row, [CLOSE_BRACE]);
    }
  }

  /** A body is always a JSON object in the sink's sense, with nothing to trim. */
  lemma BodyIsObject(utf8: Bytes -> bool, fields: seq<Field>, row: Row)
    requires Fits(fields, row) && EncodedFields(utf8, fields, row).Some?
    ensures RowText.IsObject(EncodedFields(utf8, fields, row).value)
    ensures RowText.Trimmed(EncodedFields(utf8, fields, row).value) == EncodedFields(utf8, fields, row).value
  {
  }

  // One line ------------------------------------------------------------------------------------

  lemma {:induction false} JoinHasNone(parts: seq<Bytes>, sep: Byte, c: Byte)
    requires c != sep && forall i :: 0 <= i < |parts| ==> c !in parts[i]
    ensures c !in Join(parts, sep)
  {
    if |parts| > 1 {
      JoinHasNone(parts[1..], sep, c);
    }
  }

  lemma QuotedIsOneLine(s: Bytes)
    ensures NEWLINE !in Quoted(Short, s)
  {
    QuotedHasNoControls(Short, s);
  }

  lemma ArrayIsOneLine(items: seq<Bytes>)
    ensures NEWLINE !in ArrayText(items)
  {
    forall i | 0 <= i < |items| ensures NEWLINE !in QuotedAll(items)[i] {
      QuotedIsOneLine(items[i]);
    }
    JoinHasNone(QuotedAll(items), COMMA, NEWLINE);
  }

  lemma DecimalIsOneLine(n: int)
    ensures NEWLINE !in SignedDecimal(n)
  {
    var m := if n < 0 then -n else n;
    assert AllDigits(Decimal(m));
    assert NEWLINE !in Decimal(m);
  }

  /** Where a line feed can get through: a raw JSON column, or a text that is written unquoted. */
  predicate RawLineFeed(kind: Kind, v: Value) {
    match kind
    case KJson => v.Text? && NEWLINE in v.bytes
    case KRendered(render, quoted) => !v.Null? && !quoted && render(v).Some? && NEWLINE in render(v).value
    case _ => false
  }

  lemma ValueIsOneLineExactlyWhen(utf8: Bytes -> bool, kind: Kind, v: Value)
    requires EncodedValue(utf8, kind, v).Some?
    ensures NEWLINE in EncodedValue(utf8, kind, v).value <==> RawLineFeed(kind, v)
  {
    if kind.KRendered? && !v.Null? {
      QuotedIsOneLine(kind.render(v).value);
    } else if v.Text? {
      QuotedIsOneLine(v.bytes);
    } else if v.Number? {
      DecimalIsOneLine(v.n);
      if kind.KEnum? {
        QuotedIsOneLine(MemberLabel(kind.labels, v.n).value);
      } else if kind.KSet? {
        ArrayIsOneLine(Chosen(kind.labels, ToBits(v.n)));
      }
    }
  }

  lemma {:induction false} JoinHasSome(parts: seq<Bytes>, sep: Byte, c: Byte, i: nat)
    requires i < |parts| && c in parts[i]
    ensures c in Join(parts, sep)
  {
    if |parts| > 1 && i > 0 {
      JoinHasSome(parts[1..], sep, c, i - 1);
    }
  }

  /** A body is one line exactly when no raw column holds a line feed, whatever the others hold. */
  lemma BodyIsOneLineExactlyWhen(utf8: Bytes -> bool, fields: seq<Field>, row: Row)
    requires Fits(fields, row) && EncodedFields(utf8, fields, row).Some?
    requires forall i :: 0 <= i < |fields| ==> NEWLINE !in fields[i].key
    ensures NEWLINE in EncodedFields(utf8, fields, row).value <==>
            exists i :: 0 <= i < |fields| && RawLineFeed(fields[i].kind, row[fields[i].position])
  {
    var ts := FieldTexts(utf8, fields, row);
    forall i | 0 <= i < |ts| ensures NEWLINE in ts[i] <==> RawLineFeed(fields[i].kind, row[fields[i].position]) {
      ValueIsOneLineExactlyWhen(utf8, fields[i].kind, row[fields[i].position]);
    }
    if i :| 0 <= i < |ts| && NEWLINE in ts[i] {
      JoinHasSome(ts, COMMA, NEWLINE, i);
    } else {
      JoinHasNone(ts, COMMA, NEWLINE);
    }
  }
}
