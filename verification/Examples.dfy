/** The texts themselves, on small inputs, byte for byte. */
module Examples {
  import opened Documents
  import opened Text
  import JsonText
  import KeyText
  import BulkText
  import RowText
  import InsertTokens
  import opened Bodies

  lemma Same(a: Bytes, b: Bytes)
    requires |a| == |b| && forall i :: 0 <= i < |a| ==> a[i] == b[i]
    ensures a == b
  {
  }

  lemma ThousandInDecimal()
    ensures Decimal(1000) == Ascii("1000") && Decimal(1001) == Ascii("1001") && Decimal(2) == Ascii("2")
  {
    assert Decimal(1) == [49] && Decimal(10) == [49, 48] && Decimal(100) == [49, 48, 48];
    Same(Decimal(1000), Ascii("1000"));
    Same(Decimal(1001), Ascii("1001"));
    Same(Decimal(2), Ascii("2"));
  }

  /** A tab, a line feed, a carriage return, a quote, a backslash, another control byte and a letter. */
  const HARD: Bytes := [9, 10, 13, 34, 92, 1, 65]

  lemma HardBytesEscaped(style: JsonText.Style)
    ensures JsonText.Escaped(style, HARD) ==
            JsonText.EscapedByte(style, 9) + (JsonText.EscapedByte(style, 10) + (JsonText.EscapedByte(style, 13) +
            (JsonText.EscapedByte(style, 34) + (JsonText.EscapedByte(style, 92) + (JsonText.EscapedByte(style, 1) +
            JsonText.EscapedByte(style, 65))))))
  {
    assert HARD[1..] == [10, 13, 34, 92, 1, 65] && HARD[1..][1..] == [13, 34, 92, 1, 65];
    assert [13, 34, 92, 1, 65][1..] == [34, 92, 1, 65] && [34, 92, 1, 65][1..] == [92, 1, 65];
    assert [92, 1, 65][1..] == [1, 65] && [1, 65][1..] == [65] && [65][1..] == [];
    assert JsonText.EscapedByte(style, 65) + [] == JsonText.EscapedByte(style, 65);
  }

  /** The pipeline's encoder uses the short escapes. */
  lemma ShortEscapes()
    ensures JsonText.Quoted(JsonText.Short, HARD) == Ascii("\"\\t\\n\\r\\\"\\\\\\u0001A\"")
  {
    HardBytesEscaped(JsonText.Short);
    Same(JsonText.Quoted(JsonText.Short, HARD), Ascii("\"\\t\\n\\r\\\"\\\\\\u0001A\""));
  }

  lemma LongPieces()
    ensures JsonText.EscapedByte(JsonText.Long, 9) == Ascii("\\u0009")
    ensures JsonText.EscapedByte(JsonText.Long, 10) == Ascii("\\u000a")
    ensures JsonText.EscapedByte(JsonText.Long, 13) == Ascii("\\u000d")
    ensures JsonText.EscapedByte(JsonText.Long, 1) == Ascii("\\u0001")
    ensures JsonText.EscapedByte(JsonText.Long, 34) == Ascii("\\\"")
    ensures JsonText.EscapedByte(JsonText.Long, 92) == Ascii("\\\\")
  {
  }

  /** The sink's encoder spells every control byte out. */
  lemma LongEscapes()
    ensures JsonText.Escaped(JsonText.Long, HARD) ==
            Ascii("\\u0009") + (Ascii("\\u000a") + (Ascii("\\u000d") + (Ascii("\\\"") + (Ascii("\\\\") +
            (Ascii("\\u0001") + Ascii("A"))))))
  {
    HardBytesEscaped(JsonText.Long);
    LongPieces();
    assert JsonText.EscapedByte(JsonText.Long, 65) == Ascii("A");
  }

  /** Two key columns, the second with the separator in it. */
  lemma CompoundKey()
    ensures KeyText.PlainKey([Ascii("100"), Ascii("S:9")]) == Ascii("100:S%3A9")
  {
    var parts := [Ascii("100"), Ascii("S:9")];
    KeyText.UnreservedIsItsOwnEscape(Ascii("100"));
    var s := Ascii("S:9");
    assert s == [83, 58, 57] && s[1..] == [58, 57] && s[1..][1..] == [57] && s[1..][1..][1..] == [];
    assert KeyText.Escaped(s) == [83, 37, 51, 65, 57];
    assert KeyText.EscapedParts(parts) == [Ascii("100"), [83, 37, 51, 65, 57]];
    assert KeyText.EscapedParts(parts)[1..] == [[83, 37, 51, 65, 57]];
    Same(KeyText.PlainKey(parts), Ascii("100:S%3A9"));
  }

  /** An insert's token: first key, first version, last version, rows. */
  lemma TokenText()
    ensures InsertTokens.Token([Doc(Ascii("1"), 1000, false, []), Doc(Ascii("2"), 1001, false, [])]) ==
            Ascii("1-1000-1001-2")
  {
    ThousandInDecimal();
    Same(InsertTokens.Token([Doc(Ascii("1"), 1000, false, []), Doc(Ascii("2"), 1001, false, [])]),
         Ascii("1-1000-1001-2"));
  }

  lemma BodyIsTrimmed(b: Bytes)
    requires b != [] && !RowText.IsBlank(b[|b| - 1])
    ensures RowText.Trimmed(b) == b
  {
  }

  /** A ClickHouse row, alive and deleted. */
  lemma RowLine(deleted: bool)
    ensures RowText.IsObject(Ascii("{\"id\":1}"))
    ensures RowText.Row(Doc(Ascii("1"), 1000, deleted, Ascii("{\"id\":1}"))) ==
            Ascii("{\"id\":1") + Ascii(",") + Ascii("\"_version\":") +
            (Ascii("1000") + (Ascii(",\"_is_deleted\":") + if deleted then Ascii("1}") else Ascii("0}")))
  {
    var body := Ascii("{\"id\":1}");
    BodyIsTrimmed(body);
    ThousandInDecimal();
    Same(body[..|body| - 1], Ascii("{\"id\":1"));
    assert [COMMA] == Ascii(",") && Ascii("1}") == [49, CLOSE_BRACE] && Ascii("0}") == [48, CLOSE_BRACE];
  }

  lemma PlainWordQuoted()
    ensures JsonText.Quoted(JsonText.Long, Ascii("42")) == Ascii("\"42\"")
  {
    var s := Ascii("42");
    assert s == [52, 50] && s[1..] == [50] && s[1..][1..] == [];
    assert JsonText.Escaped(JsonText.Long, s) == [52, 50];
    Same(JsonText.Quoted(JsonText.Long, s), Ascii("\"42\""));
  }

  /** An Elasticsearch bulk item: an action line and, unless it deletes, the document. */
  lemma BulkItem(index: Bytes, deleted: bool)
    ensures BulkText.EncodedDoc(index, Doc(Ascii("42"), 1000, deleted, Ascii("{}"))) ==
            (if deleted then Ascii("{\"delete\":{\"_index\":") else Ascii("{\"index\":{\"_index\":")) + index +
            Ascii(",\"_id\":") + (Ascii("\"42\"") + (Ascii(",\"version\":") + (Ascii("1000") +
            Ascii(",\"version_type\":\"external\"}}")))) + [10] + (if deleted then [] else Ascii("{}") + [10])
  {
    PlainWordQuoted();
    ThousandInDecimal();
  }

  lemma RowTexts(utf8: Bytes -> bool)
    ensures EncodedValue(utf8, KInt, Number(-12)) == Some(Ascii("-12"))
    ensures EncodedValue(utf8, KBool, Number(1)) == Some(Ascii("true"))
    ensures EncodedValue(utf8, KBool, Number(0)) == Some(Ascii("false"))
    ensures EncodedValue(utf8, KText, Null) == EncodedValue(utf8, KJson, Text([])) == Some(Ascii("null"))
  {
    assert Decimal(1) == [49] && Decimal(12) == [49, 50];
    assert SignedDecimal(-12) == [45, 49, 50];
    Same(SignedDecimal(-12), Ascii("-12"));
  }

  /** A row of a number, a truth value and a null: the columns stand in the order of the fields. */
  lemma RowBody(utf8: Bytes -> bool, id: Bytes, paid: Bytes, note: Bytes)
    ensures var fields := [Field(0, id, KInt), Field(2, paid, KBool), Field(1, note, KText)];
            EncodedFields(utf8, fields, [Number(-12), Null, Number(1)]) ==
            Some(Ascii("{") + (id + Ascii("-12") + Ascii(",") + (paid + Ascii("true") + Ascii(",") +
                 (note + Ascii("null")))) + Ascii("}"))
  {
    var fields := [Field(0, id, KInt), Field(2, paid, KBool), Field(1, note, KText)];
    var row := [Number(-12), Null, Number(1)];
    RowTexts(utf8);
    var a, b, c := id + Ascii("-12"), paid + Ascii("true"), note + Ascii("null");
    assert FieldText(utf8, fields[0], row) == Some(a) && FieldText(utf8, fields[1], row) == Some(b);
    assert FieldText(utf8, fields[2], row) == Some(c);
    assert FieldTexts(utf8, fields, row) == [a, b, c];
    ThreeJoined(a, b, c);
    assert Ascii("{") == [OPEN_BRACE] && Ascii("}") == [CLOSE_BRACE] && Ascii(",") == [COMMA];
  }

  lemma ThreeJoined(a: Bytes, b: Bytes, c: Bytes)
    ensures Join([a, b, c], COMMA) == a + [COMMA] + (b + [COMMA] + c)
  {
    assert [a, b, c][1..] == [b, c] && [b, c][1..] == [c];
    assert Join([c], COMMA) == c;
    assert Join([b, c], COMMA) == b + [COMMA] + c;
  }
}
