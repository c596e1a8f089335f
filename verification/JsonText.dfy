/** JSON strings, as section 7 of RFC 8259 defines them. The pipeline and the Elasticsearch sink
 * each have an encoder; both are read back by one decoder. */
module JsonText {
  import opened Documents
  import opened Text

  const QUOTE: Byte := 34
  const BACKSLASH: Byte := 92

  /** Whether an encoder has the short escapes for line feed, carriage return and tab. */
  datatype Style = Short | Long

  function EscapedByte(style: Style, c: Byte): Bytes {
    if c == QUOTE || c == BACKSLASH then [BACKSLASH, c]
    else if style.Short? && c == 10 then [BACKSLASH, 110]
    else if style.Short? && c == 13 then [BACKSLASH, 114]
    else if style.Short? && c == 9 then [BACKSLASH, 116]
    else if c < 32 then [BACKSLASH, 117, 48, 48, LowerHex(c / 16), LowerHex(c % 16)]
    else [c]
  }

  function Escaped(style: Style, s: Bytes): Bytes {
    if s == [] then [] else EscapedByte(style, s[0]) + Escaped(style, s[1..])
  }

  function Quoted(style: Style, s: Bytes): Bytes { [QUOTE] + Escaped(style, s) + [QUOTE] }

  // Decoding ------------------------------------------------------------------------------------

  /** What one character of a JSON string stands for, and how many bytes it takes. Code points
    * above the first block are left to UTF-8 and appear as themselves. */
  function Character(b: Bytes): Option<(Byte, nat)> {
    if b == [] || b[0] == QUOTE || b[0] < 32 then None
    else if b[0] != BACKSLASH then Some((b[0], 1))
    else if |b| < 2 then None
    else if b[1] == QUOTE || b[1] == BACKSLASH || b[1] == 47 then Some((b[1], 2))
    else if b[1] == 98 then Some((8, 2))
    else if b[1] == 102 then Some((12, 2))
    else if b[1] == 110 then Some((10, 2))
    else if b[1] == 114 then Some((13, 2))
    else if b[1] == 116 then Some((9, 2))
    else if b[1] == 117 && |b| >= 6 && b[2] == 48 && b[3] == 48 && HexValue(b[4]).Some? && HexValue(b[5]).Some?
            && HexValue(b[4]).value < 8 then
      Some((HexValue(b[4]).value * 16 + HexValue(b[5]).value, 6))
    else None
  }

  function Prepended(c: Byte, r: Option<(Bytes, Bytes)>): Option<(Bytes, Bytes)> {
    if r.None? then None else Some(([c] + r.value.0, r.value.1))
  }

  /** Reads characters up to the closing quote: the text, and what follows it. */
  function ReadRest(b: Bytes): Option<(Bytes, Bytes)>
    decreases |b|
  {
    if b == [] then None
    else if b[0] == QUOTE then Some(([], b[1..]))
    else match Character(b)
      case None => None
      case Some((c, n)) => if 1 <= n <= |b| then Prepended(c, ReadRest(b[n..])) else None
  }

  /** Reads a JSON string off the front of a text. */
  function ReadString(b: Bytes): Option<(Bytes, Bytes)> {
    if b == [] || b[0] != QUOTE then None else ReadRest(b[1..])
  }

  lemma CharacterOf(style: Style, c: Byte, rest: Bytes)
    ensures var e := EscapedByte(style, c);
            Character(e + rest) == Some((c, |e|)) && |e| >= 1 && (e + rest)[|e|..] == rest && e[0] != QUOTE
  {
    var e := EscapedByte(style, c);
    assert (e + rest)[|e|..] == rest;
    assert forall i :: 0 <= i < |e| ==> (e + rest)[i] == e[i];
  }

  lemma {:induction false} EscapedReadsBack(style: Style, s: Bytes, rest: Bytes)
    ensures ReadRest(Escaped(style, s) + [QUOTE] + rest) == Some((s, rest))
  {
    if s == [] {
      assert ([QUOTE] + rest)[1..] == rest;
      assert Escaped(style, s) + [QUOTE] + rest == [QUOTE] + rest;
    } else {
      var tail := Escaped(style, s[1..]) + [QUOTE] + rest;
      EscapedReadsBack(style, s[1..], rest);
      CharacterOf(style, s[0], tail);
      Grouped(EscapedByte(style, s[0]), Escaped(style, s[1..]), [QUOTE]);
      Grouped(EscapedByte(style, s[0]), Escaped(style, s[1..]) + [QUOTE], rest);
      assert [s[0]] + s[1..] == s;
    }
  }

  /** Either encoder's output, wherever it stands in a text, is read back as the original bytes. */
  lemma StringRoundTrip(style: Style, s: Bytes, rest: Bytes)
    ensures ReadString(Quoted(style, s) + rest) == Some((s, rest))
  {
    EscapedReadsBack(style, s, rest);
    var text := Quoted(style, s) + rest;
    assert text[0] == QUOTE && text[1..] == Escaped(style, s) + [QUOTE] + rest;
  }

  /** No byte of the text needs a short escape. */
  predicate NoShortEscapes(s: Bytes) {
    s == [] || (s[0] != 9 && s[0] != 10 && s[0] != 13 && NoShortEscapes(s[1..]))
  }

  lemma {:induction false} EscapedLength(s: Bytes)
    ensures |Escaped(Short, s)| <= |Escaped(Long, s)|
    ensures |Escaped(Short, s)| == |Escaped(Long, s)| <==> NoShortEscapes(s)
    ensures NoShortEscapes(s) ==> Escaped(Short, s) == Escaped(Long, s)
  {
    if s != [] {
      EscapedLength(s[1..]);
    }
  }

  /** The encoders always agree on the meaning, and on the bytes exactly when the text holds no
    * tab, line feed or carriage return. */
  lemma EncodersAgree(s: Bytes)
    ensures ReadString(Quoted(Short, s)) == ReadString(Quoted(Long, s)) == Some((s, []))
    ensures Quoted(Short, s) == Quoted(Long, s) <==> NoShortEscapes(s)
  {
    StringRoundTrip(Short, s, []);
    StringRoundTrip(Long, s, []);
    assert Quoted(Short, s) + [] == Quoted(Short, s) && Quoted(Long, s) + [] == Quoted(Long, s);
    EscapedLength(s);
  }

  predicate NoControls(b: Bytes) {
    forall i :: 0 <= i < |b| ==> b[i] >= 32
  }

  lemma {:induction false} EscapedHasNoControls(style: Style, s: Bytes)
    ensures NoControls(Escaped(style, s))
  {
    if s != [] {
      EscapedHasNoControls(style, s[1..]);
    }
  }

  /** Neither encoder emits a control byte, so a string never breaks a line. */
  lemma QuotedHasNoControls(style: Style, s: Bytes)
    ensures NoControls(Quoted(style, s))
  {
    EscapedHasNoControls(style, s);
  }

  // The encoders themselves ---------------------------------------------------------------------

  lemma QuotedLater(style: Style, before: Bytes, s: Bytes, i: nat)
    requires i < |s|
    ensures before + EscapedByte(style, s[i]) + Escaped(style, s[i + 1..]) == before + Escaped(style, s[i..])
  {
    assert s[i..][1..] == s[i + 1..];
  }

  lemma AppendedReadsBack(style: Style, buf: Bytes, s: Bytes, r: Bytes)
    requires r == buf + [QUOTE] + Escaped(style, s) + [QUOTE]
    ensures r == buf + Quoted(style, s) && ReadString(r[|buf|..]) == Some((s, []))
  {
    StringRoundTrip(style, s, []);
    Grouped(buf, [QUOTE], Escaped(style, s));
    Grouped(buf, [QUOTE] + Escaped(style, s), [QUOTE]);
    assert r == buf + Quoted(style, s);
    assert r[|buf|..] == Quoted(style, s) == Quoted(style, s) + [];
  }

  /** The pipeline's encoder. */
  method AppendJsonString(buf: Bytes, s: Bytes) returns (r: Bytes)
    ensures r == buf + Quoted(Short, s)
    ensures ReadString(r[|buf|..]) == Some((s, []))
  {
    r := buf + [QUOTE];
    assert s[0..] == s;
    for i := 0 to |s|
      invariant r + Escaped(Short, s[i..]) == buf + [QUOTE] + Escaped(Short, s)
    {
      var c := s[i];
      QuotedLater(Short, r, s, i);
      if c == QUOTE {
        r := r + [BACKSLASH, QUOTE];
      } else if c == BACKSLASH {
        r := r + [BACKSLASH, BACKSLASH];
      } else if c == 10 {
        r := r + [BACKSLASH, 110];
      } else if c == 13 {
        r := r + [BACKSLASH, 114];
      } else if c == 9 {
        r := r + [BACKSLASH, 116];
      } else if c < 32 {
        r := r + [BACKSLASH, 117, 48, 48, LowerHex(c / 16), LowerHex(c % 16)];
      } else {
        r := r + [c];
      }
    }
    assert s[|s|..] == [] && r == buf + [QUOTE] + Escaped(Short, s);
    r := r + [QUOTE];
    AppendedReadsBack(Short, buf, s, r);
  }

  /** The Elasticsearch sink's encoder. */
  method AppendKeyString(buf: Bytes, s: Bytes) returns (r: Bytes)
    ensures r == buf + Quoted(Long, s)
    ensures ReadString(r[|buf|..]) == Some((s, []))
  {
    r := buf + [QUOTE];
    assert s[0..] == s;
    for i := 0 to |s|
      invariant r + Escaped(Long, s[i..]) == buf + [QUOTE] + Escaped(Long, s)
    {
      var c := s[i];
      QuotedLater(Long, r, s, i);
      if c == QUOTE {
        r := r + [BACKSLASH, QUOTE];
      } else if c == BACKSLASH {
        r := r + [BACKSLASH, BACKSLASH];
      } else if c < 32 {
        r := r + [BACKSLASH, 117, 48, 48, LowerHex(c / 16), LowerHex(c % 16)];
      } else {
        r := r + [c];
      }
    }
    assert s[|s|..] == [] && r == buf + [QUOTE] + Escaped(Long, s);
    r := r + [QUOTE];
    AppendedReadsBack(Long, buf, s, r);
  }
}
