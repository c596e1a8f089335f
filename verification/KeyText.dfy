/** Document keys: percent-escaped parts joined with a colon, or a digest when that is too long. */
module KeyText {
  import opened Documents
  import opened Text

  const MAX_KEY_BYTES := 512
  const COLON: Byte := 58
  const PERCENT: Byte := 37

  /** The unreserved characters of RFC 3986, section 2.3. */
  predicate Unreserved(c: Byte) {
    || 97 <= c <= 122 || 65 <= c <= 90 || 48 <= c <= 57
    || c == 45 || c == 95 || c == 46 || c == 126
  }

  /** ALPHA, DIGIT, "-", ".", "_" and "~", as section 2.3 of RFC 3986 lists them, by their characters. */
  lemma UnreservedAreListed(c: char)
    requires c <= '~'
    ensures Unreserved(c as int) <==>
            'A' <= c <= 'Z' || 'a' <= c <= 'z' || '0' <= c <= '9' || c == '-' || c == '.' || c == '_' || c == '~'
    ensures forall b: Byte :: b > '~' as int ==> !Unreserved(b)
  {
  }

  function EscapedByte(c: Byte): Bytes {
    if Unreserved(c) then [c] else [PERCENT, UpperHex(c / 16), UpperHex(c % 16)]
  }

  function Escaped(s: Bytes): Bytes {
    if s == [] then [] else EscapedByte(s[0]) + Escaped(s[1..])
  }

  /** RFC 3986, section 2.1: what a percent-escaped text stands for. */
  function Unescaped(e: Bytes): Option<Bytes> {
    if e == [] then Some([])
    else if e[0] != PERCENT then WithFirst(e[0], Unescaped(e[1..]))
    else if |e| < 3 || HexValue(e[1]).None? || HexValue(e[2]).None? then None
    else WithFirst(HexValue(e[1]).value * 16 + HexValue(e[2]).value, Unescaped(e[3..]))
  }

  function WithFirst(c: int, rest: Option<Bytes>): Option<Bytes> {
    if rest.None? || !(0 <= c < 256) then None else Some([c] + rest.value)
  }

  method EscapeKeyPart(s: Bytes) returns (e: Bytes)
    ensures e == Escaped(s) && Unescaped(e) == Some(s)
  {
    e := [];
    assert s[0..] == s;
    for i := 0 to |s|
      invariant e + Escaped(s[i..]) == Escaped(s)
    {
      var c := s[i];
      EscapedLater(e, s, i);
      if Unreserved(c) {
        e := e + [c];
      } else {
        e := e + [PERCENT, UpperHex(c / 16), UpperHex(c % 16)];
      }
    }
    EscapedRoundTrip(s);
  }

  lemma EscapedLater(before: Bytes, s: Bytes, i: nat)
    requires i < |s|
    ensures before + EscapedByte(s[i]) + Escaped(s[i + 1..]) == before + Escaped(s[i..])
  {
    assert s[i..][1..] == s[i + 1..];
  }

  lemma UnescapedFirst(c: Byte, rest: Bytes)
    ensures Unescaped(EscapedByte(c) + rest) == WithFirst(c, Unescaped(rest))
  {
    var e := EscapedByte(c) + rest;
    if Unreserved(c) {
      assert e[1..] == rest;
    } else {
      assert e[3..] == rest;
    }
  }

  lemma {:induction false} EscapedRoundTrip(s: Bytes)
    ensures Unescaped(Escaped(s)) == Some(s)
  {
    if s != [] {
      EscapedRoundTrip(s[1..]);
      UnescapedFirst(s[0], Escaped(s[1..]));
      assert [s[0]] + s[1..] == s;
    }
  }

  /** An escaped text holds unreserved characters and percent signs only, so never a colon. */
  lemma {:induction false} EscapedIsPlain(s: Bytes)
    ensures forall c :: c in Escaped(s) ==> Unreserved(c) || c == PERCENT
    ensures COLON !in Escaped(s)
  {
    if s != [] {
      EscapedIsPlain(s[1..]);
    }
  }

  lemma {:induction false} UnreservedIsItsOwnEscape(s: Bytes)
    requires forall c :: c in s ==> Unreserved(c)
    ensures Escaped(s) == s
  {
    if s != [] {
      UnreservedIsItsOwnEscape(s[1..]);
    }
  }

  // Whole keys ----------------------------------------------------------------------------------

  function EscapedParts(parts: seq<Bytes>): (es: seq<Bytes>)
    ensures |es| == |parts| && forall i :: 0 <= i < |parts| ==> es[i] == Escaped(parts[i])
  {
    seq(|parts|, i requires 0 <= i < |parts| => Escaped(parts[i]))
  }

  function PlainKey(parts: seq<Bytes>): Bytes { Join(EscapedParts(parts), COLON) }

  /** A digest maps any text to 64 lower-case hexadecimal digits. */
  type Digest = Bytes -> Bytes

  ghost predicate IsDigest(h: Digest) {
    forall b :: |h(b)| == 64 && forall i :: 0 <= i < 64 ==> Unreserved(h(b)[i])
  }

  const H: Byte := 104

  function KeyOf(h: Digest, parts: seq<Bytes>): Bytes {
    var plain := PlainKey(parts);
    if |plain| > MAX_KEY_BYTES then [H] + h(plain) else plain
  }

  /** Up to 512 bytes a key is the columns themselves; beyond it is an "h" and the digest, 65 bytes. */
  lemma LongKeysAreDigests(h: Digest, parts: seq<Bytes>)
    requires IsDigest(h)
    ensures |PlainKey(parts)| <= 512 ==> KeyOf(h, parts) == PlainKey(parts)
    ensures |PlainKey(parts)| > 512 ==>
              |KeyOf(h, parts)| == 65 && KeyOf(h, parts)[0] == 'h' as int && KeyOf(h, parts)[1..] == h(PlainKey(parts))
  {
  }

  /** Reads a plain key back. */
  function PartsOf(key: Bytes): Option<seq<Bytes>> { AllUnescaped(Split(key, COLON)) }

  function AllUnescaped(es: seq<Bytes>): Option<seq<Bytes>> {
    if es == [] then Some([]) else
      match (Unescaped(es[0]), AllUnescaped(es[1..]))
      case (Some(p), Some(rest)) => Some([p] + rest)
      case _ => None
  }

  lemma {:induction false} AllUnescapedParts(parts: seq<Bytes>)
    ensures AllUnescaped(EscapedParts(parts)) == Some(parts)
  {
    if parts != [] {
      EscapedRoundTrip(parts[0]);
      AllUnescapedParts(parts[1..]);
      assert EscapedParts(parts)[1..] == EscapedParts(parts[1..]);
      assert [parts[0]] + parts[1..] == parts;
    }
  }

  /** A plain key stands for exactly one tuple: reading it back returns every part. */
  lemma KeyRoundTrip(parts: seq<Bytes>)
    requires parts != []
    ensures PartsOf(PlainKey(parts)) == Some(parts)
  {
    forall i | 0 <= i < |parts| ensures COLON !in EscapedParts(parts)[i] {
      EscapedIsPlain(parts[i]);
    }
    SplitJoin(EscapedParts(parts), COLON);
    AllUnescapedParts(parts);
  }

  lemma PlainKeysDiffer(a: seq<Bytes>, b: seq<Bytes>)
    requires a != [] && b != [] && PlainKey(a) == PlainKey(b)
    ensures a == b
  {
    KeyRoundTrip(a);
    KeyRoundTrip(b);
  }

  /** The empty key, which no destination accepts, belongs to a single empty text and nothing else. */
  lemma OnlyOneEmptyText(h: Digest, parts: seq<Bytes>)
    requires parts != []
    ensures KeyOf(h, parts) == [] <==> parts == [[]]
  {
    assert PlainKey([[]]) == [];
    if PlainKey(parts) == [] {
      PlainKeysDiffer(parts, [[]]);
    }
  }

  /** The digest tells these two tuples apart. */
  ghost predicate ToldApart(h: Digest, a: seq<Bytes>, b: seq<Bytes>) {
    h(PlainKey(a)) == h(PlainKey(b)) ==> PlainKey(a) == PlainKey(b)
  }

  /** The one clash: an overlong tuple and a single text that spells out its digest. */
  ghost predicate SpellsDigest(h: Digest, long: seq<Bytes>, short: seq<Bytes>) {
    |PlainKey(long)| > MAX_KEY_BYTES && short == [[H] + h(PlainKey(long))]
  }

  lemma SpellingIsPlain(h: Digest, long: seq<Bytes>)
    requires IsDigest(h)
    ensures var short := [[H] + h(PlainKey(long))]; PlainKey(short) == short[0] && |short[0]| == 65
  {
    UnreservedIsItsOwnEscape([H] + h(PlainKey(long)));
  }

  lemma EqualKeysClash(h: Digest, a: seq<Bytes>, b: seq<Bytes>)
    requires IsDigest(h) && ToldApart(h, a, b) && a != [] && b != [] && a != b
    requires KeyOf(h, a) == KeyOf(h, b) && |PlainKey(a)| > MAX_KEY_BYTES
    ensures SpellsDigest(h, a, b)
  {
    if |PlainKey(b)| > MAX_KEY_BYTES {
      assert KeyOf(h, a)[1..] == h(PlainKey(a)) && KeyOf(h, b)[1..] == h(PlainKey(b));
      PlainKeysDiffer(a, b);
    } else {
      SpellingIsPlain(h, a);
      PlainKeysDiffer(b, [[H] + h(PlainKey(a))]);
    }
  }

  /** Two tuples share a key exactly when they are one tuple or one spells the other's digest. */
  lemma KeysAgreeExactlyWhen(h: Digest, a: seq<Bytes>, b: seq<Bytes>)
    requires IsDigest(h) && ToldApart(h, a, b) && a != [] && b != []
    ensures KeyOf(h, a) == KeyOf(h, b) <==> a == b || SpellsDigest(h, a, b) || SpellsDigest(h, b, a)
  {
    SpellingIsPlain(h, a);
    SpellingIsPlain(h, b);
    if KeyOf(h, a) == KeyOf(h, b) && a != b {
      if |PlainKey(a)| > MAX_KEY_BYTES {
        EqualKeysClash(h, a, b);
      } else if |PlainKey(b)| > MAX_KEY_BYTES {
        EqualKeysClash(h, b, a);
      } else {
        PlainKeysDiffer(a, b);
      }
    }
  }

  /** So a key of two or more columns identifies its row whatever its length. */
  lemma CompoundKeysIdentify(h: Digest, a: seq<Bytes>, b: seq<Bytes>)
    requires IsDigest(h) && ToldApart(h, a, b) && |a| == |b| >= 2 && KeyOf(h, a) == KeyOf(h, b)
    ensures a == b
  {
    KeysAgreeExactlyWhen(h, a, b);
  }

  /** And a key of one column does so for every pair of texts that both fit. */
  lemma ShortKeysIdentify(h: Digest, a: seq<Bytes>, b: seq<Bytes>)
    requires |a| == |b| >= 1 && KeyOf(h, a) == KeyOf(h, b)
    requires |PlainKey(a)| <= MAX_KEY_BYTES && |PlainKey(b)| <= MAX_KEY_BYTES
    ensures a == b
  {
    PlainKeysDiffer(a, b);
  }

  /** For any digest there are two rows with a one-column key that are given the same key. */
  lemma OneColumnKeysCanClash(h: Digest)
    requires IsDigest(h)
    ensures exists a, b: Bytes :: a != b && KeyOf(h, [a]) == KeyOf(h, [b])
  {
    var long: Bytes := seq(513, i => 97);
    UnreservedIsItsOwnEscape(long);
    assert PlainKey([long]) == long;
    var short := [H] + h(long);
    SpellingIsPlain(h, [long]);
    assert PlainKey([short]) == short;
    assert KeyOf(h, [long]) == KeyOf(h, [short]) && |long| != |short|;
  }

  /** The value of each key column; None is a null. */
  type KeyValues = seq<Option<Bytes>>

  predicate NoNulls(values: KeyValues) {
    forall i :: 0 <= i < |values| ==> values[i].Some?
  }

  function Parts(values: KeyValues): (ps: seq<Bytes>)
    requires NoNulls(values)
    ensures |ps| == |values| && forall i :: 0 <= i < |values| ==> ps[i] == values[i].value
  {
    seq(|values|, i requires 0 <= i < |values| => values[i].value)
  }

  lemma PlainKeyOneMore(values: KeyValues, i: nat)
    requires i < |values| && NoNulls(values[..i + 1]) && NoNulls(values[..i])
    ensures PlainKey(Parts(values[..i + 1])) ==
            PlainKey(Parts(values[..i])) + (if i > 0 then [COLON] else []) + Escaped(values[i].value)
  {
    var e, was := Escaped(values[i].value), EscapedParts(Parts(values[..i]));
    assert values[..i + 1][i] == values[i];
    assert EscapedParts(Parts(values[..i + 1])) == was + [e];
    JoinOneMore(was, e, COLON);
  }

  /** The columns joined, or None at a null. */
  method JoinedKey(values: KeyValues) returns (plain: Option<Bytes>)
    ensures plain.Some? <==> NoNulls(values)
    ensures plain.Some? ==> plain.value == PlainKey(Parts(values))
  {
    var b: Bytes := [];
    for i := 0 to |values|
      invariant forall j :: 0 <= j < i ==> values[j].Some?
      invariant b == PlainKey(Parts(values[..i]))
    {
      if values[i].None? {
        return None;
      }
      if i > 0 {
        b := b + [COLON];
      }
      var e := EscapeKeyPart(values[i].value);
      b := b + e;
      PlainKeyOneMore(values, i);
    }
    assert values[..|values|] == values;
    return Some(b);
  }

  /** The key of a row, or None when a key column is null. */
  method Key(h: Digest, values: KeyValues) returns (key: Option<Bytes>)
    ensures key.Some? <==> NoNulls(values)
    ensures key.Some? ==> key.value == KeyOf(h, Parts(values))
    ensures key.Some? && values != [] && |PlainKey(Parts(values))| <= MAX_KEY_BYTES ==>
              PartsOf(key.value) == Some(Parts(values))
  {
    var plain := JoinedKey(values);
    if plain.None? {
      return None;
    }
    if values != [] {
      KeyRoundTrip(Parts(values));
    }
    if |plain.value| > MAX_KEY_BYTES {
      return Some([H] + h(plain.value));
    }
    return plain;
  }
}
