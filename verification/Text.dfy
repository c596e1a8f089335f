/** Bytes as text: literals, decimal numbers, hexadecimal digits, splitting at a separator. */
module Text {
  import opened Documents

  /** The bytes of a literal made of printable ASCII characters; any other would become '?'. */
  function Ascii(s: string): (b: Bytes)
    ensures |b| == |s|
    ensures forall i :: 0 <= i < |s| ==> 32 <= b[i] < 127 && (' ' <= s[i] <= '~' ==> b[i] == s[i] as int)
  {
    seq(|s|, i requires 0 <= i < |s| => if ' ' <= s[i] <= '~' then s[i] as int else 63)
  }

  predicate IsDigit(c: Byte) { 48 <= c <= 57 }

  predicate AllDigits(b: Bytes) {
    forall i :: 0 <= i < |b| ==> IsDigit(b[i])
  }

  function Decimal(n: nat): (b: Bytes)
    ensures b != [] && AllDigits(b)
  {
    if n < 10 then [48 + n] else Decimal(n / 10) + [48 + n % 10]
  }

  function NumberOf(b: Bytes): nat
    requires AllDigits(b)
  {
    if b == [] then 0 else 10 * NumberOf(b[..|b| - 1]) + (b[|b| - 1] - 48)
  }

  lemma {:induction false} DecimalRoundTrip(n: nat)
    ensures NumberOf(Decimal(n)) == n
  {
    if n < 10 {
      assert Decimal(n)[..0] == [];
    } else {
      DecimalRoundTrip(n / 10);
      assert Decimal(n)[..|Decimal(n)| - 1] == Decimal(n / 10);
    }
  }

  lemma DecimalInjective(m: nat, n: nat)
    requires Decimal(m) == Decimal(n)
    ensures m == n
  {
    DecimalRoundTrip(m);
    DecimalRoundTrip(n);
  }

  /** How many leading digits there are. */
  function DigitRun(b: Bytes): (n: nat)
    ensures n <= |b| && AllDigits(b[..n]) && (n < |b| ==> !IsDigit(b[n]))
  {
    if b == [] || !IsDigit(b[0]) then 0
    else
      var n := DigitRun(b[1..]);
      assert b[..n + 1] == [b[0]] + b[1..][..n];
      n + 1
  }

  lemma {:induction false} DigitRunIs(digits: Bytes, rest: Bytes)
    requires AllDigits(digits) && (rest != [] ==> !IsDigit(rest[0]))
    ensures DigitRun(digits + rest) == |digits|
  {
    if digits != [] {
      assert (digits + rest)[1..] == digits[1..] + rest;
      DigitRunIs(digits[1..], rest);
    } else {
      assert digits + rest == rest;
    }
  }

  /** Everything before the first separator, and everything after it when there is one. */
  function CutAt(b: Bytes, sep: Byte): (Bytes, Option<Bytes>) {
    if b == [] then ([], None)
    else if b[0] == sep then ([], Some(b[1..]))
    else var (head, tail) := CutAt(b[1..], sep); ([b[0]] + head, tail)
  }

  lemma {:induction false} CutAtIs(head: Bytes, sep: Byte, tail: Bytes)
    requires sep !in head
    ensures CutAt(head + [sep] + tail, sep) == (head, Some(tail))
    ensures CutAt(head, sep) == (head, None)
  {
    if head != [] {
      CutAtIs(head[1..], sep, tail);
      assert (head + [sep] + tail)[1..] == head[1..] + [sep] + tail;
      assert [head[0]] + head[1..] == head;
    }
  }

  lemma {:induction false} CutAtShortens(b: Bytes, sep: Byte)
    ensures CutAt(b, sep).1.Some? ==> |CutAt(b, sep).1.value| < |b|
  {
    if b != [] {
      CutAtShortens(b[1..], sep);
    }
  }

  /** The pieces between separators; one separator more makes one piece more. */
  function Split(b: Bytes, sep: Byte): (parts: seq<Bytes>)
    ensures parts != []
    decreases |b|
  {
    CutAtShortens(b, sep);
    var (head, tail) := CutAt(b, sep);
    if tail.None? then [head] else [head] + Split(tail.value, sep)
  }

  function Join(parts: seq<Bytes>, sep: Byte): Bytes {
    if parts == [] then []
    else if |parts| == 1 then parts[0]
    else parts[0] + [sep] + Join(parts[1..], sep)
  }

  lemma {:induction false} SplitJoin(parts: seq<Bytes>, sep: Byte)
    requires parts != [] && forall i :: 0 <= i < |parts| ==> sep !in parts[i]
    ensures Split(Join(parts, sep), sep) == parts
  {
    if |parts| == 1 {
      CutAtIs(parts[0], sep, []);
    } else {
      CutAtIs(parts[0], sep, Join(parts[1..], sep));
      SplitJoin(parts[1..], sep);
    }
  }

  lemma {:induction false} JoinOneMore(parts: seq<Bytes>, p: Bytes, sep: Byte)
    ensures Join(parts + [p], sep) == if parts == [] then p else Join(parts, sep) + [sep] + p
  {
    if |parts| == 1 {
      assert (parts + [p])[1..] == [p];
    } else if |parts| > 1 {
      JoinOneMore(parts[1..], p, sep);
      assert (parts + [p])[1..] == parts[1..] + [p];
    }
  }

  const NEWLINE: Byte := 10
  const OPEN_BRACE: Byte := 123
  const CLOSE_BRACE: Byte := 125
  const COMMA: Byte := 44

  /** Lines, each ended by a line feed. */
  function Unlines(lines: seq<Bytes>): Bytes {
    if lines == [] then [] else lines[0] + [NEWLINE] + Unlines(lines[1..])
  }

  function Lines(b: Bytes): Option<seq<Bytes>>
    decreases |b|
  {
    if b == [] then Some([]) else
      var (line, rest) := CutAt(b, NEWLINE);
      CutAtShortens(b, NEWLINE);
      if rest.None? then None else
        match Lines(rest.value)
        case None => None
        case Some(more) => Some([line] + more)
  }

  lemma {:induction false} LinesRoundTrip(lines: seq<Bytes>)
    requires forall i :: 0 <= i < |lines| ==> NEWLINE !in lines[i]
    ensures Lines(Unlines(lines)) == Some(lines)
  {
    if lines != [] {
      LinesRoundTrip(lines[1..]);
      CutAtIs(lines[0], NEWLINE, Unlines(lines[1..]));
      assert lines == [lines[0]] + lines[1..];
    }
  }

  lemma {:induction false} UnlinesOneMore(lines: seq<Bytes>, line: Bytes)
    ensures Unlines(lines + [line]) == Unlines(lines) + (line + [NEWLINE])
  {
    if lines == [] {
      assert lines + [line] == [line];
      assert line + [NEWLINE] + [] == line + [NEWLINE];
    } else {
      UnlinesOneMore(lines[1..], line);
      assert (lines + [line])[1..] == lines[1..] + [line];
    }
  }

  /** Every line read, or None when one of them cannot be. */
  function ReadAll<T>(read: Bytes -> Option<T>, lines: seq<Bytes>): Option<seq<T>> {
    if lines == [] then Some([]) else
      match (ReadAll(read, lines[..|lines| - 1]), read(lines[|lines| - 1]))
      case (Some(rows), Some(row)) => Some(rows + [row])
      case _ => None
  }

  lemma {:induction false} ReadAllIs<T>(read: Bytes -> Option<T>, lines: seq<Bytes>, rows: seq<T>)
    requires |rows| == |lines| && forall i :: 0 <= i < |lines| ==> read(lines[i]) == Some(rows[i])
    ensures ReadAll(read, lines) == Some(rows)
  {
    if lines != [] {
      var n := |lines| - 1;
      ReadAllIs(read, lines[..n], rows[..n]);
      assert rows == rows[..n] + [rows[n]];
    }
  }

  predicate StartsWith(b: Bytes, prefix: Bytes) { prefix <= b }

  lemma PrefixOff(prefix: Bytes, rest: Bytes)
    ensures StartsWith(prefix + rest, prefix) && (prefix + rest)[|prefix|..] == rest
  {
  }

  function HexValue(c: Byte): Option<int> {
    if 48 <= c <= 57 then Some(c - 48)
    else if 65 <= c <= 70 then Some(c - 55)
    else if 97 <= c <= 102 then Some(c - 87)
    else None
  }

  function UpperHex(n: int): (c: Byte)
    requires 0 <= n < 16
    ensures HexValue(c) == Some(n)
  {
    if n < 10 then 48 + n else 55 + n
  }

  function LowerHex(n: int): (c: Byte)
    requires 0 <= n < 16
    ensures HexValue(c) == Some(n)
  {
    if n < 10 then 48 + n else 87 + n
  }
}
