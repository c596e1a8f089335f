/** ENUM and SET columns: the declared labels, and the numbers rows carry for them. */
module Members {
  import opened Documents
  import opened Text
  import opened JsonText

  // Declared labels -----------------------------------------------------------------------------

  const TICK: Byte := 39
  const PAREN: Byte := 40
  const CLOSING: Byte := 41

  function Lower(b: Bytes): (r: Bytes)
    ensures |r| == |b| && forall i :: 0 <= i < |b| ==> r[i] == if 65 <= b[i] <= 90 then b[i] + 32 else b[i]
  {
    seq(|b|, i requires 0 <= i < |b| => if 65 <= b[i] <= 90 then b[i] + 32 else b[i])
  }

  /** Where a text first occurs in another. */
  function FirstIndex(b: Bytes, needle: Bytes): (r: Option<nat>)
    ensures r.Some? ==> r.value + |needle| <= |b|
  {
    if needle <= b then Some(0)
    else if b == [] then None
    else
      match FirstIndex(b[1..], needle)
      case None => None
      case Some(n) => Some(n + 1)
  }

  /** The needle stands at the place found, and at no place before it. */
  lemma {:induction false} FirstIndexIsFirst(b: Bytes, needle: Bytes)
    ensures var r := FirstIndex(b, needle);
            && (r.Some? ==> needle <= b[r.value..])
            && forall i :: 0 <= i < (if r.Some? then r.value else |b| + 1) ==> !(needle <= b[i..])
  {
    if !(needle <= b) && b != [] {
      FirstIndexIsFirst(b[1..], needle);
      assert forall i :: 0 < i <= |b| ==> b[i..] == b[1..][i - 1..];
    }
  }

  /** Where a byte last occurs. */
  function LastIndex(b: Bytes, c: Byte): (r: Option<nat>)
    ensures r.Some? ==> r.value < |b| && b[r.value] == c && forall i :: r.value < i < |b| ==> b[i] != c
    ensures r.None? ==> c !in b
  {
    if b == [] then None
    else if b[|b| - 1] == c then Some(|b| - 1)
    else LastIndex(b[..|b| - 1], c)
  }

  /** A quoted label as the server prints it: quotes inside are doubled. */
  function Doubled(name: Bytes): Bytes {
    if name == [] then []
    else (if name[0] == TICK then [TICK, TICK] else [name[0]]) + Doubled(name[1..])
  }

  function Ticked(name: Bytes): Bytes { [TICK] + Doubled(name) + [TICK] }

  function TickedAll(labels: seq<Bytes>): (ts: seq<Bytes>)
    ensures |ts| == |labels| && forall i :: 0 <= i < |labels| ==> ts[i] == Ticked(labels[i])
  {
    seq(|labels|, i requires 0 <= i < |labels| => Ticked(labels[i]))
  }

  function PrintedList(labels: seq<Bytes>): Bytes { Join(TickedAll(labels), COMMA) }

  /** A column type: enum('a','b') and the like. */
  function Printed(keyword: Bytes, labels: seq<Bytes>): Bytes {
    keyword + [PAREN] + (PrintedList(labels) + [CLOSING])
  }

  /** What the rest of a list holds, given what was read so far. */
  function Labels(body: Bytes, inQuote: bool, current: Bytes): seq<Bytes>
    decreases |body|
  {
    if body == [] then []
    else if body[0] == TICK && inQuote && |body| > 1 && body[1] == TICK then Labels(body[2..], true, current + [TICK])
    else if body[0] == TICK && inQuote then [current] + Labels(body[1..], false, [])
    else if body[0] == TICK then Labels(body[1..], true, current)
    else if inQuote then Labels(body[1..], true, current + [body[0]])
    else Labels(body[1..], false, current)
  }

  /** Between the keyword's parenthesis and the last closing one; the whole rest without one. */
  function ListBody(columnType: Bytes, keyword: Bytes): Option<Bytes> {
    match FirstIndex(Lower(columnType), keyword + [PAREN])
    case None => None
    case Some(open) =>
      var rest := columnType[open + |keyword| + 1..];
      match LastIndex(rest, CLOSING)
      case None => Some(rest)
      case Some(end) => Some(rest[..end])
  }

  /** The list inside a column type's parentheses. */
  method FindList(columnType: Bytes, keyword: Bytes) returns (body: Option<Bytes>)
    ensures body == ListBody(columnType, keyword)
  {
    var lower := Lower(columnType);
    var open := FirstIndex(lower, keyword + [PAREN]);
    if open.None? {
      return None;
    }
    var rest := columnType[open.value + |keyword| + 1..];
    var end := LastIndex(rest, CLOSING);
    if end.Some? {
      return Some(rest[..end.value]);
    }
    return Some(rest);
  }

  method ParseMemberList(columnType: Bytes, keyword: Bytes) returns (labels: seq<Bytes>)
    ensures var body := ListBody(columnType, keyword);
            labels == if body.None? then [] else Labels(body.value, false, [])
    ensures forall declared :: IsKeyword(keyword) && columnType == Printed(keyword, declared) ==> labels == declared
  {
    var body := FindList(columnType, keyword);
    if body.None? {
      labels := [];
    } else {
      labels := ParseList(body.value);
    }
    forall declared | IsKeyword(keyword) && columnType == Printed(keyword, declared) ensures labels == declared {
      MemberListRoundTrip(keyword, declared);
    }
  }

  /** Unfolds the reading by one character. */
  lemma LabelsFrom(body: Bytes, i: nat, inQuote: bool, current: Bytes)
    requires i < |body|
    ensures Labels(body[i..], inQuote, current) ==
      if body[i] == TICK && inQuote && i + 1 < |body| && body[i + 1] == TICK then
          Labels(body[i + 2..], true, current + [TICK])
      else if body[i] == TICK && inQuote then [current] + Labels(body[i + 1..], false, [])
      else if body[i] == TICK then Labels(body[i + 1..], true, current)
      else if inQuote then Labels(body[i + 1..], true, current + [body[i]])
      else Labels(body[i + 1..], false, current)
  {
    assert body[i..][1..] == body[i + 1..];
    if i + 1 < |body| {
      assert body[i..][2..] == body[i + 2..];
    }
  }

  method ParseList(body: Bytes) returns (labels: seq<Bytes>)
    ensures labels == Labels(body, false, [])
  {
    labels := [];
    var current: Bytes, inQuote, i := [], false, 0;
    assert body[0..] == body;
    while i < |body|
      invariant 0 <= i <= |body|
      invariant !inQuote ==> current == []
      invariant labels + Labels(body[i..], inQuote, current) == Labels(body, false, [])
    {
      var c := body[i];
      LabelsFrom(body, i, inQuote, current);
      if c == TICK && inQuote && i + 1 < |body| && body[i + 1] == TICK {
        current := current + [TICK];
        i := i + 1;
      } else if c == TICK {
        if inQuote {
          labels := labels + [current];
          current := [];
        }
        inQuote := !inQuote;
      } else if inQuote {
        current := current + [c];
      }
      i := i + 1;
    }
    assert body[|body|..] == [];
  }

  lemma {:induction false} LabelReadsBack(name: Bytes, rest: Bytes, current: Bytes)
    requires rest != [] ==> rest[0] != TICK
    ensures Labels(Doubled(name) + [TICK] + rest, true, current) == [current + name] + Labels(rest, false, [])
    decreases |name|
  {
    var b := Doubled(name) + [TICK] + rest;
    if name == [] {
      assert b == [TICK] + rest && b[1..] == rest;
      assert current + name == current;
    } else if name[0] == TICK {
      LabelReadsBack(name[1..], rest, current + [TICK]);
      assert b[2..] == Doubled(name[1..]) + [TICK] + rest;
      assert current + [TICK] + name[1..] == current + name;
    } else {
      LabelReadsBack(name[1..], rest, current + [name[0]]);
      assert b[1..] == Doubled(name[1..]) + [TICK] + rest;
      assert current + [name[0]] + name[1..] == current + name;
    }
  }

  lemma TickedReadsBack(name: Bytes, rest: Bytes)
    requires rest != [] ==> rest[0] != TICK
    ensures Labels(Ticked(name) + rest, false, []) == [name] + Labels(rest, false, [])
  {
    assert (Ticked(name) + rest)[1..] == Doubled(name) + [TICK] + rest;
    LabelReadsBack(name, rest, []);
    assert [] + name == name;
  }

  lemma {:induction false} ListReadsBack(labels: seq<Bytes>)
    ensures Labels(PrintedList(labels), false, []) == labels
  {
    if |labels| == 1 {
      TickedReadsBack(labels[0], []);
      assert Ticked(labels[0]) + [] == Ticked(labels[0]);
      assert labels == [labels[0]];
    } else if |labels| > 1 {
      ListReadsBack(labels[1..]);
      assert TickedAll(labels)[1..] == TickedAll(labels[1..]);
      var rest := [COMMA] + PrintedList(labels[1..]);
      assert PrintedList(labels) == Ticked(labels[0]) + rest;
      TickedReadsBack(labels[0], rest);
      assert rest[1..] == PrintedList(labels[1..]);
      assert labels == [labels[0]] + labels[1..];
    }
  }

  /** The keyword as the server prints it. */
  predicate IsKeyword(keyword: Bytes) {
    keyword != [] && Lower(keyword) == keyword
  }

  lemma ListBodyOfPrinted(keyword: Bytes, labels: seq<Bytes>)
    requires IsKeyword(keyword)
    ensures ListBody(Printed(keyword, labels), keyword) == Some(PrintedList(labels))
  {
    var whole, open := Printed(keyword, labels), keyword + [PAREN];
    forall i | 0 <= i < |open| ensures Lower(whole)[i] == open[i] {
      assert whole[i] == open[i];
      if i < |keyword| {
        assert Lower(keyword)[i] == keyword[i];
      }
    }
    assert open <= Lower(whole);
    assert FirstIndex(Lower(whole), open) == Some(0);
    var rest := PrintedList(labels) + [CLOSING];
    assert whole[|keyword| + 1..] == rest;
    assert LastIndex(rest, CLOSING) == Some(|rest| - 1);
    assert rest[..|rest| - 1] == PrintedList(labels);
  }

  /** Parsing inverts printing for every list of labels, whatever quotes, commas, parentheses or
    * keywords they contain, empty labels included. */
  lemma MemberListRoundTrip(keyword: Bytes, labels: seq<Bytes>)
    requires IsKeyword(keyword)
    ensures ListBody(Printed(keyword, labels), keyword).Some?
    ensures Labels(ListBody(Printed(keyword, labels), keyword).value, false, []) == labels
  {
    ListBodyOfPrinted(keyword, labels);
    ListReadsBack(labels);
  }
}
