/** The numbers that stand for ENUM and SET members: the scanner makes them from text, as the
 * binlog does, and the pipeline turns them back into labels. */
module MemberNumbers {
  import opened Documents
  import opened Text
  import opened JsonText

  // Bits ----------------------------------------------------------------------------------------

  /** 1 shifted left i times; nothing is left of it after the last of the 64 places. */
  function Bit(i: nat): bv64 { if i == 0 then 1 else Bit(i - 1) << 1 }

  predicate Meets(x: bv64, y: bv64) { x & y != 0 }

  predicate Has(bits: bv64, i: nat) { Meets(bits, Bit(i)) }

  lemma ShiftedAnd(x: bv64, y: bv64)
    requires !Meets(x, y)
    ensures !Meets(x << 1, y << 1)
  {
  }

  lemma OneAndShifted(y: bv64)
    ensures !Meets(1, y << 1) && !Meets(y << 1, 1)
  {
  }

  lemma {:induction false} BitsApart(i: nat, j: nat)
    requires i != j
    ensures !Meets(Bit(i), Bit(j))
  {
    if i == 0 {
      OneAndShifted(Bit(j - 1));
    } else if j == 0 {
      OneAndShifted(Bit(i - 1));
    } else {
      BitsApart(i - 1, j - 1);
      ShiftedAnd(Bit(i - 1), Bit(j - 1));
    }
  }

  lemma ZeroShifted(x: bv64)
    requires x == 0
    ensures x << 1 == 0
  {
  }

  lemma {:induction false} ZeroStays(i: nat, n: nat)
    requires Bit(i) == 0
    ensures Bit(i + n) == 0
  {
    if n > 0 {
      ZeroStays(i, n - 1);
      ZeroShifted(Bit(i + n - 1));
    }
  }

  lemma LastBit()
    ensures Bit(63) != 0
  {
    assert Bit(7) == 0x80;
    assert Bit(15) == 0x8000;
    assert Bit(23) == 0x80_0000;
    assert Bit(31) == 0x8000_0000;
    assert Bit(39) == 0x80_0000_0000;
    assert Bit(47) == 0x8000_0000_0000;
    assert Bit(55) == 0x80_0000_0000_0000;
    assert Bit(63) == 0x8000_0000_0000_0000;
  }

  lemma BitSurvives(i: nat)
    requires i < 64
    ensures Bit(i) != 0
  {
    LastBit();
    if Bit(i) == 0 {
      ZeroStays(i, 63 - i);
    }
  }

  lemma OrSame(bits: bv64, x: bv64)
    requires x != 0
    ensures Meets(bits | x, x)
  {
  }

  lemma OrApart(bits: bv64, x: bv64, y: bv64)
    requires !Meets(x, y)
    ensures Meets(bits | x, y) ==> Meets(bits, y)
    ensures Meets(bits, y) ==> Meets(bits | x, y)
  {
  }

  lemma SetSame(bits: bv64, i: nat)
    requires i < 64
    ensures Has(bits | Bit(i), i)
  {
    BitSurvives(i);
    OrSame(bits, Bit(i));
  }

  lemma OtherMask(bits: bv64, i: nat, j: nat, x: bv64, y: bv64)
    requires i != j && x == Bit(i) && y == Bit(j)
    ensures Meets(bits | x, y) ==> Meets(bits, y)
    ensures Meets(bits, y) ==> Meets(bits | x, y)
  {
    BitsApart(i, j);
    OrApart(bits, x, y);
  }

  lemma OtherKept(bits: bv64, i: nat, j: nat)
    requires i != j && Has(bits, j)
    ensures Has(bits | Bit(i), j)
  {
    OtherMask(bits, i, j, Bit(i), Bit(j));
  }

  lemma OtherNotSet(bits: bv64, i: nat, j: nat)
    requires i != j && Has(bits | Bit(i), j)
    ensures Has(bits, j)
  {
    OtherMask(bits, i, j, Bit(i), Bit(j));
  }

  function Places(bits: bv64): (s: set<nat>)
    ensures forall i :: i in s <==> i < 64 && Has(bits, i)
  {
    set i: nat | 0 <= i < 64 && Has(bits, i)
  }

  function WithBit(bits: bv64, i: nat): bv64 { bits | Bit(i) }

  /** Setting a bit adds that place and no other. */
  lemma PlacesWithBit(bits: bv64, i: nat)
    requires i < 64
    ensures Places(WithBit(bits, i)) == Places(bits) + {i}
  {
    forall j: nat | j < 64 ensures j in Places(WithBit(bits, i)) <==> j in Places(bits) || j == i {
      if j == i {
        SetSame(bits, i);
      } else if Has(bits, j) {
        OtherKept(bits, i, j);
      } else if Has(WithBit(bits, i), j) {
        OtherNotSet(bits, i, j);
      }
    }
  }

  lemma NoPlaces()
    ensures Places(0) == {}
  {
    forall i: nat | i < 64 ensures !Has(0, i) {
      ZeroMeets(Bit(i));
    }
  }

  lemma ZeroMeets(x: bv64)
    ensures !Meets(0, x)
  {
  }

  // Labels --------------------------------------------------------------------------------------

  /** Where a label is declared, the first time. */
  function IndexOf(labels: seq<Bytes>, want: Bytes): (r: Option<nat>)
    ensures r.Some? ==> r.value < |labels| && labels[r.value] == want && want !in labels[..r.value]
    ensures r.None? ==> want !in labels
  {
    if labels == [] then None
    else if labels[0] == want then Some(0)
    else match IndexOf(labels[1..], want)
      case None => None
      case Some(n) => Some(n + 1)
  }

  method IndexOfString(values: seq<Bytes>, want: Bytes) returns (r: Option<nat>)
    ensures r == IndexOf(values, want)
  {
    assert values[0..] == values;
    for i := 0 to |values|
      invariant IndexOf(values, want) ==
        match IndexOf(values[i..], want) { case None => None case Some(n) => Some(i + n) }
    {
      assert values[i..][0] == values[i] && values[i..][1..] == values[i + 1..];
      if values[i] == want {
        return Some(i);
      }
    }
    return None;
  }

  /** The bitmask of some members, or None when one of them is not declared. */
  function Bits(labels: seq<Bytes>, members: seq<Bytes>): Option<bv64> {
    if members == [] then Some(0) else
      match (Bits(labels, members[..|members| - 1]), IndexOf(labels, members[|members| - 1]))
      case (Some(bits), Some(i)) => Some(WithBit(bits, i))
      case _ => None
  }

  function Bitmask(labels: seq<Bytes>, joined: Bytes): Option<bv64> {
    if joined == [] then Some(0) else Bits(labels, Split(joined, COMMA))
  }

  lemma {:induction false} BitsStopAtUnknown(labels: seq<Bytes>, members: seq<Bytes>, i: nat)
    requires i < |members| && IndexOf(labels, members[i]).None?
    ensures Bits(labels, members).None?
    decreases |members|
  {
    if i < |members| - 1 {
      BitsStopAtUnknown(labels, members[..|members| - 1], i);
    }
  }

  /** The scanner's number for a SET value that the server sent as text. */
  method SetBitmask(labels: seq<Bytes>, joined: Bytes) returns (r: Option<bv64>)
    ensures r == Bitmask(labels, joined)
    ensures forall pick :: Declarable(labels) && joined == Join(Picked(labels, pick), COMMA) ==>
              r.Some? && Chosen(labels, r.value) == Picked(labels, pick)
  {
    forall pick | Declarable(labels) && joined == Join(Picked(labels, pick), COMMA)
      ensures Bitmask(labels, joined).Some? && Chosen(labels, Bitmask(labels, joined).value) == Picked(labels, pick)
    {
      SetRoundTrip(labels, pick);
    }
    if joined == [] {
      return Some(0);
    }
    var bits: bv64 := 0;
    var members := Split(joined, COMMA);
    for i := 0 to |members|
      invariant Bits(labels, members[..i]) == Some(bits)
    {
      var index := IndexOfString(labels, members[i]);
      if index.None? {
        BitsStopAtUnknown(labels, members, i);
        return None;
      }
      assert members[..i + 1][..i] == members[..i];
      bits := WithBit(bits, index.value);
    }
    assert members[..|members|] == members;
    return Some(bits);
  }

  /** The labels whose bits are set, in declaration order. */
  function Chosen(labels: seq<Bytes>, bits: bv64): seq<Bytes> {
    if labels == [] then [] else
      var n := |labels| - 1;
      Chosen(labels[..n], bits) + if Has(bits, n) then [labels[n]] else []
  }

  function QuotedAll(items: seq<Bytes>): (qs: seq<Bytes>)
    ensures |qs| == |items| && forall i :: 0 <= i < |items| ==> qs[i] == Quoted(Short, items[i])
  {
    seq(|items|, i requires 0 <= i < |items| => Quoted(Short, items[i]))
  }

  /** A JSON array of strings, still open. */
  function OpenArray(items: seq<Bytes>): Bytes { [91] + Join(QuotedAll(items), COMMA) }

  function ArrayText(items: seq<Bytes>): Bytes { OpenArray(items) + [93] }

  lemma OneMoreItem(items: seq<Bytes>, item: Bytes)
    ensures OpenArray(items + [item]) == OpenArray(items) + (if items == [] then [] else [COMMA]) + Quoted(Short, item)
  {
    assert QuotedAll(items + [item]) == QuotedAll(items) + [Quoted(Short, item)];
    JoinOneMore(QuotedAll(items), Quoted(Short, item), COMMA);
    if items == [] {
      assert OpenArray(items) + [] == [91];
    }
  }

  method AppendItem(text: Bytes, first: bool, item: Bytes, ghost items: seq<Bytes>) returns (r: Bytes)
    requires text == OpenArray(items) && (first <==> items == [])
    ensures r == OpenArray(items + [item])
  {
    OneMoreItem(items, item);
    r := text + if first then [] else [COMMA];
    r := AppendJsonString(r, item);
  }

  /** The pipeline's text for a SET value: a JSON array of labels. */
  method AppendSet(buf: Bytes, labels: seq<Bytes>, bits: bv64) returns (r: Bytes)
    ensures r == buf + ArrayText(Chosen(labels, bits))
    ensures ReadArray(r[|buf|..]) == Some((Chosen(labels, bits), []))
  {
    var text: Bytes := [91];
    var first := true;
    ghost var chosen: seq<Bytes> := [];
    for i := 0 to |labels|
      invariant chosen == Chosen(labels[..i], bits) && (first <==> chosen == [])
      invariant text == OpenArray(chosen)
    {
      assert labels[..i + 1][..i] == labels[..i];
      if Has(bits, i) {
        text := AppendItem(text, first, labels[i], chosen);
        first := false;
        chosen := chosen + [labels[i]];
      }
    }
    assert labels[..|labels|] == labels;
    r := buf + (text + [93]);
    assert r[|buf|..] == ArrayText(chosen);
    ArrayRoundTrip(chosen);
  }

  /** Reads a JSON array of strings. `more` says that an item must follow. */
  function ReadItems(b: Bytes, more: bool): Option<(seq<Bytes>, Bytes)>
    decreases |b|
  {
    if b != [] && b[0] == 93 && !more then Some(([], b[1..])) else
      match ReadString(b)
      case None => None
      case Some((item, rest)) =>
        if rest == [] || |rest| >= |b| then None
        else if rest[0] == 93 then Some(([item], rest[1..]))
        else if rest[0] != COMMA then None
        else match ReadItems(rest[1..], true)
          case None => None
          case Some((items, after)) => Some(([item] + items, after))
  }

  function ReadArray(b: Bytes): Option<(seq<Bytes>, Bytes)> {
    if b == [] || b[0] != 91 then None else ReadItems(b[1..], false)
  }

  lemma LastItemReadsBack(item: Bytes, rest: Bytes, more: bool)
    ensures ReadItems(Quoted(Short, item) + ([93] + rest), more) == Some(([item], rest))
  {
    var tail := [93] + rest;
    StringRoundTrip(Short, item, tail);
    assert tail[1..] == rest;
  }

  lemma NextItemReadsBack(item: Bytes, next: Bytes, items: seq<Bytes>, rest: Bytes, more: bool)
    requires ReadItems(next, true) == Some((items, rest))
    ensures ReadItems(Quoted(Short, item) + ([COMMA] + next), more) == Some(([item] + items, rest))
  {
    var tail := [COMMA] + next;
    StringRoundTrip(Short, item, tail);
    assert tail[1..] == next;
  }

  lemma {:induction false} ItemsReadBack(items: seq<Bytes>, rest: Bytes, more: bool)
    requires items != []
    ensures ReadItems(Join(QuotedAll(items), COMMA) + ([93] + rest), more) == Some((items, rest))
    decreases |items|
  {
    if |items| == 1 {
      LastItemReadsBack(items[0], rest, more);
      assert items == [items[0]];
    } else {
      var q, others := Quoted(Short, items[0]), Join(QuotedAll(items[1..]), COMMA);
      assert QuotedAll(items)[1..] == QuotedAll(items[1..]);
      ItemsReadBack(items[1..], rest, true);
      NextItemReadsBack(items[0], others + ([93] + rest), items[1..], rest, more);
      Grouped(q, [COMMA], others);
      Grouped(q, [COMMA] + others, [93] + rest);
      Grouped([COMMA], others, [93] + rest);
      assert items == [items[0]] + items[1..];
    }
  }

  /** The text of a SET value, wherever it stands, is read back as its labels. */
  lemma ArrayReadsBack(items: seq<Bytes>, rest: Bytes)
    ensures ReadArray(ArrayText(items) + rest) == Some((items, rest))
  {
    var text := ArrayText(items) + rest;
    if items == [] {
      assert text[1..] == [93] + rest && ([93] + rest)[1..] == rest;
    } else {
      ItemsReadBack(items, rest, false);
      assert text[1..] == Join(QuotedAll(items), COMMA) + ([93] + rest);
    }
  }

  /** The text of a SET value is read back as its labels. */
  lemma ArrayRoundTrip(items: seq<Bytes>)
    ensures ReadArray(ArrayText(items)) == Some((items, []))
  {
    ArrayReadsBack(items, []);
    assert ArrayText(items) + [] == ArrayText(items);
  }

  // Round trips ---------------------------------------------------------------------------------

  /** Labels a SET can be declared with and its values told apart. */
  ghost predicate Declarable(labels: seq<Bytes>) {
    && |labels| <= 64
    && (forall i :: 0 <= i < |labels| ==> labels[i] != [] && COMMA !in labels[i])
    && (forall i, j :: 0 <= i < j < |labels| ==> labels[i] != labels[j])
  }

  /** The members a value holds, as the server lists them. */
  function Picked(labels: seq<Bytes>, pick: set<nat>): seq<Bytes> {
    if labels == [] then [] else
      var n := |labels| - 1;
      Picked(labels[..n], pick) + if n in pick then [labels[n]] else []
  }

  lemma {:induction false} PickedAreLabels(labels: seq<Bytes>, pick: set<nat>)
    ensures forall m :: m in Picked(labels, pick) <==> exists i :: 0 <= i < |labels| && i in pick && labels[i] == m
  {
    if labels != [] {
      PickedAreLabels(labels[..|labels| - 1], pick);
    }
  }

  lemma IndexOfDeclared(labels: seq<Bytes>, i: nat)
    requires Declarable(labels) && i < |labels|
    ensures IndexOf(labels, labels[i]) == Some(i)
  {
  }

  function Under(pick: set<nat>, n: nat): set<nat> { set i | i in pick && i < n }

  lemma UnderNext(pick: set<nat>, n: nat)
    ensures Under(pick, n + 1) == Under(pick, n) + if n in pick then {n} else {}
  {
  }

  lemma BitsOneMore(labels: seq<Bytes>, members: seq<Bytes>, i: nat)
    requires Declarable(labels) && i < |labels| && Bits(labels, members).Some?
    ensures Bits(labels, members + [labels[i]]) == Some(WithBit(Bits(labels, members).value, i))
  {
    IndexOfDeclared(labels, i);
    assert (members + [labels[i]])[..|members|] == members;
  }

  lemma {:induction false} BitsOfPicked(labels: seq<Bytes>, pick: set<nat>, n: nat)
    requires Declarable(labels) && n <= |labels|
    ensures var b := Bits(labels, Picked(labels[..n], pick)); b.Some? && Places(b.value) == Under(pick, n)
  {
    if n == 0 {
      NoPlaces();
    } else {
      BitsOfPicked(labels, pick, n - 1);
      assert labels[..n][..n - 1] == labels[..n - 1];
      UnderNext(pick, n - 1);
      var before := Picked(labels[..n - 1], pick);
      if n - 1 in pick {
        BitsOneMore(labels, before, n - 1);
        PlacesWithBit(Bits(labels, before).value, n - 1);
      } else {
        assert before + [] == before;
      }
    }
  }

  lemma {:induction false} ChosenIsPicked(labels: seq<Bytes>, bits: bv64, pick: set<nat>)
    requires |labels| <= 64 && forall i :: 0 <= i < |labels| ==> (i in Places(bits) <==> i in pick)
    ensures Chosen(labels, bits) == Picked(labels, pick)
  {
    if labels != [] {
      ChosenIsPicked(labels[..|labels| - 1], bits, pick);
      assert |labels| - 1 in Places(bits) <==> |labels| - 1 in pick;
    }
  }

  lemma JoinedNotEmpty(parts: seq<Bytes>)
    requires parts != [] && parts[0] != []
    ensures Join(parts, COMMA) != []
  {
  }

  /** For every declaration of up to 64 distinct, non-empty, comma-free labels and every choice of
    * them, the last place included: the text the server sends, turned into a number by the scanner
    * and back into labels by the pipeline, gives exactly the chosen labels in declaration order. */
  lemma SetRoundTrip(labels: seq<Bytes>, pick: set<nat>)
    requires Declarable(labels)
    ensures var r := Bitmask(labels, Join(Picked(labels, pick), COMMA));
            r.Some? && Chosen(labels, r.value) == Picked(labels, pick)
  {
    var members := Picked(labels, pick);
    assert labels[..|labels|] == labels;
    BitsOfPicked(labels, pick, |labels|);
    PickedAreLabels(labels, pick);
    if members != [] {
      forall i | 0 <= i < |members| ensures COMMA !in members[i] && members[i] != [] {
        assert members[i] in members;
      }
      JoinedNotEmpty(members);
      SplitJoin(members, COMMA);
    }
    ChosenIsPicked(labels, Bits(labels, members).value, pick);
  }

  // ENUM ----------------------------------------------------------------------------------------

  /** The scanner's number for an ENUM value: 0 for the empty text, else its place counted from 1. */
  method EnumMember(labels: seq<Bytes>, text: Bytes) returns (r: Option<nat>)
    ensures r == MemberNumber(labels, text)
  {
    if text == [] {
      return Some(0);
    }
    var index := IndexOfString(labels, text);
    if index.None? {
      return None;
    }
    return Some(index.value + 1);
  }

  function MemberNumber(labels: seq<Bytes>, text: Bytes): Option<nat> {
    if text == [] then Some(0)
    else match IndexOf(labels, text)
      case None => None
      case Some(i) => Some(i + 1)
  }

  /** The pipeline's label for a number, or None when there are not that many. */
  function MemberLabel(labels: seq<Bytes>, n: int): Option<Bytes> {
    if n == 0 then Some([])
    else if 1 <= n <= |labels| then Some(labels[n - 1])
    else None
  }

  /** Members are counted from 1, as the binlog counts them; 0 is the empty value. */
  lemma MembersCountFromOne(labels: seq<Bytes>, i: nat)
    requires i < |labels|
    ensures MemberLabel(labels, i + 1) == Some(labels[i]) && MemberLabel(labels, 0) == Some([])
    ensures MemberLabel(labels, |labels| + 1) == None && MemberLabel(labels, -1) == None
    ensures MemberNumber([labels[i]], labels[i]) == if labels[i] == [] then Some(0) else Some(1)
  {
  }

  /** A value goes through unchanged exactly when it is empty or declared; any other is an error,
    * never another label. */
  lemma EnumRoundTrip(labels: seq<Bytes>, text: Bytes)
    ensures MemberNumber(labels, text).Some? <==> text == [] || text in labels
    ensures MemberNumber(labels, text).Some? ==> MemberLabel(labels, MemberNumber(labels, text).value) == Some(text)
  {
  }
}
