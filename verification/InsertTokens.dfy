/** The token an insert carries so that the server can drop a repeated one. */
module InsertTokens {
  import opened Documents
  import opened Text
  import opened RowText
  import Batching
  import Keyset

  const DASH: Byte := 45

  function Token(docs: seq<Doc>): Bytes {
    if docs == [] then [] else
      docs[0].key + ([DASH] + Decimal(docs[0].version)) + ([DASH] + Decimal(docs[|docs| - 1].version)) +
      ([DASH] + Decimal(|docs|))
  }

  /** What a token tells the server. */
  predicate LookAlike(a: seq<Doc>, b: seq<Doc>) {
    a == b == [] ||
    (a != [] && b != [] && |a| == |b| && a[0].key == b[0].key && a[0].version == b[0].version
     && a[|a| - 1].version == b[|b| - 1].version)
  }

  lemma LastNumber(front: Bytes, n: nat, front': Bytes, n': nat)
    requires front + ([DASH] + Decimal(n)) == front' + ([DASH] + Decimal(n'))
    ensures front == front' && n == n'
  {
    var whole := front + ([DASH] + Decimal(n));
    Grouped(front, [DASH], Decimal(n));
    Grouped(front', [DASH], Decimal(n'));
    TrailingDigitsAre(front + [DASH], Decimal(n));
    TrailingDigitsAre(front' + [DASH], Decimal(n'));
    SuffixOff(front + [DASH], Decimal(n));
    SuffixOff(front' + [DASH], Decimal(n'));
    assert (front + [DASH])[..|front|] == front && (front' + [DASH])[..|front'|] == front';
    DecimalInjective(n, n');
  }

  /** Two inserts share a token exactly when they agree on the first key, the first and the last
    * version and the number of rows, whatever the keys contain. */
  lemma TokensAgreeExactlyWhen(a: seq<Doc>, b: seq<Doc>)
    ensures Token(a) == Token(b) <==> LookAlike(a, b)
  {
    if a != [] && b != [] && Token(a) == Token(b) {
      var a1 := a[0].key + ([DASH] + Decimal(a[0].version));
      var b1 := b[0].key + ([DASH] + Decimal(b[0].version));
      LastNumber(a1 + ([DASH] + Decimal(a[|a| - 1].version)), |a|, b1 + ([DASH] + Decimal(b[|b| - 1].version)), |b|);
      LastNumber(a1, a[|a| - 1].version, b1, b[|b| - 1].version);
      LastNumber(a[0].key, a[0].version, b[0].key, b[0].version);
    }
  }

  /** No key is written twice with one version. */
  ghost predicate OncePerVersion(line: seq<Doc>) {
    forall i, j :: 0 <= i < j < |line| ==> line[i].key != line[j].key || line[i].version != line[j].version
  }

  /** Within one run, where batches are consecutive pieces of one line of documents, a token stands
    * for one batch, halves of refused batches included. */
  lemma TokenIdentifiesWithinARun(line: seq<Doc>, i: nat, m: nat, j: nat, n: nat)
    requires OncePerVersion(line) && i < m <= |line| && j < n <= |line|
    requires Token(line[i..m]) == Token(line[j..n])
    ensures i == j && m == n
  {
    TokensAgreeExactlyWhen(line[i..m], line[j..n]);
    assert line[i..m][0] == line[i] && line[j..n][0] == line[j];
  }

  /** Across runs it need not: all rows of a scan carry one version, so batches of a scan and of its
    * resumption that begin at the same row and have one length look alike, whatever else they hold. */
  lemma ResumedScanLooksAlike(first: Doc, rest: seq<Doc>, rest': seq<Doc>)
    requires |rest| == |rest'|
    requires forall i :: 0 <= i < |rest| ==> rest[i].version == first.version && rest'[i].version == first.version
    ensures Token([first] + rest) == Token([first] + rest')
  {
    TokensAgreeExactlyWhen([first] + rest, [first] + rest');
  }

  // A server that drops repeated tokens ---------------------------------------------------------

  /** The rows a server holds and the tokens it remembers. */
  datatype Deduplicating = Deduplicating(held: set<Doc>, tokens: set<Bytes>)

  /** An insert whose token was seen before is answered as done and ignored. */
  function Inserted(s: Deduplicating, docs: seq<Doc>): Deduplicating {
    if Token(docs) in s.tokens then s
    else Deduplicating(s.held + ToSet(docs), s.tokens + {Token(docs)})
  }

  /** Repeating an insert that was lost on the way back is harmless, which is what the token is for. */
  lemma RetryIsHarmless(s: Deduplicating, docs: seq<Doc>)
    ensures Inserted(Inserted(s, docs), docs) == Inserted(s, docs)
  {
  }

  /** A run of inserts, in order. */
  function InsertedAll(s: Deduplicating, batches: seq<seq<Doc>>): Deduplicating {
    if batches == [] then s
    else Inserted(InsertedAll(s, batches[..|batches| - 1]), batches[|batches| - 1])
  }

  lemma {:induction false} InsertedTokens(s: Deduplicating, batches: seq<seq<Doc>>, token: Bytes)
    ensures token in InsertedAll(s, batches).tokens <==>
            token in s.tokens || exists x :: 0 <= x < |batches| && Token(batches[x]) == token
  {
    if batches != [] {
      InsertedTokens(s, batches[..|batches| - 1], token);
      assert forall x :: 0 <= x < |batches| - 1 ==> batches[..|batches| - 1][x] == batches[x];
    }
  }

  /** Nothing is held that was not held before or inserted. */
  lemma {:induction false} HeldWasInserted(s: Deduplicating, batches: seq<seq<Doc>>, d: Doc)
    ensures d in s.held ==> d in InsertedAll(s, batches).held
    ensures d in InsertedAll(s, batches).held ==> d in s.held || exists x :: 0 <= x < |batches| && d in batches[x]
  {
    if batches != [] {
      HeldWasInserted(s, batches[..|batches| - 1], d);
      assert forall x :: 0 <= x < |batches| - 1 ==> batches[..|batches| - 1][x] == batches[x];
    }
  }

  ghost predicate Unseen(s: Deduplicating, batches: seq<seq<Doc>>) {
    forall x :: 0 <= x < |batches| ==> Token(batches[x]) !in s.tokens
  }

  ghost predicate NoneAlike(batches: seq<seq<Doc>>) {
    forall x, y :: 0 <= x < y < |batches| ==> !LookAlike(batches[x], batches[y])
  }

  lemma LastIsNew(s: Deduplicating, front: seq<seq<Doc>>, last: seq<Doc>)
    requires Token(last) !in s.tokens && forall x :: 0 <= x < |front| ==> !LookAlike(front[x], last)
    ensures Token(last) !in InsertedAll(s, front).tokens
  {
    InsertedTokens(s, front, Token(last));
    forall x | 0 <= x < |front| ensures Token(front[x]) != Token(last) {
      TokensAgreeExactlyWhen(front[x], last);
    }
  }

  lemma FrontIsNew(s: Deduplicating, batches: seq<seq<Doc>>)
    requires Unseen(s, batches) && NoneAlike(batches) && batches != []
    ensures Unseen(s, batches[..|batches| - 1]) && NoneAlike(batches[..|batches| - 1])
    ensures Token(batches[|batches| - 1]) !in InsertedAll(s, batches[..|batches| - 1]).tokens
  {
    LastIsNew(s, batches[..|batches| - 1], batches[|batches| - 1]);
  }

  /** Batches that look like none before them are all held. */
  lemma {:induction false} NewBatchesAreHeld(s: Deduplicating, batches: seq<seq<Doc>>, x: nat)
    requires Unseen(s, batches) && NoneAlike(batches) && x < |batches|
    ensures ToSet(batches[x]) <= InsertedAll(s, batches).held
  {
    FrontIsNew(s, batches);
    if x < |batches| - 1 {
      NewBatchesAreHeld(s, batches[..|batches| - 1], x);
    }
  }

  // The batches of two runs ---------------------------------------------------------------------

  /** Where batch x begins in the line the batches were cut from. */
  function Offset(batches: seq<seq<Doc>>, x: nat): nat
    requires x <= |batches|
  {
    |Batching.Concat(batches[..x])|
  }

  lemma {:induction false} ConcatAt(batches: seq<seq<Doc>>, x: nat, j: nat)
    requires x < |batches| && j < |batches[x]|
    ensures Offset(batches, x) + j < |Batching.Concat(batches)|
    ensures Batching.Concat(batches)[Offset(batches, x) + j] == batches[x][j]
  {
    var front := batches[..|batches| - 1];
    if x < |batches| - 1 {
      ConcatAt(front, x, j);
      assert front[..x] == batches[..x];
    }
  }

  lemma {:induction false} OffsetsRise(batches: seq<seq<Doc>>, x: nat, y: nat)
    requires x < y <= |batches|
    ensures Offset(batches, x) + |batches[x]| <= Offset(batches, y)
  {
    assert batches[..y][..y - 1] == batches[..y - 1];
    if x < y - 1 {
      OffsetsRise(batches, x, y - 1);
    }
  }

  lemma PlacesDiffer(batches: seq<seq<Doc>>, x: nat, y: nat, i: nat, j: nat)
    requires OncePerVersion(Batching.Concat(batches)) && x < y < |batches| && i < |batches[x]| && j < |batches[y]|
    ensures batches[x][i].key != batches[y][j].key || batches[x][i].version != batches[y][j].version
  {
    OffsetsRise(batches, x, y);
    ConcatAt(batches, x, i);
    ConcatAt(batches, y, j);
  }

  /** No document of a line is in two batches of it, and no two of its batches look alike. */
  lemma BatchesDiffer(batches: seq<seq<Doc>>, x: nat, y: nat)
    requires OncePerVersion(Batching.Concat(batches)) && x < y < |batches| && batches[x] != [] && batches[y] != []
    ensures !LookAlike(batches[x], batches[y]) && forall d :: d in batches[x] ==> d !in batches[y]
  {
    PlacesDiffer(batches, x, y, 0, 0);
    forall i, j | 0 <= i < |batches[x]| && 0 <= j < |batches[y]| ensures batches[x][i] != batches[y][j] {
      PlacesDiffer(batches, x, y, i, j);
    }
  }

  ghost predicate NoneEmpty(batches: seq<seq<Doc>>) {
    forall x :: 0 <= x < |batches| ==> batches[x] != []
  }

  lemma LineHasNoneAlike(batches: seq<seq<Doc>>)
    requires OncePerVersion(Batching.Concat(batches)) && NoneEmpty(batches)
    ensures NoneAlike(batches)
  {
    forall x, y | 0 <= x < y < |batches| ensures !LookAlike(batches[x], batches[y]) {
      BatchesDiffer(batches, x, y);
    }
  }

  ghost predicate IsIn(batches: seq<seq<Doc>>, d: Doc) {
    exists x :: 0 <= x < |batches| && d in batches[x]
  }

  lemma LineIsHeld(s: Deduplicating, batches: seq<seq<Doc>>, d: Doc)
    requires OncePerVersion(Batching.Concat(batches)) && NoneEmpty(batches)
    requires Unseen(s, batches)
    ensures d in InsertedAll(s, batches).held <==> d in s.held || IsIn(batches, d)
  {
    HeldWasInserted(s, batches, d);
    if x :| 0 <= x < |batches| && d in batches[x] {
      LineHasNoneAlike(batches);
      NewBatchesAreHeld(s, batches, x);
    }
  }

  lemma NotHeldByEarlier(s: Deduplicating, batches: seq<seq<Doc>>, y: nat, d: Doc)
    requires OncePerVersion(Batching.Concat(batches)) && NoneEmpty(batches)
    requires y < |batches| && d in batches[y]
    ensures d in InsertedAll(s, batches[..y]).held <==> d in s.held
  {
    HeldWasInserted(s, batches[..y], d);
    forall z | 0 <= z < y ensures d !in batches[..y][z] {
      BatchesDiffer(batches, z, y);
    }
  }

  lemma SeenTokenIsDropped(s: Deduplicating, first: seq<seq<Doc>>, second: seq<seq<Doc>>, x: nat, batch: seq<Doc>)
    requires x < |first| && LookAlike(first[x], batch)
    ensures Token(batch) in InsertedAll(InsertedAll(s, first), second).tokens
  {
    TokensAgreeExactlyWhen(first[x], batch);
    InsertedTokens(s, first, Token(batch));
    InsertedTokens(InsertedAll(s, first), second, Token(batch));
  }

  /** A run inserted its batches, and another run of the same versions came to a batch that looks like one
    * of them. It is dropped whole: a document of it ends up held exactly if the first run carried it. */
  lemma LookAlikeIsDropped(s: Deduplicating, first: seq<seq<Doc>>, second: seq<seq<Doc>>, x: nat, y: nat, d: Doc)
    requires OncePerVersion(Batching.Concat(first)) && OncePerVersion(Batching.Concat(second))
    requires NoneEmpty(first) && NoneEmpty(second) && Unseen(s, first)
    requires x < |first| && y < |second| && LookAlike(first[x], second[y]) && d in second[y]
    ensures var before := InsertedAll(InsertedAll(s, first), second[..y]);
            Inserted(before, second[y]) == before && (d in before.held <==> d in s.held || IsIn(first, d))
  {
    SeenTokenIsDropped(s, first, second[..y], x, second[y]);
    LineIsHeld(s, first, d);
    NotHeldByEarlier(InsertedAll(s, first), second, y, d);
  }

  // A scan and its resumption -------------------------------------------------------------------

  /** The documents of a page of a scan: the rows' keys and bodies under the scan's version. */
  function PageDocs(page: seq<Keyset.Row>, base: nat, keyOf: real -> Bytes): (ds: seq<Doc>)
    ensures |ds| == |page|
    ensures forall i :: 0 <= i < |page| ==> ds[i] == RowDoc(page[i], base, keyOf)
  {
    seq(|page|, i requires 0 <= i < |page| => RowDoc(page[i], base, keyOf))
  }

  function RowDoc(row: Keyset.Row, base: nat, keyOf: real -> Bytes): Doc { Doc(keyOf(row.key), base, false, row.body) }

  /** The batcher was given a page, whatever deadlines made it flush, and made these batches of it. */
  ghost predicate BatchesOfPage(lim: Batching.Limits, calls: seq<Batching.Call>, rows: map<real, Bytes>,
                                from: Option<real>, limit: nat, page: seq<Keyset.Row>, base: nat,
                                keyOf: real -> Bytes, batches: seq<seq<Doc>>) {
    && Batching.Usable(lim) && Keyset.IsPageOf(rows, from, limit, page)
    && Batching.Inputs(calls) == PageDocs(page, base, keyOf)
    && batches == Batching.Replay(lim, calls).batches
  }

  /** Different places among these have different keys. */
  ghost predicate TellsKeysApart(keyOf: real -> Bytes, places: set<real>) {
    forall r, u :: r in places && u in places && keyOf(r) == keyOf(u) ==> r == u
  }

  lemma PageIsOncePerVersion(rows: map<real, Bytes>, from: Option<real>, limit: nat, page: seq<Keyset.Row>, base: nat,
                             keyOf: real -> Bytes)
    requires Keyset.IsPageOf(rows, from, limit, page) && TellsKeysApart(keyOf, rows.Keys)
    ensures OncePerVersion(PageDocs(page, base, keyOf))
  {
    assert forall i :: 0 <= i < |page| ==> Keyset.RowKeys(page)[i] == page[i].key;
  }

  lemma BatchesOfPageAre(lim: Batching.Limits, calls: seq<Batching.Call>, rows: map<real, Bytes>, from: Option<real>,
                         limit: nat, page: seq<Keyset.Row>, base: nat, keyOf: real -> Bytes, batches: seq<seq<Doc>>)
    requires BatchesOfPage(lim, calls, rows, from, limit, page, base, keyOf, batches)
    requires TellsKeysApart(keyOf, rows.Keys)
    ensures OncePerVersion(Batching.Concat(batches))
    ensures NoneEmpty(batches)
    ensures forall x, j :: 0 <= x < |batches| && 0 <= j < |batches[x]| ==> batches[x][j].version == base
  {
    Batching.HistoryKeepsOrderAndLimits(lim, calls);
    forall x | 0 <= x < |batches| ensures batches[x] != [] {
      assert Batching.FitsLimits(lim, batches[x]);
    }
    PageIsOncePerVersion(rows, from, limit, page, base, keyOf);
    var line, docs := Batching.Concat(batches), PageDocs(page, base, keyOf);
    assert forall i :: 0 <= i < |line| ==> line[i] == docs[i];
    forall x, j | 0 <= x < |batches| && 0 <= j < |batches[x]| ensures batches[x][j].version == base {
      ConcatAt(batches, x, j);
    }
  }

  /** A scan sent a page, cut into batches by rows and bytes and deadlines, and died before its cursor was
    * saved. Of the page the resumed scan reads from the same cursor, cut in its own way, every batch that
    * begins at the same row as one of the first and has its length is dropped whole: a row of it is held
    * exactly if the first page carried the same document in a batch. */
  lemma ResumedBatchIsDropped(
      before: map<real, Bytes>, after: map<real, Bytes>, from: Option<real>, limit: nat, a: seq<Keyset.Row>,
      b: seq<Keyset.Row>, base: nat, keyOf: real -> Bytes, lim: Batching.Limits, calls: seq<Batching.Call>,
      calls': seq<Batching.Call>, first: seq<seq<Doc>>, second: seq<seq<Doc>>, s: Deduplicating, x: nat, y: nat, d: Doc)
    requires TellsKeysApart(keyOf, before.Keys) && TellsKeysApart(keyOf, after.Keys)
    requires BatchesOfPage(lim, calls, before, from, limit, a, base, keyOf, first)
    requires BatchesOfPage(lim, calls', after, from, limit, b, base, keyOf, second)
    requires Unseen(s, first)
    requires x < |first| && y < |second| && |first[x]| == |second[y]| && d in second[y]
    requires first[x] != [] && second[y] != [] && first[x][0].key == second[y][0].key
    ensures var sofar := InsertedAll(InsertedAll(s, first), second[..y]);
            Inserted(sofar, second[y]) == sofar && (d in sofar.held <==> d in s.held || IsIn(first, d))
  {
    BatchesOfPageAre(lim, calls, before, from, limit, a, base, keyOf, first);
    BatchesOfPageAre(lim, calls', after, from, limit, b, base, keyOf, second);
    LookAlikeIsDropped(s, first, second, x, y, d);
  }

  /** And a row it loses is lost for good: the scan goes on behind the page and never sends its key
    * again, and a row nobody changed is not in the log. */
  lemma LostRowIsNotSentAgain(
      after: map<real, Bytes>, from: Option<real>, limit: nat, b: seq<Keyset.Row>, i: nat,
      rest: seq<real>, present: set<real>, finished: bool)
    requires Keyset.IsPageOf(after, from, limit, b) && i < |b|
    requires Keyset.Swept(Some(b[|b| - 1].key), rest, present, finished)
    ensures b[i].key !in rest
  {
    assert Keyset.RowKeys(b)[i] <= Keyset.RowKeys(b)[|b| - 1];
    assert forall j :: 0 <= j < |rest| ==> Past(Some(b[|b| - 1].key), rest[j]);
  }

  function ThreeRows(x: Bytes): map<real, Bytes> { map[1.0 := x, 2.0 := x, 3.0 := x] }

  function TwoLeft(x: Bytes): map<real, Bytes> { map[1.0 := x, 3.0 := x] }

  function PageOfTwo(x: Bytes, second: real): seq<Keyset.Row> { [Keyset.Row(1.0, x), Keyset.Row(second, x)] }

  function PlaceDoc(base: nat, r: real, x: Bytes): Doc { Doc(PlaceKey(r), base, false, x) }

  function PlaceKey(r: real): Bytes { if r == 1.0 then [1] else if r == 2.0 then [2] else [3] }

  /** A page of two rows as the batcher gets it. */
  function AddTwo(base: nat, x: Bytes, second: real): seq<Batching.Call> {
    [Batching.Add(PlaceDoc(base, 1.0, x)), Batching.Add(PlaceDoc(base, second, x))]
  }

  /** Two rows at a time. */
  function TwoAtATime(x: Bytes): Batching.Limits { Batching.Limits(2, 2 * |x| + 3) }

  lemma TwoAdded(lim: Batching.Limits, d: Doc, e: Doc)
    requires lim.maxRows == 2 && d.Size() + e.Size() < lim.maxBytes
    ensures Batching.Added(lim, [], d) == ([], [d]) && Batching.Added(lim, [d], e) == ([d, e], [])
  {
    assert [d][..0] == [];
    assert Batching.SizeOf([d]) == d.Size();
    assert [] + [d] == [d] && [d] + [e] == [d, e];
  }

  lemma OneCall(lim: Batching.Limits, calls: seq<Batching.Call>, d: Doc)
    ensures var h, all := Batching.Replay(lim, calls), calls + [Batching.Add(d)];
            Batching.Replay(lim, all) ==
            Batching.Emit(h, Batching.Added(lim, h.pending, d).0, Batching.Added(lim, h.pending, d).1)
  {
    assert (calls + [Batching.Add(d)])[..|calls|] == calls;
  }

  lemma TwoFillABatch(lim: Batching.Limits, d: Doc, e: Doc)
    requires lim.maxRows == 2 && d.Size() + e.Size() < lim.maxBytes
    ensures Batching.Replay(lim, [Batching.Add(d), Batching.Add(e)]).batches == [[d, e]]
  {
    TwoAdded(lim, d, e);
    OneCall(lim, [], d);
    OneCall(lim, [] + [Batching.Add(d)], e);
    assert [] + [Batching.Add(d)] + [Batching.Add(e)] == [Batching.Add(d), Batching.Add(e)];
  }

  lemma TwoInputs(d: Doc, e: Doc)
    ensures Batching.Inputs([Batching.Add(d), Batching.Add(e)]) == [d, e]
  {
    var calls := [Batching.Add(d), Batching.Add(e)];
    assert calls[..1] == [Batching.Add(d)] && calls[..1][..0] == [];
    assert Batching.Inputs(calls[..1]) == [d];
  }

  lemma PagesOfTwo(x: Bytes)
    ensures Keyset.IsPageOf(ThreeRows(x), None, 2, PageOfTwo(x, 2.0))
    ensures Keyset.IsPageOf(TwoLeft(x), None, 2, PageOfTwo(x, 3.0))
  {
    assert Keyset.RowKeys(PageOfTwo(x, 2.0)) == [1.0, 2.0] && Keyset.RowKeys(PageOfTwo(x, 3.0)) == [1.0, 3.0];
  }

  /** The batcher makes one batch of a page of two rows. */
  lemma PageIsOneBatch(base: nat, x: Bytes, rows: map<real, Bytes>, second: real)
    requires Keyset.IsPageOf(rows, None, 2, PageOfTwo(x, second))
    ensures BatchesOfPage(TwoAtATime(x), AddTwo(base, x, second), rows, None, 2, PageOfTwo(x, second), base, PlaceKey,
                          [[PlaceDoc(base, 1.0, x), PlaceDoc(base, second, x)]])
  {
    var d, e := PlaceDoc(base, 1.0, x), PlaceDoc(base, second, x);
    TwoInputs(d, e);
    TwoFillABatch(TwoAtATime(x), d, e);
    assert [d, e] == PageDocs(PageOfTwo(x, second), base, PlaceKey);
  }

  /** The second run inserted the document, and it is not held once both have inserted their batches. */
  ghost predicate EndsWithout(first: seq<seq<Doc>>, second: seq<seq<Doc>>, d: Doc) {
    IsIn(second, d) && d !in InsertedAll(InsertedAll(Deduplicating({}, {}), first), second).held
  }

  lemma DroppedBatchEndsWithout(first: seq<seq<Doc>>, batch: seq<Doc>, d: Doc)
    requires var sofar := InsertedAll(InsertedAll(Deduplicating({}, {}), first), [batch][..0]);
             Inserted(sofar, batch) == sofar && d !in sofar.held
    requires d in batch
    ensures EndsWithout(first, [batch], d)
  {
    assert d in [batch][0];
  }

  lemma PlacesHaveKeys(x: Bytes)
    ensures TellsKeysApart(PlaceKey, ThreeRows(x).Keys) && TellsKeysApart(PlaceKey, TwoLeft(x).Keys)
  {
  }

  lemma OneUnseenBatch(batch: seq<Doc>, f: Doc)
    requires f !in batch
    ensures Unseen(Deduplicating({}, {}), [batch]) && !IsIn([batch], f)
  {
  }

  lemma ThirdIsLost(x: Bytes, base: nat, d: Doc, e: Doc, f: Doc)
    requires d.key == [1] && f !in [d, e]
    requires BatchesOfPage(TwoAtATime(x), AddTwo(base, x, 2.0), ThreeRows(x), None, 2, PageOfTwo(x, 2.0), base,
                           PlaceKey,
                           [[d, e]])
    requires BatchesOfPage(TwoAtATime(x), AddTwo(base, x, 3.0), TwoLeft(x), None, 2, PageOfTwo(x, 3.0), base, PlaceKey,
                           [[d, f]])
    ensures EndsWithout([[d, e]], [[d, f]], f)
  {
    PlacesHaveKeys(x);
    OneUnseenBatch([d, e], f);
    assert [d, f][1] == f;
    ResumedBatchIsDropped(ThreeRows(x), TwoLeft(x), None, 2, PageOfTwo(x, 2.0), PageOfTwo(x, 3.0), base, PlaceKey,
                          TwoAtATime(x), AddTwo(base, x, 2.0), AddTwo(base, x, 3.0), [[d, e]], [[d, f]],
                          Deduplicating({}, {}), 0, 0, f);
    DroppedBatchEndsWithout([[d, e]], [d, f], f);
  }

  /** Three rows are enough, two to a page and to a batch: the second row is deleted between the two reads,
    * and the third, which was there all the time, is not held in the end. */
  lemma ThreeRowsSuffice(x: Bytes, base: nat)
    ensures 3.0 in ThreeRows(x) && 3.0 in TwoLeft(x)
    ensures var d, e, f := PlaceDoc(base, 1.0, x), PlaceDoc(base, 2.0, x), PlaceDoc(base, 3.0, x);
            && BatchesOfPage(TwoAtATime(x), AddTwo(base, x, 2.0), ThreeRows(x), None, 2, PageOfTwo(x, 2.0), base,
                             PlaceKey, [[d, e]])
            && BatchesOfPage(TwoAtATime(x), AddTwo(base, x, 3.0), TwoLeft(x), None, 2, PageOfTwo(x, 3.0), base,
                             PlaceKey, [[d, f]])
            && EndsWithout([[d, e]], [[d, f]], f)
  {
    var d, e, f := PlaceDoc(base, 1.0, x), PlaceDoc(base, 2.0, x), PlaceDoc(base, 3.0, x);
    PagesOfTwo(x);
    PageIsOneBatch(base, x, ThreeRows(x), 2.0);
    PageIsOneBatch(base, x, TwoLeft(x), 3.0);
    ThirdIsLost(x, base, d, e, f);
  }
}
