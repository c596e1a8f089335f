/** What every step of the protocol keeps. */
module Invariant {
  import opened Documents
  import opened Source
  import opened Protocol

  ghost predicate DeadKey(dead: set<Letter>, k: Bytes) {
    exists d :: Refused(d) in dead && d.key == k
  }

  /** A newer document for the same key was refused. */
  ghost predicate Overruled(dead: set<Letter>, d: Doc) {
    exists r :: Refused(r) in dead && r.key == d.key && r.version > d.version
  }

  /** The destination could still come to hold the document, or holds it. */
  predicate Live(dest: Dest, d: Doc) {
    d.key in dest ==> dest[d.key].version <= d.version
  }

  /** Both readings of the log allow the value at some moment since the saved position. */
  ghost predicate KeyFresh(t: Table, w: World, v: Held, k: Bytes)
    requires w.now <= |t.changes|
  {
    Fresh(t, Since(t, w.core.row), v, k, Low(t, w.core.row), w.now)
  }

  /** Nothing is owed for this key: it was written, refused, skipped by a crash, or rightly absent. */
  ghost predicate Ok(t: Table, w: World, k: Bytes)
    requires w.now <= |t.changes|
  {
    k in w.core.dest || DeadKey(w.core.dead, k) || k in w.skipped || KeyFresh(t, w, Absent, k)
  }

  ghost predicate DocFresh(t: Table, w: World, d: Doc)
    requires w.now <= |t.changes|
  {
    KeyFresh(t, w, d.Value(), d.key)
  }

  /** The value was the source's at some moment since the scan began. */
  ghost predicate Witnessed(t: Table, w: World, v: Held, k: Bytes)
    requires w.now <= |t.changes|
  {
    exists m: nat :: Since(t, w.core.row) <= m <= w.now && ValueAt(t, m, k) == v
  }

  /** A document carries the scan's base version and a value the scan saw, or its change's own value and
    * version. */
  ghost predicate Stamped(t: Table, w: World, d: Doc)
    requires w.now <= |t.changes|
  {
    || (d.version == w.core.row.base && Witnessed(t, w, d.Value(), d.key))
    || (d.version in w.issued && StampedBy(t, w.issued[d.version], d))
  }

  predicate StampedBy(t: Table, i: nat, d: Doc) {
    i < |t.changes| && t.changes[i].effect.Encoded? && Put(t.changes[i], d.key) == Some(d.Value())
  }

  ghost predicate RowInv(t: Table, w: World)
    requires w.now <= |t.changes|
  {
    var row := w.core.row;
    && (row.start.None? ==>
          && w.core.dest == map[] && w.core.sent == {} && w.issued == map[] && Idle(w.core)
          && !row.done && row.gtid.None? && row.cursor.None? && w.phase == Down)
    && (row.start.Some? ==> IsPrefix(t, row.start.value) && Cut(t, row.start.value) <= Low(t, row) <= w.now)
    && (row.gtid.Some? ==> IsPrefix(t, row.gtid.value) && row.done)
    && (forall v :: v in w.issued ==> row.base < v && Since(t, row) <= w.issued[v] < w.now)
    && (w.phase.Scanning? ==> row.gtid.None?)
    && (w.phase.Streaming? ==> row.done)
    && (w.phase.Down? ==> Idle(w.core) && w.core.mark == NO_MARK && w.core.copy.None?)
  }

  ghost predicate DestInv(t: Table, w: World)
    requires w.now <= |t.changes|
  {
    && Keyed(w.core.dest)
    && (forall k :: k in w.core.dest ==> w.core.dest[k] in w.core.sent)
    && (forall d :: d in w.core.sent ==> Stamped(t, w, d))
    && (forall d :: d in w.core.sent && Live(w.core.dest, d) && !Overruled(w.core.dead, d) ==> DocFresh(t, w, d))
  }

  function OnTheWay(c: Core): seq<Doc> { Line(c) + DocsOf(c.queue) }

  ghost predicate LineInv(t: Table, w: World)
    requires w.now <= |t.changes|
  {
    forall d :: d in OnTheWay(w.core) ==> Stamped(t, w, d) && DocFresh(t, w, d)
  }

  ghost predicate Owed(t: Table, w: World, k: Bytes, ds: seq<Doc>)
    requires w.now <= |t.changes|
  {
    Ok(t, w, k) || HasKey(ds, k)
  }

  ghost predicate UpTo(t: Table, at: Option<real>, k: Bytes) {
    at.Some? && t.rank(k) <= at.value
  }

  /** Every key the scan has passed is settled or still on its way, at each place the scan's
    * progress is recorded. */
  ghost predicate CoverInv(t: Table, w: World)
    requires w.now <= |t.changes|
  {
    var c := w.core;
    && (c.row.done ==> forall k :: Ok(t, w, k))
    && (forall k :: UpTo(t, c.row.cursor, k) ==> Owed(t, w, k, Line(c)))
    && (forall k :: UpTo(t, c.mark.cursor, k) ==> Owed(t, w, k, Line(c)))
    && (forall q, k :: 0 <= q < |c.queue| && UpTo(t, c.queue[q].cursor, k) ==>
          Owed(t, w, k, Line(c) + DocsOf(c.queue[..q + 1])))
    && (w.phase.Scanning? ==> forall k :: UpTo(t, w.phase.at, k) ==> Owed(t, w, k, OnTheWay(c)))
    && (w.phase.Scanning? && w.phase.exhausted ==> forall k :: Owed(t, w, k, OnTheWay(c)))
  }

  predicate AtMost(a: Option<real>, b: Option<real>) {
    a.Some? ==> b.Some? && a.value <= b.value
  }

  ghost predicate AllAfter(t: Table, at: Option<real>, ds: seq<Doc>) {
    forall d :: d in ds ==> Past(at, t.rank(d.key))
  }

  ghost predicate NoneBefore(t: Table, at: Option<real>, ds: seq<Doc>) {
    at.Some? ==> forall d :: d in ds ==> t.rank(d.key) >= at.value
  }

  /** A scanned row, with the events behind it: a cursor names this row, and later ones follow. */
  ghost predicate RowEvent(t: Table, at: Option<real>, e: Event, behind: seq<Event>) {
    && e.gtid.None? && (e.docs.Some? ==> |e.docs.value| == 1)
    && AtMost(e.cursor, at)
    && AllAfter(t, e.cursor, DocsOf(behind))
    && NoneBefore(t, e.cursor, EventDocs(e))
  }

  ghost predicate ScanQueue(t: Table, at: Option<real>, queue: seq<Event>) {
    forall q :: 0 <= q < |queue| ==> RowEvent(t, at, queue[q], queue[q + 1..])
  }

  ghost predicate Within(t: Table, at: Option<real>, ds: seq<Doc>) {
    forall d :: d in ds ==> at.Some? && t.rank(d.key) <= at.value
  }

  /** The document taken last is never before the cursor about to be saved. */
  ghost predicate ScanMark(t: Table, at: Option<real>, c: Core) {
    var added := c.pending + c.todo;
    && c.mark.gtid.None? && AtMost(c.mark.cursor, at)
    && AllAfter(t, c.mark.cursor, DocsOf(c.queue))
    && (added != [] ==> NoneBefore(t, c.mark.cursor, [added[|added| - 1]]))
  }

  /** No document on its way is before the saved cursor. */
  ghost predicate ScanSaved(t: Table, at: Option<real>, c: Core) {
    && AtMost(c.row.cursor, at)
    && AllAfter(t, c.row.cursor, DocsOf(c.queue))
    && NoneBefore(t, c.row.cursor, Line(c))
  }

  /** While scanning: rows are handled one at a time in key order, so the saved cursor is at
    * most one row ahead of what was written. */
  ghost predicate ScanInv(t: Table, w: World) {
    w.phase.Scanning? ==>
      var c, at := w.core, w.phase.at;
      && ScanQueue(t, at, c.queue) && ScanMark(t, at, c) && ScanSaved(t, at, c)
      && |c.todo| <= 1 && (c.inflight != [] ==> |c.pending + c.todo| <= 1)
      && Ascending(t, OnTheWay(c)) && Within(t, at, OnTheWay(c))
  }

  ghost predicate InHand(c: Core, d: Doc) {
    d in c.todo || d in c.pending || d in c.inflight || Settled(c, d)
  }

  /** Change i could not be encoded, and the letter says so: its own version, under a position that
    * ends at or before it. */
  ghost predicate Buried(t: Table, dead: set<Letter>, i: nat, v: nat) {
    exists p :: Unusable(Some(p), v) in dead && IsPrefix(t, p) && Cut(t, p) <= i
  }

  /** Change i, read as version v, has been taken by the pipeline and not forgotten. */
  ghost predicate Handled(t: Table, c: Core, i: nat, v: nat)
    requires i < |t.changes|
  {
    match t.changes[i].effect
    case Unencoded(_) => Buried(t, c.dead, i, v)
    case Encoded(ws) => forall x :: x in ws ==> InHand(c, DocFor(x, v))
  }

  /** Change i, read as version v, was applied, found stale or dead-lettered in full. */
  ghost predicate Finished(t: Table, c: Core, i: nat, v: nat)
    requires i < |t.changes|
  {
    match t.changes[i].effect
    case Unencoded(_) => Buried(t, c.dead, i, v)
    case Encoded(ws) => forall x :: x in ws ==> Settled(c, DocFor(x, v))
  }

  ghost predicate Accounted(t: Table, w: World, i: nat)
    requires i < |t.changes|
  {
    exists v :: v in w.issued && w.issued[v] == i && Finished(t, w.core, i, v)
  }

  ghost predicate AccountInv(t: Table, w: World)
    requires w.now <= |t.changes|
  {
    w.core.row.start.Some? ==>
      forall i :: Cut(t, w.core.row.start.value) <= i < Low(t, w.core.row) ==> Accounted(t, w, i)
  }

  function TakenCount(w: World): int
    requires w.phase.Streaming?
  {
    |w.phase.vers| - |w.core.queue|
  }

  ghost predicate IsReading(t: Table, from: nat, e: Event, i: nat, v: nat)
    requires i < |t.changes|
  {
    e.gtid.Some? && e == ChangeEvent(t, i, v, e.gtid.value, e.ms) && CoveringPosition(t, e.gtid.value, from, i)
  }

  ghost predicate VersInv(t: Table, w: World)
    requires w.phase.Streaming?
  {
    var from, vers := w.phase.from, w.phase.vers;
    && Rising(vers)
    && (forall j :: 0 <= j < |vers| ==> vers[j] in w.issued && w.issued[vers[j]] == from + j)
    && (forall v :: v in w.issued ==> v in vers || forall j :: 0 <= j < |vers| ==> v < vers[j])
  }

  /** The queue holds the newest changes read, in order. */
  ghost predicate QueueInv(t: Table, w: World)
    requires w.phase.Streaming? && TakenCount(w) >= 0 && w.phase.from + |w.phase.vers| <= |t.changes|
  {
    var h := TakenCount(w);
    forall q :: 0 <= q < |w.core.queue| ==>
      IsReading(t, w.phase.from, w.core.queue[q], w.phase.from + h + q, w.phase.vers[h + q])
  }

  /** The changes no longer queued are finished or in the pipeline. */
  ghost predicate HandledInv(t: Table, w: World)
    requires w.phase.Streaming? && 0 <= TakenCount(w) && w.phase.from + |w.phase.vers| <= |t.changes|
  {
    forall j :: 0 <= j < TakenCount(w) ==> Handled(t, w.core, w.phase.from + j, w.phase.vers[j])
  }

  ghost predicate OfVersion(ds: seq<Doc>, v: nat) {
    forall d :: d in ds ==> d.version == v
  }

  /** Only the change taken last can be partly added, or left behind by a batch; the mark never
    * covers it. */
  ghost predicate NewestInv(t: Table, w: World)
    requires w.phase.Streaming? && 0 <= TakenCount(w)
  {
    var c, h := w.core, TakenCount(w);
    if h == 0 then c.todo == [] && (c.inflight != [] ==> c.pending == []) && c.mark.gtid.None?
    else
      && OfVersion(c.todo, w.phase.vers[h - 1])
      && (c.inflight != [] ==> OfVersion(c.pending, w.phase.vers[h - 1]))
      && (c.mark.gtid.Some? ==> CoveringPosition(t, c.mark.gtid.value, w.phase.from, w.phase.from + h - 1))
  }

  /** While streaming: the changes from `from` on were read in order under rising versions. */
  ghost predicate StreamInv(t: Table, w: World)
    requires w.now <= |t.changes|
  {
    w.phase.Streaming? ==>
      && TakenCount(w) >= 0 && w.phase.from + |w.phase.vers| <= w.now
      && w.phase.from <= Low(t, w.core.row) <= w.phase.from + |w.phase.vers|
      && w.core.row.start.Some? && Cut(t, w.core.row.start.value) <= w.phase.from
      && VersInv(t, w) && QueueInv(t, w) && HandledInv(t, w) && NewestInv(t, w)
  }

  predicate NoneUnusable(dead: set<Letter>) {
    forall l :: l in dead ==> !l.Unusable?
  }

  /** No event so far made no documents: none that was taken, and none of the first n queued. */
  predicate AllUsable(c: Core, n: nat)
    requires n <= |c.queue|
  {
    NoneUnusable(c.dead) && !HasUnencoded(c.queue[..n])
  }

  /** The key's row was one that can be encoded, or absent, at some moment since the scan began. */
  ghost predicate OnceEncodable(t: Table, w: World, k: Bytes)
    requires w.now <= |t.changes|
  {
    exists m: nat :: Since(t, w.core.row) <= m <= w.now && !ValueAt(t, m, k).Unencodable?
  }

  /** A row the scan has passed that could not be encoded all the time left a letter, or an event that
    * will leave one, at each place the scan's progress is recorded. */
  ghost predicate LetterInv(t: Table, w: World)
    requires w.now <= |t.changes|
  {
    var c := w.core;
    && (NoneUnusable(c.dead) ==>
          forall k :: c.row.done || UpTo(t, c.row.cursor, k) || UpTo(t, c.mark.cursor, k) ==> OnceEncodable(t, w, k))
    && (forall q, k :: 0 <= q < |c.queue| && UpTo(t, c.queue[q].cursor, k) && AllUsable(c, q + 1) ==>
          OnceEncodable(t, w, k))
    && (w.phase.Scanning? && AllUsable(c, |c.queue|) ==>
          forall k :: w.phase.exhausted || UpTo(t, w.phase.at, k) ==> OnceEncodable(t, w, k))
  }

  ghost predicate Inv(t: Table, w: World) {
    && Valid(t) && w.now <= |t.changes|
    && RowInv(t, w) && DestInv(t, w) && LineInv(t, w) && CoverInv(t, w) && LetterInv(t, w)
    && ScanInv(t, w) && StreamInv(t, w) && AccountInv(t, w)
  }

  lemma QueuedIsReading(t: Table, w: World, q: nat)
    requires w.phase.Streaming? && TakenCount(w) >= 0 && w.phase.from + |w.phase.vers| <= |t.changes|
    requires QueueInv(t, w) && q < |w.core.queue|
    ensures IsReading(t, w.phase.from, w.core.queue[q], w.phase.from + TakenCount(w) + q,
                      w.phase.vers[TakenCount(w) + q])
  {
  }

  lemma InitInv(t: Table, w: World)
    requires Init(t, w)
    ensures Inv(t, w)
  {
  }

  lemma DocsOfConcat(a: seq<Event>, b: seq<Event>)
    ensures DocsOf(a + b) == DocsOf(a) + DocsOf(b)
  {
    if b == [] {
      assert a + b == a;
    } else {
      assert (a + b)[..|a + b| - 1] == a + b[..|b| - 1];
      DocsOfConcat(a, b[..|b| - 1]);
    }
  }

  lemma DocsOfFirst(q: seq<Event>)
    requires q != []
    ensures DocsOf(q) == EventDocs(q[0]) + DocsOf(q[1..])
  {
    assert q == [q[0]] + q[1..];
    assert [q[0]][..0] == [];
    DocsOfConcat([q[0]], q[1..]);
  }

  lemma {:induction false} DocsOfMember(q: seq<Event>, d: Doc) returns (n: nat)
    requires d in DocsOf(q)
    ensures n < |q| && d in EventDocs(q[n])
  {
    if d in EventDocs(q[|q| - 1]) {
      n := |q| - 1;
    } else {
      n := DocsOfMember(q[..|q| - 1], d);
    }
  }

  /** The last change in a range that a reading takes notice of. */
  lemma LastTouch(t: Table, r: Reading, lo: nat, hi: nat, k: Bytes) returns (i: nat)
    requires lo <= hi <= |t.changes| && !Silent(t, r, lo, hi, k)
    ensures lo <= i < hi && Mentions(t, r, i, k) && Silent(t, r, i + 1, hi, k)
  {
    if Mentions(t, r, hi - 1, k) {
      i := hi - 1;
    } else {
      i := LastTouch(t, r, lo, hi - 1, k);
    }
  }

  /** Every change from lo to hi was finished in this run. */
  ghost predicate FinishedHere(t: Table, w: World, lo: nat, hi: nat)
    requires w.phase.Streaming? && hi <= |t.changes|
  {
    var from, vers := w.phase.from, w.phase.vers;
    && from <= lo && hi <= from + |vers|
    && forall j :: lo - from <= j < hi - from ==> Finished(t, w.core, from + j, vers[j])
  }

  /** A document no older than a change's version is of that change or of a later one. */
  lemma DocAfterTouch(t: Table, r: Reading, w: World, i: nat, b: nat, k: Bytes, d: Doc)
    requires Valid(t) && w.phase.Streaming? && w.now <= |t.changes| && VersInv(t, w)
    requires w.phase.from <= i < w.phase.from + |w.phase.vers| <= w.now && i < b <= w.now
    requires Silent(t, r, i + 1, b, k)
    requires d.key == k && Stamped(t, w, d) && d.version >= w.phase.vers[i - w.phase.from] > w.core.row.base
    ensures FreshIn(t, r, Since(t, w.core.row), d.Value(), k, b, w.now)
  {
    var vers, from := w.phase.vers, w.phase.from;
    assert vers[i - from] in w.issued;
    assert d.version in w.issued && StampedBy(t, w.issued[d.version], d);
    var j :| 0 <= j < |vers| && vers[j] == d.version;
    PutIsFreshIn(t, r, Since(t, w.core.row), from + j, k, b, w.now);
  }

  lemma FinishedPutIsThere(t: Table, w: World, lo: nat, b: nat, i: nat, k: Bytes)
    requires w.phase.Streaming? && b <= |t.changes| && FinishedHere(t, w, lo, b) && lo <= i < b
    requires Put(t.changes[i], k).Some? && t.changes[i].effect.Encoded?
    ensures Settled(w.core, DocFor(Write(k, Put(t.changes[i], k).value), w.phase.vers[i - w.phase.from]))
  {
    assert Finished(t, w.core, w.phase.from + (i - w.phase.from), w.phase.vers[i - w.phase.from]);
  }

  /** The heart of convergence: once every change up to b is finished, whatever the destination holds
    * or could still accept is allowed by either reading at b or later, unless a newer document was
    * refused. */
  lemma FinishedMakesFreshIn(t: Table, r: Reading, w: World, b: nat, d: Doc)
    requires Valid(t) && w.now <= |t.changes| && RowInv(t, w) && DestInv(t, w)
    requires w.phase.Streaming? && VersInv(t, w) && w.phase.from + |w.phase.vers| <= w.now
    requires Low(t, w.core.row) <= b <= w.now && FinishedHere(t, w, Low(t, w.core.row), b)
    requires d in w.core.sent && Live(w.core.dest, d) && !Overruled(w.core.dead, d)
    ensures FreshIn(t, r, Since(t, w.core.row), d.Value(), d.key, b, w.now)
  {
    var s, lo, k := Since(t, w.core.row), Low(t, w.core.row), d.key;
    assert DocFresh(t, w, d) && Stamped(t, w, d);
    if Silent(t, r, lo, b, k) {
      FreshLater(t, r, s, d.Value(), k, lo, b, w.now, w.now);
    } else {
      var i := LastTouch(t, r, lo, b, k);
      if t.changes[i].effect.Encoded? {
        FinishedPutIsThere(t, w, lo, b, i, k);
        assert w.phase.vers[i - w.phase.from] in w.issued;
        DocAfterTouch(t, r, w, i, b, k, d);
      } else {
        NothingToTell(t, w, i, b, k, d.Value());
      }
    }
  }

  /** After a change that made no documents the latest reading allows anything. */
  lemma NothingToTell(t: Table, w: World, i: nat, b: nat, k: Bytes, v: Held)
    requires Valid(t) && b <= w.now <= |t.changes| && Since(t, w.core.row) <= i < b && Silent(t, Latest, i + 1, b, k)
    requires t.changes[i].effect.Unencoded? && Put(t.changes[i], k).Some?
    ensures FreshIn(t, Latest, Since(t, w.core.row), v, k, b, w.now)
  {
    ExpectedAfter(t, Latest, Since(t, w.core.row), i, k);
    SilentKeepsExpected(t, Latest, Since(t, w.core.row), i + 1, b, k);
    assert Allows(Expected(t, Latest, Since(t, w.core.row), b, k), v);
  }

  lemma FinishedMakesFresh(t: Table, w: World, b: nat, d: Doc)
    requires Valid(t) && w.now <= |t.changes| && RowInv(t, w) && DestInv(t, w)
    requires w.phase.Streaming? && VersInv(t, w) && w.phase.from + |w.phase.vers| <= w.now
    requires Low(t, w.core.row) <= b <= w.now && FinishedHere(t, w, Low(t, w.core.row), b)
    requires d in w.core.sent && Live(w.core.dest, d) && !Overruled(w.core.dead, d)
    ensures Fresh(t, Since(t, w.core.row), d.Value(), d.key, b, w.now)
  {
    FinishedMakesFreshIn(t, Latest, w, b, d);
    FinishedMakesFreshIn(t, Spoken, w, b, d);
  }

  /** And a key for which nothing is owed is still one for which nothing is owed from b on. */
  lemma FinishedOwesNothingIn(t: Table, r: Reading, w: World, b: nat, k: Bytes)
    requires Valid(t) && w.now <= |t.changes| && RowInv(t, w)
    requires w.phase.Streaming? && w.phase.from + |w.phase.vers| <= w.now
    requires Low(t, w.core.row) <= b <= w.now && FinishedHere(t, w, Low(t, w.core.row), b)
    requires KeyFresh(t, w, Absent, k)
    ensures k in w.core.dest || DeadKey(w.core.dead, k) || FreshIn(t, r, Since(t, w.core.row), Absent, k, b, w.now)
  {
    var lo := Low(t, w.core.row);
    if Silent(t, r, lo, b, k) {
      FreshLater(t, r, Since(t, w.core.row), Absent, k, lo, b, w.now, w.now);
    } else {
      var i := LastTouch(t, r, lo, b, k);
      if t.changes[i].effect.Encoded? {
        FinishedPutIsThere(t, w, lo, b, i, k);
      } else {
        NothingToTell(t, w, i, b, k, Absent);
      }
    }
  }

  lemma FinishedOwesNothing(t: Table, w: World, b: nat, k: Bytes)
    requires Valid(t) && w.now <= |t.changes| && RowInv(t, w)
    requires w.phase.Streaming? && w.phase.from + |w.phase.vers| <= w.now
    requires Low(t, w.core.row) <= b <= w.now && FinishedHere(t, w, Low(t, w.core.row), b) && Ok(t, w, k)
    ensures k in w.core.dest || DeadKey(w.core.dead, k) || k in w.skipped ||
            Fresh(t, Since(t, w.core.row), Absent, k, b, w.now)
  {
    if KeyFresh(t, w, Absent, k) {
      FinishedOwesNothingIn(t, Latest, w, b, k);
      FinishedOwesNothingIn(t, Spoken, w, b, k);
    }
  }
}
