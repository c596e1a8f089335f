/** Starting, scanning, reading the log, crashing and restarting keep the invariant. */
module SystemSteps {
  import opened Documents
  import opened Source
  import opened Batching
  import opened Protocol
  import opened Invariant
  import opened Preservation

  /** Starting, stopping and finishing leave nothing queued, and what the row says of the scan stands. */
  lemma IdleLetters(t: Table, w: World, w': World)
    requires w.now == w'.now <= |t.changes| && LetterInv(t, w)
    requires w'.core.queue == [] && w'.core.dead == w.core.dead
    requires w'.core.mark == w.core.mark || w'.core.mark.cursor.None?
    requires w'.core.row == w.core.row.(done := w'.core.row.done, rowsTotal := w'.core.row.rowsTotal)
    requires w'.core.row.done ==> w.core.row.done || (w.phase.Scanning? && w.phase.exhausted && w.core.queue == [])
    requires w'.phase.Scanning? ==> w'.phase == Scanning(w.core.row.cursor, false)
    ensures LetterInv(t, w')
  {
    assert forall k :: OnceEncodable(t, w, k) ==> OnceEncodable(t, w', k);
    assert w.core.queue == [] && NoneUnusable(w.core.dead) ==> AllUsable(w.core, 0);
  }

  lemma MarkScanKeeps(t: Table, lim: Limits, p: Position, base: nat, rows: nat, w: World, w': World)
    requires Inv(t, w) && Step(t, lim, w, MarkScan(p, base, rows), w')
    ensures Inv(t, w')
  {
    assert OnTheWay(w'.core) == [];
  }

  lemma ResumeScanKeeps(t: Table, lim: Limits, w: World, w': World)
    requires Inv(t, w) && Step(t, lim, w, ResumeScan, w')
    ensures Inv(t, w')
  {
    assert OnTheWay(w'.core) == Line(w'.core) == [];
    assert forall k :: Ok(t, w, k) ==> Ok(t, w', k);
    assert CoverInv(t, w');
    IdleLetters(t, w, w');
    AccountStays(t, w, w');
  }

  lemma FinishScanKeeps(t: Table, lim: Limits, w: World, w': World)
    requires Inv(t, w) && Step(t, lim, w, FinishScan, w')
    ensures Inv(t, w')
  {
    assert OnTheWay(w'.core) == OnTheWay(w.core) == [];
    forall k ensures Ok(t, w', k) {
      assert Owed(t, w, k, OnTheWay(w.core));
    }
    assert DestInv(t, w') by {
      assert forall d :: DocFresh(t, w, d) ==> DocFresh(t, w', d);
      assert forall d :: Stamped(t, w, d) ==> Stamped(t, w', d);
    }
    assert CoverInv(t, w');
    IdleLetters(t, w, w');
    AccountStays(t, w, w');
  }

  lemma ResumeStreamKeeps(t: Table, lim: Limits, w: World, w': World)
    requires Inv(t, w) && Step(t, lim, w, ResumeStream, w')
    ensures Inv(t, w')
  {
    assert OnTheWay(w'.core) == [];
    assert forall k :: Ok(t, w, k) ==> Ok(t, w', k);
    assert DestInv(t, w') by {
      assert forall d :: DocFresh(t, w, d) ==> DocFresh(t, w', d);
      assert forall d :: Stamped(t, w, d) ==> Stamped(t, w', d);
    }
    assert CoverInv(t, w');
    IdleLetters(t, w, w');
    AccountStays(t, w, w');
  }

  lemma CrashOwesNothing(t: Table, w: World, w': World, k: Bytes)
    requires w.now <= |t.changes| && RowInv(t, w) && CoverInv(t, w) && UpTo(t, w.core.row.cursor, k)
    requires w' == w.(core := Stopped(w.core), phase := Down, skipped := w.skipped + HeldBack(t, w))
    requires !w.phase.Scanning? ==> w.core.row.done || Line(w.core) == []
    ensures Ok(t, w', k)
  {
    assert Owed(t, w, k, Line(w.core));
    if w.core.row.done {
      assert Ok(t, w, k);
    } else if HasKey(Line(w.core), k) {
      var d :| d in Line(w.core) && d.key == k;
      assert w.phase.Scanning? && !Settled(w.core, d) ==> k in HeldBack(t, w);
      assert Refused(d) in w.core.dead ==> DeadKey(w.core.dead, k);
    }
  }

  lemma CrashCover(t: Table, w: World, w': World)
    requires w.now <= |t.changes| && RowInv(t, w) && CoverInv(t, w)
    requires w' == w.(core := Stopped(w.core), phase := Down, skipped := w.skipped + HeldBack(t, w))
    ensures CoverInv(t, w')
  {
    forall k | UpTo(t, w'.core.row.cursor, k) ensures Owed(t, w', k, []) {
      CrashOwesNothing(t, w, w', k);
    }
    assert forall k :: Ok(t, w, k) ==> Ok(t, w', k);
  }

  lemma CrashDest(t: Table, w: World, w': World)
    requires w.now <= |t.changes| && DestInv(t, w)
    requires w' == w.(core := Stopped(w.core), phase := Down, skipped := w'.skipped)
    ensures DestInv(t, w')
  {
    assert forall d :: DocFresh(t, w, d) ==> DocFresh(t, w', d);
    assert forall d :: Stamped(t, w, d) ==> Stamped(t, w', d);
  }

  lemma CrashKeeps(t: Table, lim: Limits, w: World, w': World)
    requires Inv(t, w) && Step(t, lim, w, Crash, w')
    ensures Inv(t, w')
  {
    assert OnTheWay(w'.core) == Line(w'.core) == [];
    CrashDest(t, w, w');
    CrashCover(t, w, w');
    IdleLetters(t, w, w');
    AccountStays(t, w, w');
  }

  // Reading one page of the table --------------------------------------------------------------

  ghost predicate Chunk(t: Table, w: World, size: nat, events: seq<Event>, w': World) {
    && w.phase.Scanning? && !w.phase.exhausted && w.now <= |t.changes|
    && IsChunk(t, w.now, w.phase.at, w.core.row.base, size, events)
    && w' == w.(core := w.core.(queue := w.core.queue + events),
                phase := Scanning(if events == [] then w.phase.at else events[|events| - 1].cursor,
                                  |events| < size))
  }

  lemma ChunkOnTheWay(c: Core, events: seq<Event>, c': Core)
    requires c' == c.(queue := c.queue + events)
    ensures OnTheWay(c') == OnTheWay(c) + DocsOf(events)
    ensures DocsOf(c'.queue) == DocsOf(c.queue) + DocsOf(events)
  {
    DocsOfConcat(c.queue, events);
    Grouped(Line(c), DocsOf(c.queue), DocsOf(events));
  }

  lemma ChunkFacts(t: Table, w: World, size: nat, events: seq<Event>, w': World)
    requires Chunk(t, w, size, events, w')
    ensures OnTheWay(w'.core) == OnTheWay(w.core) + DocsOf(events)
    ensures DocsOf(w'.core.queue) == DocsOf(w.core.queue) + DocsOf(events)
    ensures forall k :: Ok(t, w, k) ==> Ok(t, w', k)
    ensures forall k, ds :: Owed(t, w, k, ds) ==> Owed(t, w', k, ds)
    ensures forall d :: DocFresh(t, w, d) ==> DocFresh(t, w', d)
    ensures forall d :: Stamped(t, w, d) ==> Stamped(t, w', d)
  {
    ChunkOnTheWay(w.core, events, w'.core);
  }

  lemma ChunkDoc(t: Table, now: nat, at: Option<real>, base: nat, size: nat, events: seq<Event>, d: Doc)
    requires now <= |t.changes| && IsChunk(t, now, at, base, size, events) && d in DocsOf(events)
    ensures d.version == base && Past(at, t.rank(d.key)) && ValueAt(t, now, d.key) == d.Value()
  {
    var n := DocsOfMember(events, d);
    assert events[n].docs.Some?;
    assert EventDocs(events[n]) == [events[n].docs.value[0]];
  }

  lemma ChunkDocIsFresh(t: Table, w: World, size: nat, events: seq<Event>, w': World, d: Doc)
    requires Valid(t) && Chunk(t, w, size, events, w') && RowInv(t, w) && d in DocsOf(events)
    ensures Stamped(t, w', d) && DocFresh(t, w', d)
  {
    ChunkDoc(t, w.now, w.phase.at, w.core.row.base, size, events, d);
    ScanIsFresh(t, Since(t, w.core.row), w.now, d.key);
    assert Witnessed(t, w', d.Value(), d.key);
  }

  lemma ChunkLine(t: Table, w: World, size: nat, events: seq<Event>, w': World)
    requires Valid(t) && Chunk(t, w, size, events, w') && RowInv(t, w) && LineInv(t, w)
    ensures LineInv(t, w')
  {
    ChunkFacts(t, w, size, events, w');
    forall d | d in OnTheWay(w'.core)
      ensures Stamped(t, w', d) && DocFresh(t, w', d)
    {
      if d in OnTheWay(w.core) {
        assert Stamped(t, w, d) && DocFresh(t, w, d);
      } else {
        ChunkDocIsFresh(t, w, size, events, w', d);
      }
    }
  }

  /** A key in the page's range is in the page, or the page shows no row of it that can be encoded. */
  lemma ChunkCovers(t: Table, w: World, size: nat, events: seq<Event>, w': World, k: Bytes)
    requires Valid(t) && Chunk(t, w, size, events, w') && RowInv(t, w) && CoverInv(t, w)
    requires |events| < size || UpTo(t, w'.phase.at, k)
    ensures Owed(t, w', k, OnTheWay(w'.core))
  {
    ChunkFacts(t, w, size, events, w');
    if UpTo(t, w.phase.at, k) {
      assert Owed(t, w, k, OnTheWay(w.core));
      if HasKey(OnTheWay(w.core), k) {
        var d :| d in OnTheWay(w.core) && d.key == k;
        assert d in OnTheWay(w'.core);
      }
    } else if ValueAt(t, w.now, k).Body? {
      assert HasKey(DocsOf(events), k);
      var d :| d in DocsOf(events) && d.key == k;
      assert d in OnTheWay(w'.core);
    } else {
      ScanIsFresh(t, Since(t, w.core.row), w.now, k);
    }
  }

  lemma ChunkQueueCover(t: Table, w: World, size: nat, events: seq<Event>, w': World, q: nat, k: Bytes)
    requires Valid(t) && Chunk(t, w, size, events, w') && RowInv(t, w) && CoverInv(t, w)
    requires q < |w'.core.queue| && UpTo(t, w'.core.queue[q].cursor, k)
    ensures Owed(t, w', k, Line(w'.core) + DocsOf(w'.core.queue[..q + 1]))
  {
    var c, c' := w.core, w'.core;
    if q < |c.queue| {
      ChunkFacts(t, w, size, events, w');
      assert c'.queue[..q + 1] == c.queue[..q + 1];
      assert Owed(t, w, k, Line(c) + DocsOf(c.queue[..q + 1]));
    } else {
      assert c'.queue[q] == events[q - |c.queue|];
      assert c'.queue[..q + 1] == c'.queue;
      ChunkCovers(t, w, size, events, w', k);
    }
  }

  lemma ChunkCover(t: Table, w: World, size: nat, events: seq<Event>, w': World)
    requires Valid(t) && Chunk(t, w, size, events, w') && RowInv(t, w) && CoverInv(t, w)
    ensures CoverInv(t, w')
  {
    ChunkFacts(t, w, size, events, w');
    var c' := w'.core;
    forall q, k | 0 <= q < |c'.queue| && UpTo(t, c'.queue[q].cursor, k)
      ensures Owed(t, w', k, Line(c') + DocsOf(c'.queue[..q + 1]))
    {
      ChunkQueueCover(t, w, size, events, w', q, k);
    }
    forall k | w'.phase.exhausted || UpTo(t, w'.phase.at, k)
      ensures Owed(t, w', k, OnTheWay(c'))
    {
      ChunkCovers(t, w, size, events, w', k);
    }
  }

  lemma UsableSoFar(c: Core, events: seq<Event>, c': Core, n: nat)
    requires c' == c.(queue := c.queue + events) && n <= |c'.queue| && AllUsable(c', n)
    ensures n <= |c.queue| ==> AllUsable(c, n)
    ensures n == |c'.queue| ==> AllUsable(c, |c.queue|) && !HasUnencoded(events)
  {
    if n <= |c.queue| {
      assert c'.queue[..n] == c.queue[..n];
    }
    if n == |c'.queue| {
      assert c'.queue[..n] == c.queue + events && c.queue[..|c.queue|] == c.queue;
    }
  }

  lemma ChunkShowsEncodable(t: Table, w: World, size: nat, events: seq<Event>, w': World, k: Bytes)
    requires Chunk(t, w, size, events, w') && RowInv(t, w) && LetterInv(t, w)
    requires AllUsable(w'.core, |w'.core.queue|) && (|events| < size || UpTo(t, w'.phase.at, k))
    ensures OnceEncodable(t, w', k)
  {
    UsableSoFar(w.core, events, w'.core, |w'.core.queue|);
    if UpTo(t, w.phase.at, k) {
      assert OnceEncodable(t, w, k);
    } else {
      assert !ValueAt(t, w.now, k).Unencodable?;
      assert Since(t, w'.core.row) <= w.now;
    }
  }

  lemma ChunkLetters(t: Table, w: World, size: nat, events: seq<Event>, w': World)
    requires Chunk(t, w, size, events, w') && RowInv(t, w) && LetterInv(t, w)
    ensures LetterInv(t, w')
  {
    var c, c' := w.core, w'.core;
    assert forall k :: OnceEncodable(t, w, k) ==> OnceEncodable(t, w', k);
    forall q, k | 0 <= q < |c'.queue| && UpTo(t, c'.queue[q].cursor, k) && AllUsable(c', q + 1)
      ensures OnceEncodable(t, w', k)
    {
      if q < |c.queue| {
        UsableSoFar(c, events, c', q + 1);
        assert c'.queue[q] == c.queue[q];
      } else {
        assert c'.queue[q] == events[q - |c.queue|] && q + 1 == |c'.queue|;
        ChunkShowsEncodable(t, w, size, events, w', k);
      }
    }
    forall k | AllUsable(c', |c'.queue|) && (w'.phase.exhausted || UpTo(t, w'.phase.at, k))
      ensures OnceEncodable(t, w', k)
    {
      ChunkShowsEncodable(t, w, size, events, w', k);
    }
  }

  lemma ChunkNew(t: Table, w: World, size: nat, events: seq<Event>, w': World)
    requires Chunk(t, w, size, events, w')
    ensures AllAfter(t, w.phase.at, DocsOf(events)) && Within(t, w'.phase.at, DocsOf(events))
    ensures Ascending(t, DocsOf(events))
    ensures AtMost(w.phase.at, w'.phase.at)
  {
    forall d | d in DocsOf(events) ensures Past(w.phase.at, t.rank(d.key)) {
      ChunkDoc(t, w.now, w.phase.at, w.core.row.base, size, events, d);
    }
  }

  lemma AscendingConcat(t: Table, at: Option<real>, a: seq<Doc>, b: seq<Doc>)
    requires Ascending(t, a) && Ascending(t, b) && Within(t, at, a) && AllAfter(t, at, b)
    ensures Ascending(t, a + b)
  {
    var all: seq<Doc> := a + b;
    forall i, j | 0 <= i < j < |all| ensures t.rank(all[i].key) < t.rank(all[j].key) {
      if i < |a| <= j {
        assert a[i] in a && b[j - |a|] in b;
      } else if |a| <= i {
        assert t.rank(b[i - |a|].key) < t.rank(b[j - |a|].key);
      }
    }
  }

  lemma LongerBehind(t: Table, at: Option<real>, at': Option<real>, e: Event, behind: seq<Event>, events: seq<Event>)
    requires RowEvent(t, at, e, behind) && AllAfter(t, at, DocsOf(events)) && AtMost(at, at')
    ensures RowEvent(t, at', e, behind + events)
  {
    DocsOfConcat(behind, events);
  }

  lemma ChunkQueue(t: Table, at: Option<real>, at': Option<real>, queue: seq<Event>, events: seq<Event>, q: nat)
    requires q < |queue| && RowEvent(t, at, queue[q], queue[q + 1..])
    requires AllAfter(t, at, DocsOf(events)) && AtMost(at, at')
    ensures RowEvent(t, at', (queue + events)[q], (queue + events)[q + 1..])
  {
    DropConcat(queue, events, q + 1);
    LongerBehind(t, at, at', queue[q], queue[q + 1..], events);
  }

  lemma ChunkTail(t: Table, now: nat, at: Option<real>, base: nat, size: nat, queue: seq<Event>, events: seq<Event>,
                  n: nat)
    requires now <= |t.changes| && IsChunk(t, now, at, base, size, events) && n < |events|
    ensures RowEvent(t, events[|events| - 1].cursor, events[n], (queue + events)[|queue| + n + 1..])
  {
    if n == |events| - 1 {
      assert (queue + events)[|queue| + n + 1..] == [];
      assert events[n].docs.Some? ==> EventDocs(events[n]) == [events[n].docs.value[0]];
    }
  }

  lemma ChunkScanQueue(t: Table, w: World, size: nat, events: seq<Event>, w': World)
    requires Chunk(t, w, size, events, w') && ScanQueue(t, w.phase.at, w.core.queue)
    requires AllAfter(t, w.phase.at, DocsOf(events)) && AtMost(w.phase.at, w'.phase.at)
    ensures ScanQueue(t, w'.phase.at, w'.core.queue)
  {
    var queue, queue' := w.core.queue, w'.core.queue;
    forall q | 0 <= q < |queue'| ensures RowEvent(t, w'.phase.at, queue'[q], queue'[q + 1..]) {
      if q < |queue| {
        ChunkQueue(t, w.phase.at, w'.phase.at, queue, events, q);
      } else {
        ChunkTail(t, w.now, w.phase.at, w.core.row.base, size, queue, events, q - |queue|);
      }
    }
  }

  lemma ChunkScanRest(t: Table, w: World, at': Option<real>, c': Core, added: seq<Doc>)
    requires w.phase.Scanning? && ScanMark(t, w.phase.at, w.core) && ScanSaved(t, w.phase.at, w.core)
    requires c' == w.core.(queue := c'.queue) && DocsOf(c'.queue) == DocsOf(w.core.queue) + added
    requires AllAfter(t, w.phase.at, added) && AtMost(w.phase.at, at')
    ensures ScanMark(t, at', c') && ScanSaved(t, at', c')
  {
  }

  lemma ChunkScan(t: Table, w: World, size: nat, events: seq<Event>, w': World)
    requires Chunk(t, w, size, events, w') && ScanInv(t, w)
    ensures ScanInv(t, w')
  {
    ChunkFacts(t, w, size, events, w');
    ChunkNew(t, w, size, events, w');
    ChunkScanQueue(t, w, size, events, w');
    ChunkScanRest(t, w, w'.phase.at, w'.core, DocsOf(events));
    AscendingConcat(t, w.phase.at, OnTheWay(w.core), DocsOf(events));
  }

  lemma ReadChunkKeeps(t: Table, w: World, size: nat, events: seq<Event>, w': World)
    requires Inv(t, w) && Chunk(t, w, size, events, w')
    ensures Inv(t, w')
  {
    assert RowInv(t, w');
    ChunkLine(t, w, size, events, w');
    ChunkCover(t, w, size, events, w');
    ChunkLetters(t, w, size, events, w');
    ChunkScan(t, w, size, events, w');
    ChunkFacts(t, w, size, events, w');
    assert DestInv(t, w');
    AccountStays(t, w, w');
  }

  // Reading one change from the log ------------------------------------------------------------

  ghost predicate ReadStep(t: Table, w: World, v: nat, p: Position, ms: int, w': World) {
    && w.phase.Streaming? && w.now <= |t.changes|
    && var i := w.phase.from + |w.phase.vers|;
    && i < w.now && CoveringPosition(t, p, w.phase.from, i)
    && v > w.core.row.base && (forall u :: u in w.issued ==> u < v)
    && w' == w.(core := w.core.(queue := w.core.queue + [ChangeEvent(t, i, v, p, ms)]),
                phase := Streaming(w.phase.from, w.phase.vers + [v]),
                issued := w.issued[v := i])
  }

  lemma ReadAppends(t: Table, w: World, v: nat, p: Position, ms: int, w': World)
    requires ReadStep(t, w, v, p, ms, w')
    ensures OnTheWay(w'.core) ==
            OnTheWay(w.core) + EventDocs(ChangeEvent(t, w.phase.from + |w.phase.vers|, v, p, ms))
  {
    var e := ChangeEvent(t, w.phase.from + |w.phase.vers|, v, p, ms);
    assert [e][..0] == [];
    assert DocsOf([e]) == EventDocs(e);
    DocsOfConcat(w.core.queue, [e]);
  }

  lemma ReadFacts(t: Table, w: World, v: nat, p: Position, ms: int, w': World)
    requires ReadStep(t, w, v, p, ms, w')
    ensures forall k :: Ok(t, w, k) ==> Ok(t, w', k)
    ensures forall d :: DocFresh(t, w, d) ==> DocFresh(t, w', d)
    ensures forall d :: Stamped(t, w, d) ==> Stamped(t, w', d)
    ensures forall d :: InHand(w.core, d) ==> InHand(w'.core, d)
  {
  }

  lemma ReadDoc(t: Table, s: nat, i: nat, now: nat, lo: nat, v: nat, d: Doc)
    requires Valid(t) && i < now <= |t.changes| && lo <= i
    requires t.changes[i].effect.Encoded? && d in DocsFor(t.changes[i].effect.writes, v)
    ensures d.version == v && Put(t.changes[i], d.key) == Some(d.Value())
    ensures Fresh(t, s, d.Value(), d.key, lo, now)
  {
    var ws := t.changes[i].effect.writes;
    var n :| 0 <= n < |ws| && DocFor(ws[n], v) == d;
    assert WellFormed(t.changes[i]);
    FindsEveryWrite(t.changes[i], ws[n]);
    PutIsFresh(t, s, i, d.key, lo, now);
  }

  lemma ReadLine(t: Table, w: World, v: nat, p: Position, ms: int, w': World)
    requires ReadStep(t, w, v, p, ms, w') && Valid(t) && LineInv(t, w)
    requires Low(t, w.core.row) <= w.phase.from + |w.phase.vers|
    ensures LineInv(t, w')
  {
    ReadAppends(t, w, v, p, ms, w');
    ReadFacts(t, w, v, p, ms, w');
    forall d | d in OnTheWay(w'.core) ensures Stamped(t, w', d) && DocFresh(t, w', d) {
      if d in OnTheWay(w.core) {
        assert Stamped(t, w, d) && DocFresh(t, w, d);
      } else {
        ReadLineDoc(t, w, v, p, ms, w', d);
      }
    }
  }

  lemma ReadLineDoc(t: Table, w: World, v: nat, p: Position, ms: int, w': World, d: Doc)
    requires ReadStep(t, w, v, p, ms, w') && Valid(t)
    requires Low(t, w.core.row) <= w.phase.from + |w.phase.vers|
    requires d in EventDocs(ChangeEvent(t, w.phase.from + |w.phase.vers|, v, p, ms))
    ensures Stamped(t, w', d) && DocFresh(t, w', d)
  {
    var i := w.phase.from + |w.phase.vers|;
    assert w'.issued[v] == i && w'.core.row == w.core.row && w'.now == w.now;
    ReadDoc(t, Since(t, w.core.row), i, w.now, Low(t, w.core.row), v, d);
  }

  lemma ReadQueue(t: Table, w: World, v: nat, p: Position, ms: int, w': World)
    requires ReadStep(t, w, v, p, ms, w') && 0 <= TakenCount(w) && QueueInv(t, w)
    ensures TakenCount(w') == TakenCount(w) && QueueInv(t, w')
  {
    var from, h := w.phase.from, TakenCount(w);
    forall q | 0 <= q < |w'.core.queue|
      ensures IsReading(t, from, w'.core.queue[q], from + h + q, w'.phase.vers[h + q])
    {
      if q < |w.core.queue| {
        assert IsReading(t, from, w.core.queue[q], from + h + q, w.phase.vers[h + q]);
      }
    }
  }

  lemma ReadHandled(t: Table, w: World, v: nat, p: Position, ms: int, w': World)
    requires ReadStep(t, w, v, p, ms, w') && 0 <= TakenCount(w) && HandledInv(t, w)
    ensures HandledInv(t, w')
  {
    ReadFacts(t, w, v, p, ms, w');
    forall j | 0 <= j < TakenCount(w)
      ensures Handled(t, w'.core, w.phase.from + j, w'.phase.vers[j])
    {
      assert Handled(t, w.core, w.phase.from + j, w.phase.vers[j]);
    }
  }

  lemma ReadNewest(t: Table, w: World, v: nat, p: Position, ms: int, w': World)
    requires ReadStep(t, w, v, p, ms, w') && 0 <= TakenCount(w) && NewestInv(t, w)
    ensures NewestInv(t, w')
  {
  }

  lemma ReadVers(t: Table, w: World, v: nat, p: Position, ms: int, w': World)
    requires ReadStep(t, w, v, p, ms, w') && VersInv(t, w)
    ensures VersInv(t, w')
  {
  }

  lemma ReadCover(t: Table, w: World, v: nat, p: Position, ms: int, w': World)
    requires ReadStep(t, w, v, p, ms, w') && RowInv(t, w) && CoverInv(t, w)
    ensures CoverInv(t, w')
  {
    ReadFacts(t, w, v, p, ms, w');
    assert forall k :: Ok(t, w, k);
  }

  lemma ReadDest(t: Table, w: World, v: nat, p: Position, ms: int, w': World)
    requires ReadStep(t, w, v, p, ms, w') && DestInv(t, w)
    ensures DestInv(t, w')
  {
    ReadFacts(t, w, v, p, ms, w');
  }

  lemma ReadStream(t: Table, w: World, v: nat, p: Position, ms: int, w': World)
    requires ReadStep(t, w, v, p, ms, w') && StreamInv(t, w)
    ensures StreamInv(t, w')
  {
    assert QueueInv(t, w') by { ReadQueue(t, w, v, p, ms, w'); }
    assert HandledInv(t, w') by { ReadHandled(t, w, v, p, ms, w'); }
    assert NewestInv(t, w') by { ReadNewest(t, w, v, p, ms, w'); }
    assert VersInv(t, w') by { ReadVers(t, w, v, p, ms, w'); }
  }

  lemma ReadLetters(t: Table, w: World, v: nat, p: Position, ms: int, w': World)
    requires ReadStep(t, w, v, p, ms, w') && LetterInv(t, w)
    ensures LetterInv(t, w')
  {
    var c, c' := w.core, w'.core;
    var e := ChangeEvent(t, w.phase.from + |w.phase.vers|, v, p, ms);
    assert forall k :: OnceEncodable(t, w, k) ==> OnceEncodable(t, w', k);
    forall q, k | 0 <= q < |c'.queue| && UpTo(t, c'.queue[q].cursor, k) && AllUsable(c', q + 1)
      ensures OnceEncodable(t, w', k)
    {
      assert q < |c.queue|;
      UsableSoFar(c, [e], c', q + 1);
    }
  }

  lemma ReadRow(t: Table, w: World, v: nat, p: Position, ms: int, w': World)
    requires ReadStep(t, w, v, p, ms, w') && RowInv(t, w) && Since(t, w.core.row) <= w.phase.from
    ensures RowInv(t, w')
  {
  }

  lemma ReadChangeKeeps(t: Table, w: World, v: nat, p: Position, ms: int, w': World)
    requires Inv(t, w) && ReadStep(t, w, v, p, ms, w')
    ensures Inv(t, w')
  {
    ReadRow(t, w, v, p, ms, w');
    ReadDest(t, w, v, p, ms, w');
    ReadLine(t, w, v, p, ms, w');
    ReadCover(t, w, v, p, ms, w');
    ReadLetters(t, w, v, p, ms, w');
    ReadStream(t, w, v, p, ms, w');
    AccountStays(t, w, w');
  }
}
