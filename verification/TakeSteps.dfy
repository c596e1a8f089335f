/** Taking an event from the queue keeps the invariant. */
module TakeSteps {
  import opened Documents
  import opened Source
  import opened Protocol
  import opened Invariant
  import opened Preservation

  ghost predicate TakeStep(t: Table, w: World, w': World) {
    && w.core.todo == [] && w.core.inflight == [] && w.core.queue != [] && !w.phase.Down?
    && w' == w.(core := Taken(w.core))
  }

  lemma TakeOnTheWay(c: Core)
    requires c.queue != [] && c.todo == []
    ensures Line(Taken(c)) == Line(c) + EventDocs(c.queue[0])
    ensures OnTheWay(Taken(c)) == OnTheWay(c)
  {
    DocsOfFirst(c.queue);
    assert Line(Taken(c)) == Line(c) + EventDocs(c.queue[0]);
    Grouped(Line(c), EventDocs(c.queue[0]), DocsOf(c.queue[1..]));
  }

  lemma TakeDead(c: Core)
    requires c.queue != []
    ensures c.dead <= Taken(c).dead && forall d :: Refused(d) in Taken(c).dead <==> Refused(d) in c.dead
  {
  }

  lemma TakeFacts(t: Table, w: World, w': World)
    requires TakeStep(t, w, w') && w.now <= |t.changes|
    ensures OnTheWay(w'.core) == OnTheWay(w.core)
    ensures Line(w'.core) == Line(w.core) + EventDocs(w.core.queue[0])
    ensures w.core.dead <= w'.core.dead
    ensures forall d :: Overruled(w'.core.dead, d) <==> Overruled(w.core.dead, d)
    ensures forall k :: Ok(t, w, k) ==> Ok(t, w', k)
    ensures forall k, ds :: Owed(t, w, k, ds) ==> Owed(t, w', k, ds)
    ensures forall d :: DocFresh(t, w, d) ==> DocFresh(t, w', d)
    ensures forall d :: Stamped(t, w, d) ==> Stamped(t, w', d)
    ensures forall d :: Settled(w.core, d) ==> Settled(w'.core, d)
  {
    TakeOnTheWay(w.core);
    TakeDead(w.core);
  }

  lemma TakeDest(t: Table, w: World, w': World)
    requires TakeStep(t, w, w') && w.now <= |t.changes| && DestInv(t, w)
    ensures DestInv(t, w')
  {
    TakeFacts(t, w, w');
  }

  lemma TakeLine(t: Table, w: World, w': World)
    requires TakeStep(t, w, w') && w.now <= |t.changes| && LineInv(t, w)
    ensures LineInv(t, w')
  {
    TakeFacts(t, w, w');
  }

  lemma OwedMore(t: Table, w: World, k: Bytes, ds: seq<Doc>, es: seq<Doc>)
    requires w.now <= |t.changes| && Owed(t, w, k, ds) && forall d :: d in ds ==> d in es
    ensures Owed(t, w, k, es)
  {
  }

  /** What the queue's prefixes cover, the shorter prefixes behind the event taken still do. */
  lemma TakeQueueCover(t: Table, w: World, w': World, q: nat, k: Bytes)
    requires TakeStep(t, w, w') && w.now <= |t.changes| && CoverInv(t, w)
    requires q < |w'.core.queue| && UpTo(t, w'.core.queue[q].cursor, k)
    ensures Owed(t, w', k, Line(w'.core) + DocsOf(w'.core.queue[..q + 1]))
  {
    var c, c' := w.core, w'.core;
    var first := [c.queue[0]];
    TakeFacts(t, w, w');
    assert c.queue[q + 1] == c'.queue[q];
    assert c.queue[..(q + 1) + 1] == first + c'.queue[..q + 1];
    DocsOfConcat(first, c'.queue[..q + 1]);
    assert DocsOf(first) == EventDocs(c.queue[0]) by { assert first[..0] == []; }
    OwedMore(t, w, k, Line(c) + DocsOf(c.queue[..(q + 1) + 1]), Line(c') + DocsOf(c'.queue[..q + 1]));
  }

  lemma TakeMarkCover(t: Table, w: World, w': World, k: Bytes)
    requires TakeStep(t, w, w') && w.now <= |t.changes| && CoverInv(t, w)
    requires UpTo(t, w'.core.row.cursor, k) || UpTo(t, w'.core.mark.cursor, k)
    ensures Owed(t, w', k, Line(w'.core))
  {
    var c, c' := w.core, w'.core;
    TakeFacts(t, w, w');
    if UpTo(t, c'.row.cursor, k) || UpTo(t, c.mark.cursor, k) {
      OwedMore(t, w, k, Line(c), Line(c'));
    } else {
      assert UpTo(t, c.queue[0].cursor, k);
      assert c.queue[..0 + 1] == [c.queue[0]];
      assert DocsOf([c.queue[0]]) == EventDocs(c.queue[0]) by { assert [c.queue[0]][..0] == []; }
      OwedMore(t, w, k, Line(c) + DocsOf(c.queue[..0 + 1]), Line(c'));
    }
  }

  lemma TakeCover(t: Table, w: World, w': World)
    requires TakeStep(t, w, w') && w.now <= |t.changes| && CoverInv(t, w)
    ensures CoverInv(t, w')
  {
    TakeFacts(t, w, w');
    var c' := w'.core;
    forall k | UpTo(t, c'.row.cursor, k) || UpTo(t, c'.mark.cursor, k) ensures Owed(t, w', k, Line(c')) {
      TakeMarkCover(t, w, w', k);
    }
    forall q, k | 0 <= q < |c'.queue| && UpTo(t, c'.queue[q].cursor, k)
      ensures Owed(t, w', k, Line(c') + DocsOf(c'.queue[..q + 1]))
    {
      TakeQueueCover(t, w, w', q, k);
    }
  }

  lemma TakeScanQueue(t: Table, at: Option<real>, queue: seq<Event>)
    requires queue != [] && ScanQueue(t, at, queue)
    ensures ScanQueue(t, at, queue[1..])
  {
    var rest := queue[1..];
    forall q | 0 <= q < |rest| ensures RowEvent(t, at, rest[q], rest[q + 1..]) {
      assert rest[q + 1..] == queue[q + 1 + 1..];
      assert RowEvent(t, at, queue[q + 1], queue[q + 1 + 1..]);
    }
  }

  lemma TakeNoDocs(t: Table, at: Option<real>, c: Core)
    requires c.queue != [] && c.todo == [] && ScanMark(t, at, c) && c.queue[0].docs.None?
    ensures ScanMark(t, at, Taken(c))
  {
    DocsOfFirst(c.queue);
    assert Taken(c).pending + Taken(c).todo == c.pending + c.todo;
    assert forall d :: d in DocsOf(Taken(c).queue) ==> d in DocsOf(c.queue);
  }

  /** The row is the last one added, and it is the one its own cursor names or comes after the last
    * cursor. */
  lemma TakeRow(t: Table, at: Option<real>, c: Core, d: Doc)
    requires c.queue != [] && c.todo == [] && ScanMark(t, at, c) && RowEvent(t, at, c.queue[0], c.queue[1..])
    requires c.queue[0].docs == Some([d])
    ensures ScanMark(t, at, Taken(c))
  {
    DocsOfFirst(c.queue);
    assert EventDocs(c.queue[0]) == [d] && Taken(c).pending + Taken(c).todo == c.pending + [d];
    assert forall e :: e in DocsOf(Taken(c).queue) ==> e in DocsOf(c.queue);
    assert d in DocsOf(c.queue);
  }

  /** The event taken from the front: what is behind it comes after its cursor, and its own row does
    * not come before. */
  lemma TakeScanMark(t: Table, at: Option<real>, c: Core)
    requires c.queue != [] && c.todo == [] && ScanMark(t, at, c) && RowEvent(t, at, c.queue[0], c.queue[1..])
    ensures ScanMark(t, at, Taken(c))
  {
    var docs := c.queue[0].docs;
    if docs.None? {
      TakeNoDocs(t, at, c);
    } else {
      assert docs.value == [docs.value[0]];
      TakeRow(t, at, c, docs.value[0]);
    }
  }

  lemma TakeScanSaved(t: Table, at: Option<real>, c: Core)
    requires c.queue != [] && c.todo == [] && ScanSaved(t, at, c)
    ensures ScanSaved(t, at, Taken(c))
  {
    DocsOfFirst(c.queue);
    assert Line(Taken(c)) == Line(c) + EventDocs(c.queue[0]);
    assert forall d :: d in EventDocs(c.queue[0]) ==> d in DocsOf(c.queue);
  }

  lemma TakeScan(t: Table, w: World, w': World)
    requires TakeStep(t, w, w') && ScanInv(t, w)
    ensures ScanInv(t, w')
  {
    if w.phase.Scanning? {
      assert RowEvent(t, w.phase.at, w.core.queue[0], w.core.queue[0 + 1..]);
      TakeOnTheWay(w.core);
      TakeScanQueue(t, w.phase.at, w.core.queue);
      TakeScanMark(t, w.phase.at, w.core);
      TakeScanSaved(t, w.phase.at, w.core);
    }
  }

  /** An event that makes no documents leaves its letter when it is taken. */
  lemma TakeUsable(c: Core, n: nat)
    requires c.queue != [] && n < |c.queue|
    ensures AllUsable(Taken(c), n) ==> c.queue[0].docs.Some? && AllUsable(c, n + 1)
  {
    var e, rest := c.queue[0], c.queue[1..];
    assert e.docs.None? ==> Unusable(e.gtid, e.version) in Taken(c).dead;
    if AllUsable(Taken(c), n) {
      assert c.queue[..n + 1] == [e] + rest[..n];
    }
  }

  lemma TakeOnceEncodable(t: Table, w: World, w': World)
    requires TakeStep(t, w, w') && w.now <= |t.changes|
    ensures forall k :: OnceEncodable(t, w, k) ==> OnceEncodable(t, w', k)
  {
  }

  lemma TakeLetterMarks(t: Table, w: World, w': World, k: Bytes)
    requires TakeStep(t, w, w') && w.now <= |t.changes| && LetterInv(t, w) && NoneUnusable(w'.core.dead)
    requires w'.core.row.done || UpTo(t, w'.core.row.cursor, k) || UpTo(t, w'.core.mark.cursor, k)
    ensures OnceEncodable(t, w, k)
  {
    var c := w.core;
    TakeUsable(c, 0);
    assert Taken(c).queue[..0] == [];
    assert AllUsable(c, 0 + 1);
    if !(c.row.done || UpTo(t, c.row.cursor, k) || UpTo(t, c.mark.cursor, k)) {
      assert UpTo(t, c.queue[0].cursor, k);
    }
  }

  lemma TakeLetters(t: Table, w: World, w': World)
    requires TakeStep(t, w, w') && w.now <= |t.changes| && LetterInv(t, w)
    ensures LetterInv(t, w')
  {
    var c, c' := w.core, w'.core;
    TakeOnceEncodable(t, w, w');
    forall k | NoneUnusable(c'.dead) && (c'.row.done || UpTo(t, c'.row.cursor, k) || UpTo(t, c'.mark.cursor, k))
      ensures OnceEncodable(t, w', k)
    {
      TakeLetterMarks(t, w, w', k);
    }
    forall q, k | 0 <= q < |c'.queue| && UpTo(t, c'.queue[q].cursor, k) && AllUsable(c', q + 1)
      ensures OnceEncodable(t, w', k)
    {
      TakeUsable(c, q + 1);
      assert c.queue[q + 1] == c'.queue[q] && AllUsable(c, (q + 1) + 1);
    }
    TakeUsable(c, |c'.queue|);
  }

  lemma TakeInHand(w: World, w': World, d: Doc)
    requires w.core.todo == [] && w.core.queue != [] && w' == w.(core := Taken(w.core)) && InHand(w.core, d)
    ensures InHand(w'.core, d)
  {
  }

  lemma TakeStillHandled(t: Table, w: World, w': World, i: nat, v: nat)
    requires TakeStep(t, w, w') && i < |t.changes| && Handled(t, w.core, i, v)
    ensures Handled(t, w'.core, i, v)
  {
    match t.changes[i].effect
    case Unencoded(_) =>
      var p :| Unusable(Some(p), v) in w.core.dead && IsPrefix(t, p) && Cut(t, p) <= i;
      assert Unusable(Some(p), v) in w'.core.dead;
    case Encoded(ws) =>
      forall x | x in ws ensures InHand(w'.core, DocFor(x, v)) {
        TakeInHand(w, w', DocFor(x, v));
      }
  }

  lemma TakeHandled(t: Table, w: World, w': World)
    requires TakeStep(t, w, w') && w.phase.Streaming? && 0 <= TakenCount(w) &&
             w.phase.from + |w.phase.vers| <= |t.changes|
    requires IsReading(t, w.phase.from, w.core.queue[0], w.phase.from + TakenCount(w), w.phase.vers[TakenCount(w)])
    requires HandledInv(t, w)
    ensures HandledInv(t, w')
  {
    var h := TakenCount(w);
    forall j | 0 <= j < h + 1 ensures Handled(t, w'.core, w.phase.from + j, w.phase.vers[j]) {
      if j < h {
        TakeStillHandled(t, w, w', w.phase.from + j, w.phase.vers[j]);
      } else {
        TakenIsHandled(t, w, w');
      }
    }
  }

  lemma TakenIsHandled(t: Table, w: World, w': World)
    requires TakeStep(t, w, w') && w.phase.Streaming? && 0 <= TakenCount(w) &&
             w.phase.from + |w.phase.vers| <= |t.changes|
    requires IsReading(t, w.phase.from, w.core.queue[0], w.phase.from + TakenCount(w), w.phase.vers[TakenCount(w)])
    ensures Handled(t, w'.core, w.phase.from + TakenCount(w), w.phase.vers[TakenCount(w)])
  {
    var i, v := w.phase.from + TakenCount(w), w.phase.vers[TakenCount(w)];
    if t.changes[i].effect.Unencoded? {
      assert Unusable(Some(w.core.queue[0].gtid.value), v) in w'.core.dead;
    } else {
      var ws := t.changes[i].effect.writes;
      assert w'.core.todo == DocsFor(ws, v);
      forall x | x in ws ensures InHand(w'.core, DocFor(x, v)) {
        var n :| 0 <= n < |ws| && ws[n] == x;
        assert w'.core.todo[n] == DocFor(x, v);
      }
    }
  }

  lemma TakeNewest(t: Table, w: World, w': World)
    requires TakeStep(t, w, w') && w.phase.Streaming? && 0 <= TakenCount(w) &&
             w.phase.from + |w.phase.vers| <= |t.changes|
    requires IsReading(t, w.phase.from, w.core.queue[0], w.phase.from + TakenCount(w), w.phase.vers[TakenCount(w)])
    requires NewestInv(t, w)
    ensures NewestInv(t, w')
  {
    var i, v := w.phase.from + TakenCount(w), w.phase.vers[TakenCount(w)];
    if t.changes[i].effect.Encoded? {
      assert w'.core.todo == DocsFor(t.changes[i].effect.writes, v);
      assert OfVersion(w'.core.todo, v);
    }
  }

  lemma TakeQueue(t: Table, w: World, w': World)
    requires TakeStep(t, w, w') && w.phase.Streaming? && 0 <= TakenCount(w) &&
             w.phase.from + |w.phase.vers| <= |t.changes|
    requires QueueInv(t, w)
    ensures QueueInv(t, w')
  {
    forall q | 0 <= q < |w'.core.queue|
      ensures IsReading(t, w.phase.from, w'.core.queue[q], w.phase.from + TakenCount(w') + q,
                        w.phase.vers[TakenCount(w') + q])
    {
      QueuedIsReading(t, w, q + 1);
    }
  }

  lemma TakeStream(t: Table, w: World, w': World)
    requires TakeStep(t, w, w') && w.now <= |t.changes| && StreamInv(t, w)
    ensures StreamInv(t, w')
  {
    if w.phase.Streaming? {
      var h := TakenCount(w);
      QueuedIsReading(t, w, 0);
      TakeHandled(t, w, w');
      TakeQueue(t, w, w');
      TakeNewest(t, w, w');
      VersSame(t, w, w');
    }
  }

  lemma TakeKeeps(t: Table, w: World, w': World)
    requires Inv(t, w) && TakeStep(t, w, w')
    ensures Inv(t, w')
  {
    assert RowInv(t, w');
    TakeDest(t, w, w');
    TakeLine(t, w, w');
    TakeCover(t, w, w');
    TakeScan(t, w, w');
    TakeLetters(t, w, w');
    TakeStream(t, w, w');
    TakeFacts(t, w, w');
    AccountStays(t, w, w');
  }
}
