/** Filling, sending and acknowledging batches keeps the invariant. */
module BatchSteps {
  import opened Documents
  import opened Source
  import opened Batching
  import opened Protocol
  import opened Invariant
  import opened Preservation

  /** Documents move along the pipeline without leaving it; a batch may be sent. */
  ghost predicate Shift(w: World, w': World) {
    var c, c' := w.core, w'.core;
    && !w.phase.Down? && c.inflight == []
    && w' == w.(core := c')
    && c' == c.(todo := c'.todo, pending := c'.pending, inflight := c'.inflight, sent := c.sent + ToSet(c'.inflight))
    && Line(c') == Line(c) && |c'.todo| <= |c.todo| && (forall d :: d in c'.todo ==> d in c.todo)
    && (c'.inflight != [] ==> |c'.pending + c'.todo| <= 1 || |c.todo| > 1)
    && (c'.inflight != [] ==> forall d :: d in c'.pending ==> d in c.todo)
  }

  lemma AddDocShifts(lim: Limits, w: World, w': World)
    requires !w.phase.Down? && CoreStep(lim, w.core, AddDoc, w'.core) && w' == w.(core := w'.core)
    ensures Shift(w, w')
  {
    var c, c' := w.core, w'.core;
    assert c.todo == [c.todo[0]] + c.todo[1..];
    assert c'.inflight + c'.pending == c.pending + [c.todo[0]];
    assert Line(c') == c.pending + [c.todo[0]] + c.todo[1..];
  }

  lemma FlushShifts(lim: Limits, w: World, w': World)
    requires !w.phase.Down? && CoreStep(lim, w.core, FlushBatch, w'.core) && w' == w.(core := w'.core)
    ensures Shift(w, w')
  {
  }

  lemma ShiftFacts(t: Table, w: World, w': World)
    requires Shift(w, w') && w.now <= |t.changes|
    ensures OnTheWay(w'.core) == OnTheWay(w.core)
    ensures forall k :: Ok(t, w, k) ==> Ok(t, w', k)
    ensures forall k, ds :: Owed(t, w, k, ds) ==> Owed(t, w', k, ds)
    ensures forall d :: DocFresh(t, w, d) ==> DocFresh(t, w', d)
    ensures forall d :: Stamped(t, w, d) ==> Stamped(t, w', d)
    ensures forall d :: Settled(w.core, d) ==> Settled(w'.core, d)
    ensures forall d :: InHand(w.core, d) ==> InHand(w'.core, d)
  {
    assert forall d :: d in Line(w.core) <==> d in w.core.inflight || d in w.core.pending || d in w.core.todo;
    assert forall d :: d in Line(w'.core) <==> d in w'.core.inflight || d in w'.core.pending || d in w'.core.todo;
  }

  lemma ShiftDest(t: Table, w: World, w': World)
    requires Shift(w, w') && w.now <= |t.changes| && DestInv(t, w) && LineInv(t, w)
    ensures DestInv(t, w')
  {
    ShiftFacts(t, w, w');
    forall d | d in w'.core.inflight ensures d in OnTheWay(w.core) {
      assert d in Line(w'.core);
    }
    forall d | d in w'.core.sent
      ensures Stamped(t, w', d)
      ensures Live(w'.core.dest, d) && !Overruled(w'.core.dead, d) ==> DocFresh(t, w', d)
    {
      assert d in w.core.sent || d in w'.core.inflight;
    }
  }

  lemma LastStaysLast(a: seq<Doc>, b: seq<Doc>, c: seq<Doc>)
    requires a + b == c && b != []
    ensures c != [] && b[|b| - 1] == c[|c| - 1]
  {
  }

  lemma ShiftMark(t: Table, at: Option<real>, c: Core, c': Core)
    requires ScanMark(t, at, c) && c'.mark == c.mark && c'.queue == c.queue
    requires c'.pending + c'.todo != [] ==>
               c.pending + c.todo != [] &&
               (c'.pending + c'.todo)[|c'.pending + c'.todo| - 1] == (c.pending + c.todo)[|c.pending + c.todo| - 1]
    ensures ScanMark(t, at, c')
  {
  }

  lemma ShiftSaved(t: Table, at: Option<real>, c: Core, c': Core)
    requires ScanSaved(t, at, c) && c'.row == c.row && c'.queue == c.queue && Line(c') == Line(c)
    ensures ScanSaved(t, at, c')
  {
  }

  lemma ShiftedLast(c: Core, c': Core)
    requires c.inflight == [] && Line(c') == Line(c) && c'.pending + c'.todo != []
    ensures c.pending + c.todo != []
    ensures (c'.pending + c'.todo)[|c'.pending + c'.todo| - 1] == (c.pending + c.todo)[|c.pending + c.todo| - 1]
  {
    Grouped(c'.inflight, c'.pending, c'.todo);
    assert Line(c) == c.pending + c.todo;
    LastStaysLast(c'.inflight, c'.pending + c'.todo, c.pending + c.todo);
  }

  lemma ShiftScan(t: Table, w: World, w': World)
    requires Shift(w, w') && ScanInv(t, w)
    ensures ScanInv(t, w')
  {
    if w.phase.Scanning? {
      var c, c' := w.core, w'.core;
      if c'.pending + c'.todo != [] {
        ShiftedLast(c, c');
      }
      ShiftMark(t, w.phase.at, c, c');
      ShiftSaved(t, w.phase.at, c, c');
      assert OnTheWay(c') == OnTheWay(c);
    }
  }

  lemma ShiftCover(t: Table, w: World, w': World)
    requires Shift(w, w') && w.now <= |t.changes| && CoverInv(t, w)
    ensures CoverInv(t, w')
  {
    ShiftFacts(t, w, w');
  }

  lemma ShiftLetters(t: Table, w: World, w': World)
    requires Shift(w, w') && w.now <= |t.changes| && LetterInv(t, w)
    ensures LetterInv(t, w')
  {
    assert forall k :: OnceEncodable(t, w, k) ==> OnceEncodable(t, w', k);
    forall q, k | 0 <= q < |w'.core.queue| && UpTo(t, w'.core.queue[q].cursor, k) && AllUsable(w'.core, q + 1)
      ensures OnceEncodable(t, w', k)
    {
      assert AllUsable(w.core, q + 1);
    }
    assert AllUsable(w'.core, |w'.core.queue|) ==> AllUsable(w.core, |w.core.queue|);
  }

  lemma ShiftStream(t: Table, w: World, w': World)
    requires Shift(w, w') && w.now <= |t.changes| && StreamInv(t, w)
    ensures StreamInv(t, w')
  {
    if w.phase.Streaming? {
      assert HandledInv(t, w') by { ShiftFacts(t, w, w'); HandledSame(t, w, w'); }
      assert VersInv(t, w') by { VersSame(t, w, w'); }
      assert QueueInv(t, w') by { QueueSame(t, w, w'); }
      ShiftNewest(t, w, w');
    }
  }

  lemma NothingWithin(ds: seq<Doc>, es: seq<Doc>)
    requires forall d :: d in ds ==> d in es
    ensures es == [] ==> ds == []
  {
    if ds != [] {
      assert ds[0] in es;
    }
  }

  lemma ShiftNewest(t: Table, w: World, w': World)
    requires Shift(w, w') && w.phase.Streaming? && 0 <= TakenCount(w) && NewestInv(t, w)
    ensures NewestInv(t, w')
  {
    if TakenCount(w) == 0 {
      assert w'.core.todo == [];
      if w'.core.inflight != [] {
        NothingWithin(w'.core.pending, w.core.todo);
      }
    }
  }

  lemma ShiftKeeps(t: Table, w: World, w': World)
    requires Inv(t, w) && Shift(w, w')
    ensures Inv(t, w')
  {
    assert RowInv(t, w');
    ShiftDest(t, w, w');
    ShiftFacts(t, w, w');
    assert LineInv(t, w');
    ShiftCover(t, w, w');
    ShiftLetters(t, w, w');
    ShiftScan(t, w, w');
    ShiftStream(t, w, w');
    AccountStays(t, w, w');
  }
}
