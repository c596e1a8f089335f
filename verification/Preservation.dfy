/** Each step keeps the invariant, one lemma a step. */
module Preservation {
  import opened Documents
  import opened Source
  import opened Batching
  import opened Protocol
  import opened Invariant

  /** Later in time, with nothing the invariant speaks of changed. */
  ghost predicate Same(w: World, w': World) {
    var c, c' := w.core, w'.core;
    && w.now <= w'.now && w'.phase == w.phase && w'.issued == w.issued && w'.skipped == w.skipped
    && c' == c.(row := c'.row, copy := c'.copy) && (w'.phase.Down? ==> c'.copy.None?)
    && c'.row.gtid == c.row.gtid && c'.row.start == c.row.start && c'.row.base == c.row.base
    && c'.row.cursor == c.row.cursor && c'.row.done == c.row.done
  }

  lemma SameOk(t: Table, w: World, w': World)
    requires Same(w, w') && w'.now <= |t.changes|
    ensures forall k, ds :: Owed(t, w, k, ds) ==> Owed(t, w', k, ds)
    ensures forall k :: Ok(t, w, k) ==> Ok(t, w', k)
    ensures forall d :: DocFresh(t, w, d) ==> DocFresh(t, w', d)
    ensures forall d :: Stamped(t, w, d) ==> Stamped(t, w', d)
    ensures OnTheWay(w'.core) == OnTheWay(w.core) && Line(w'.core) == Line(w.core)
  {
    assert forall v, k :: KeyFresh(t, w, v, k) ==> KeyFresh(t, w', v, k);
    assert forall v, k :: Witnessed(t, w, v, k) ==> Witnessed(t, w', v, k);
  }

  lemma SameRow(t: Table, w: World, w': World)
    requires Same(w, w') && w'.now <= |t.changes| && RowInv(t, w)
    ensures RowInv(t, w')
  {
  }

  lemma SameDest(t: Table, w: World, w': World)
    requires Same(w, w') && w'.now <= |t.changes| && DestInv(t, w)
    ensures DestInv(t, w')
  {
    SameOk(t, w, w');
  }

  lemma SameLine(t: Table, w: World, w': World)
    requires Same(w, w') && w'.now <= |t.changes| && LineInv(t, w)
    ensures LineInv(t, w')
  {
    SameOk(t, w, w');
  }

  lemma SameCover(t: Table, w: World, w': World)
    requires Same(w, w') && w'.now <= |t.changes| && CoverInv(t, w)
    ensures CoverInv(t, w')
  {
    SameOk(t, w, w');
  }

  lemma SameLetters(t: Table, w: World, w': World)
    requires Same(w, w') && w'.now <= |t.changes| && LetterInv(t, w)
    ensures LetterInv(t, w')
  {
    assert forall k :: OnceEncodable(t, w, k) ==> OnceEncodable(t, w', k);
    forall q, k | 0 <= q < |w'.core.queue| && UpTo(t, w'.core.queue[q].cursor, k) && AllUsable(w'.core, q + 1)
      ensures OnceEncodable(t, w', k)
    {
      assert AllUsable(w.core, q + 1);
    }
    assert AllUsable(w'.core, |w'.core.queue|) ==> AllUsable(w.core, |w.core.queue|);
  }

  lemma SameScan(t: Table, w: World, w': World)
    requires Same(w, w') && ScanInv(t, w)
    ensures ScanInv(t, w')
  {
  }

  lemma BuriedStays(t: Table, dead: set<Letter>, dead': set<Letter>)
    requires dead <= dead'
    ensures forall i, v :: Buried(t, dead, i, v) ==> Buried(t, dead', i, v)
  {
  }

  lemma HandledSame(t: Table, w: World, w': World)
    requires w.phase.Streaming? && w'.phase == w.phase && w'.core.queue == w.core.queue
    requires 0 <= TakenCount(w) && w.phase.from + |w.phase.vers| <= |t.changes|
    requires forall d :: InHand(w.core, d) ==> InHand(w'.core, d)
    requires w.core.dead <= w'.core.dead
    requires HandledInv(t, w)
    ensures HandledInv(t, w')
  {
    BuriedStays(t, w.core.dead, w'.core.dead);
    forall j | 0 <= j < TakenCount(w')
      ensures Handled(t, w'.core, w'.phase.from + j, w'.phase.vers[j])
    {
      assert Handled(t, w.core, w.phase.from + j, w.phase.vers[j]);
    }
  }

  lemma VersSame(t: Table, w: World, w': World)
    requires w.phase.Streaming? && w'.phase == w.phase && w'.issued == w.issued && VersInv(t, w)
    ensures VersInv(t, w')
  {
  }

  lemma QueueSame(t: Table, w: World, w': World)
    requires w.phase.Streaming? && w'.phase == w.phase && w'.core.queue == w.core.queue
    requires 0 <= TakenCount(w) && w.phase.from + |w.phase.vers| <= |t.changes| && QueueInv(t, w)
    ensures QueueInv(t, w')
  {
  }

  lemma NewestSame(t: Table, w: World, w': World)
    requires w.phase.Streaming? && w'.phase == w.phase && w'.core.queue == w.core.queue && 0 <= TakenCount(w)
    requires w'.core.todo == w.core.todo && w'.core.pending == w.core.pending
    requires w'.core.inflight == w.core.inflight && w'.core.mark == w.core.mark && NewestInv(t, w)
    ensures NewestInv(t, w')
  {
  }

  /** The parts of the streaming invariant that do not look at the destination. */
  lemma StreamSame(t: Table, w: World, w': World)
    requires w.now <= w'.now <= |t.changes| && w'.phase == w.phase && w'.issued == w.issued
    requires w'.core.queue == w.core.queue && w'.core.todo == w.core.todo && w'.core.pending == w.core.pending
    requires w'.core.inflight == w.core.inflight && w'.core.mark == w.core.mark
    requires Low(t, w'.core.row) == Low(t, w.core.row) && w'.core.row.start == w.core.row.start
    requires forall d :: InHand(w.core, d) ==> InHand(w'.core, d)
    requires w.core.dead <= w'.core.dead
    requires StreamInv(t, w)
    ensures StreamInv(t, w')
  {
    if w.phase.Streaming? {
      assert HandledInv(t, w') by { HandledSame(t, w, w'); }
      assert VersInv(t, w') by { VersSame(t, w, w'); }
      assert QueueInv(t, w') by { QueueSame(t, w, w'); }
      assert NewestInv(t, w') by { NewestSame(t, w, w'); }
    }
  }

  lemma SettledStays(t: Table, c: Core, c': Core)
    requires forall d :: Settled(c, d) ==> Settled(c', d)
    requires c.dead <= c'.dead
    ensures forall i: nat, v :: i < |t.changes| && Finished(t, c, i, v) ==> Finished(t, c', i, v)
  {
    BuriedStays(t, c.dead, c'.dead);
  }

  lemma AccountStays(t: Table, w: World, w': World)
    requires w.now <= |t.changes| && w'.now <= |t.changes| && AccountInv(t, w)
    requires w'.core.row.start == w.core.row.start && Low(t, w'.core.row) == Low(t, w.core.row)
    requires forall d :: Settled(w.core, d) ==> Settled(w'.core, d)
    requires w.core.dead <= w'.core.dead
    requires forall v :: v in w.issued ==> v in w'.issued && w'.issued[v] == w.issued[v]
    ensures AccountInv(t, w')
  {
    SettledStays(t, w.core, w'.core);
    if w.core.row.start.Some? {
      forall i | Cut(t, w.core.row.start.value) <= i < Low(t, w.core.row) ensures Accounted(t, w', i) {
        assert Accounted(t, w, i);
        var v :| v in w.issued && w.issued[v] == i && Finished(t, w.core, i, v);
        assert v in w'.issued && w'.issued[v] == i && Finished(t, w'.core, i, v);
      }
    }
  }

  lemma SameKeeps(t: Table, w: World, w': World)
    requires Inv(t, w) && Same(w, w') && w'.now <= |t.changes|
    ensures Inv(t, w')
  {
    SameRow(t, w, w');
    SameDest(t, w, w');
    SameLine(t, w, w');
    SameCover(t, w, w');
    SameLetters(t, w, w');
    SameScan(t, w, w');
    StreamSame(t, w, w');
    AccountStays(t, w, w');
  }

  /** The network moved: deliveries from what was sent, and new dead letters. */
  ghost predicate Grown(w: World, w': World) {
    var c, c' := w.core, w'.core;
    && w' == w.(core := c') && c' == c.(dest := c'.dest, dead := c'.dead)
    && c.dead <= c'.dead && Keyed(c'.dest)
    && (forall k :: k in c.dest ==> k in c'.dest && c.dest[k].version <= c'.dest[k].version)
    && (forall k :: k in c'.dest ==> c'.dest[k] in c.sent)
  }

  lemma GrownFacts(t: Table, w: World, w': World)
    requires Grown(w, w') && w.now <= |t.changes|
    ensures forall k, ds :: Owed(t, w, k, ds) ==> Owed(t, w', k, ds)
    ensures forall k :: Ok(t, w, k) ==> Ok(t, w', k)
    ensures forall d :: DocFresh(t, w, d) ==> DocFresh(t, w', d)
    ensures forall d :: Stamped(t, w, d) ==> Stamped(t, w', d)
    ensures forall d :: Settled(w.core, d) ==> Settled(w'.core, d)
    ensures forall d :: InHand(w.core, d) ==> InHand(w'.core, d)
    ensures forall k :: DeadKey(w.core.dead, k) ==> DeadKey(w'.core.dead, k)
    ensures OnTheWay(w'.core) == OnTheWay(w.core) && Line(w'.core) == Line(w.core)
  {
    forall k | DeadKey(w.core.dead, k) ensures DeadKey(w'.core.dead, k) {
      var d :| Refused(d) in w.core.dead && d.key == k;
      assert Refused(d) in w'.core.dead;
    }
  }

  lemma GrownDest(t: Table, w: World, w': World)
    requires Grown(w, w') && w.now <= |t.changes| && DestInv(t, w)
    ensures DestInv(t, w')
  {
    GrownFacts(t, w, w');
    forall d | d in w'.core.sent && Live(w'.core.dest, d) && !Overruled(w'.core.dead, d)
      ensures DocFresh(t, w', d)
    {
      assert Live(w.core.dest, d);
      assert !Overruled(w.core.dead, d);
      assert DocFresh(t, w, d);
    }
  }

  lemma GrownCover(t: Table, w: World, w': World)
    requires Grown(w, w') && w.now <= |t.changes| && CoverInv(t, w)
    ensures CoverInv(t, w')
  {
    GrownFacts(t, w, w');
  }

  lemma GrownLine(t: Table, w: World, w': World)
    requires Grown(w, w') && w.now <= |t.changes| && LineInv(t, w)
    ensures LineInv(t, w')
  {
    GrownFacts(t, w, w');
  }

  lemma GrownLetters(t: Table, w: World, w': World)
    requires Grown(w, w') && w.now <= |t.changes| && LetterInv(t, w)
    ensures LetterInv(t, w')
  {
    assert forall k :: OnceEncodable(t, w, k) ==> OnceEncodable(t, w', k);
    assert NoneUnusable(w'.core.dead) ==> NoneUnusable(w.core.dead);
    forall q, k | 0 <= q < |w'.core.queue| && UpTo(t, w'.core.queue[q].cursor, k) && AllUsable(w'.core, q + 1)
      ensures OnceEncodable(t, w', k)
    {
      assert AllUsable(w.core, q + 1);
    }
    assert AllUsable(w'.core, |w'.core.queue|) ==> AllUsable(w.core, |w.core.queue|);
  }

  lemma GrownScan(t: Table, w: World, w': World)
    requires Grown(w, w') && ScanInv(t, w)
    ensures ScanInv(t, w')
  {
    assert OnTheWay(w'.core) == OnTheWay(w.core);
  }

  lemma GrownKeeps(t: Table, w: World, w': World)
    requires Inv(t, w) && Grown(w, w') && w.core.row.start.Some?
    ensures Inv(t, w')
  {
    GrownDest(t, w, w');
    GrownCover(t, w, w');
    GrownLine(t, w, w');
    GrownLetters(t, w, w');
    GrownScan(t, w, w');
    GrownFacts(t, w, w');
    StreamSame(t, w, w');
    AccountStays(t, w, w');
  }

  lemma NetworkKeeps(t: Table, lim: Limits, w: World, ds: seq<Doc>, w': World)
    requires Inv(t, w) && CoreStep(lim, w.core, Network(ds), w'.core) && w' == w.(core := w'.core)
    ensures Inv(t, w')
  {
    forall k
      ensures Keyed(w'.core.dest)
      ensures k in w.core.dest ==> k in w'.core.dest && w.core.dest[k].version <= w'.core.dest[k].version
      ensures k in w'.core.dest ==> w'.core.dest[k] in w.core.sent
    {
      DeliveryOnlyAdvances(w.core.dest, ds, k);
    }
    if w.core.row.start.None? {
      FromNothing(ds, w.core.sent);
      assert w' == w;
    } else {
      assert Keyed(w'.core.dest) by { DeliveryOnlyAdvances(w.core.dest, ds, []); }
      GrownKeeps(t, w, w');
    }
  }

  lemma RefuseKeeps(t: Table, lim: Limits, w: World, d: Doc, w': World)
    requires Inv(t, w) && CoreStep(lim, w.core, Refuse(d), w'.core) && w' == w.(core := w'.core)
    ensures Inv(t, w')
  {
    GrownKeeps(t, w, w');
  }
}
