/** Acknowledging a batch, which is when a position or cursor is saved, keeps the invariant. */
module AckSteps {
  import opened Documents
  import opened Source
  import opened Protocol
  import opened Invariant
  import opened Preservation

  /** A settled batch leaves the line; the row records what the mark names, or stays as it was. */
  ghost predicate Ack(w: World, w': World) {
    var c, row := w.core, w'.core.row;
    && !w.phase.Down? && c.inflight != [] && (forall d :: d in c.inflight ==> Settled(c, d))
    && w' == w.(core := c.(inflight := [], row := row)) && (row == Recorded(c.row, c.mark) || row == c.row)
  }

  /** The acknowledgement moves the saved position. */
  predicate MovesPosition(w: World, w': World) {
    w.core.mark.gtid.Some? && w'.core.row == Recorded(w.core.row, w.core.mark)
  }

  lemma SettledKeyIsOk(t: Table, w: World, d: Doc)
    requires w.now <= |t.changes| && Settled(w.core, d)
    ensures Ok(t, w, d.key)
  {
    if Refused(d) in w.core.dead {
      assert DeadKey(w.core.dead, d.key);
    }
  }

  // While scanning ---------------------------------------------------------------------------

  /** Only the cursor can move, so streaming would still start from the same place. */
  lemma AckScanFacts(t: Table, w: World, w': World)
    requires Ack(w, w') && w.now <= |t.changes| && !MovesPosition(w, w')
    ensures Low(t, w'.core.row) == Low(t, w.core.row)
    ensures w'.core.row.start == w.core.row.start && w'.core.row.gtid == w.core.row.gtid
    ensures w'.core.row.base == w.core.row.base && w'.core.row.done == w.core.row.done
    ensures forall k :: Ok(t, w, k) ==> Ok(t, w', k)
    ensures forall d :: DocFresh(t, w, d) ==> DocFresh(t, w', d)
    ensures forall d :: Stamped(t, w, d) ==> Stamped(t, w', d)
    ensures forall d :: Settled(w.core, d) ==> Settled(w'.core, d)
    ensures Line(w.core) == w.core.inflight + Line(w'.core)
    ensures OnTheWay(w.core) == w.core.inflight + OnTheWay(w'.core)
  {
  }

  lemma AckOwed(t: Table, w: World, w': World, k: Bytes, ds: seq<Doc>)
    requires Ack(w, w') && w.now <= |t.changes| && !MovesPosition(w, w')
    requires Owed(t, w, k, Line(w.core) + ds)
    ensures Owed(t, w', k, Line(w'.core) + ds)
  {
    AckScanFacts(t, w, w');
    if !Ok(t, w, k) {
      var d :| d in Line(w.core) + ds && d.key == k;
      if d in w.core.inflight {
        SettledKeyIsOk(t, w, d);
      } else {
        assert d in Line(w'.core) + ds;
      }
    }
  }

  lemma AckScanCover(t: Table, w: World, w': World)
    requires Ack(w, w') && w.now <= |t.changes| && !MovesPosition(w, w') && CoverInv(t, w)
    ensures CoverInv(t, w')
  {
    AckScanFacts(t, w, w');
    var c, c' := w.core, w'.core;
    forall k | UpTo(t, c'.row.cursor, k) || UpTo(t, c'.mark.cursor, k) ensures Owed(t, w', k, Line(c')) {
      assert Owed(t, w, k, Line(c));
      assert Line(c) + [] == Line(c) && Line(c') + [] == Line(c');
      AckOwed(t, w, w', k, []);
    }
    forall q, k | 0 <= q < |c'.queue| && UpTo(t, c'.queue[q].cursor, k)
      ensures Owed(t, w', k, Line(c') + DocsOf(c'.queue[..q + 1]))
    {
      AckOwed(t, w, w', k, DocsOf(c.queue[..q + 1]));
    }
    if w.phase.Scanning? {
      forall k | w.phase.exhausted || UpTo(t, w.phase.at, k) ensures Owed(t, w', k, OnTheWay(c')) {
        assert Owed(t, w, k, OnTheWay(c));
        AckOwed(t, w, w', k, DocsOf(c.queue));
      }
    }
  }

  lemma AscendingSuffix(t: Table, a: seq<Doc>, b: seq<Doc>)
    requires Ascending(t, a + b)
    ensures Ascending(t, b)
  {
    forall i, j | 0 <= i < j < |b| ensures t.rank(b[i].key) < t.rank(b[j].key) {
      assert (a + b)[i + |a|] == b[i] && (a + b)[j + |a|] == b[j];
    }
  }

  /** The cursor being saved is not past the one row a batch may leave behind. */
  lemma AckScanSaved(t: Table, at: Option<real>, c: Core, c': Core)
    requires c' == c.(inflight := [], row := c'.row) && (c'.row == Recorded(c.row, c.mark) || c'.row == c.row)
    requires ScanMark(t, at, c) && ScanSaved(t, at, c) && |c.pending + c.todo| <= 1
    ensures ScanMark(t, at, c') && ScanSaved(t, at, c')
  {
    var left := c.pending + c.todo;
    assert Line(c') == left;
    assert forall d :: d in left ==> d in Line(c);
    assert NoneBefore(t, c.row.cursor, left);
    assert NoneBefore(t, c.mark.cursor, left) by {
      assert left != [] ==> left == [left[|left| - 1]];
    }
    assert AllAfter(t, c'.row.cursor, DocsOf(c.queue));
  }

  lemma AckScanOrder(t: Table, w: World, w': World)
    requires Ack(w, w') && w.now <= |t.changes| && ScanInv(t, w)
    ensures ScanInv(t, w')
  {
    if w.phase.Scanning? {
      AckScanSaved(t, w.phase.at, w.core, w'.core);
      AckScanFacts(t, w, w');
      AscendingSuffix(t, w.core.inflight, OnTheWay(w'.core));
      assert forall d :: d in OnTheWay(w'.core) ==> d in OnTheWay(w.core);
    }
  }

  lemma AckScanDest(t: Table, w: World, w': World)
    requires Ack(w, w') && w.now <= |t.changes| && !MovesPosition(w, w') && DestInv(t, w) && LineInv(t, w)
    ensures DestInv(t, w') && LineInv(t, w')
  {
    AckScanFacts(t, w, w');
    assert forall d :: d in OnTheWay(w'.core) ==> d in OnTheWay(w.core);
  }

  // While streaming --------------------------------------------------------------------------

  /** A document of a change taken before the newest one is settled once the batch is. */
  lemma OlderIsSettled(t: Table, w: World, j: nat, d: Doc)
    requires w.core.inflight != [] && (forall e :: e in w.core.inflight ==> Settled(w.core, e))
    requires w.phase.Streaming? && Rising(w.phase.vers) && 0 < TakenCount(w) && j < TakenCount(w) - 1 && NewestInv(t, w)
    requires d.version == w.phase.vers[j] && InHand(w.core, d)
    ensures Settled(w.core, d)
  {
    assert w.phase.vers[j] < w.phase.vers[TakenCount(w) - 1];
  }

  lemma OlderIsFinished(t: Table, w: World, j: nat)
    requires w.core.inflight != [] && (forall e :: e in w.core.inflight ==> Settled(w.core, e))
    requires w.phase.Streaming? && Rising(w.phase.vers) && 0 < TakenCount(w) && j < TakenCount(w) - 1 && NewestInv(t, w)
    requires w.phase.from + |w.phase.vers| <= |t.changes| && Handled(t, w.core, w.phase.from + j, w.phase.vers[j])
    ensures Finished(t, w.core, w.phase.from + j, w.phase.vers[j])
  {
    var i, v := w.phase.from + j, w.phase.vers[j];
    if t.changes[i].effect.Encoded? {
      forall x | x in t.changes[i].effect.writes ensures Settled(w.core, DocFor(x, v)) {
        OlderIsSettled(t, w, j, DocFor(x, v));
      }
    }
  }

  /** Everything taken before the newest change is finished once the batch is. */
  lemma AckFinishes(t: Table, w: World, lo: nat, hi: nat)
    requires w.core.inflight != [] && (forall e :: e in w.core.inflight ==> Settled(w.core, e))
    requires w.phase.Streaming? && w.phase.from + |w.phase.vers| <= |t.changes| && 0 < TakenCount(w)
    requires Rising(w.phase.vers) && HandledInv(t, w) && NewestInv(t, w)
    requires w.phase.from <= lo && hi <= w.phase.from + TakenCount(w) - 1
    ensures FinishedHere(t, w, lo, hi)
  {
    var from := w.phase.from;
    forall j | lo - from <= j < hi - from
      ensures Finished(t, w.core, from + j, w.phase.vers[j])
    {
      assert Handled(t, w.core, from + j, w.phase.vers[j]);
      OlderIsFinished(t, w, j);
    }
  }

  lemma FreshEarlier(t: Table, s: nat, v: Held, k: Bytes, lo: nat, lo': nat, hi: nat)
    requires lo' <= lo && hi <= |t.changes| && Fresh(t, s, v, k, lo, hi)
    ensures Fresh(t, s, v, k, lo', hi)
  {
  }

  lemma AckFresh(t: Table, w: World, w': World, d: Doc)
    requires Valid(t) && Ack(w, w') && w.now <= |t.changes| && RowInv(t, w) && DestInv(t, w) && StreamInv(t, w)
    requires w.phase.Streaming? && MovesPosition(w, w')
    requires d in w.core.sent && Live(w.core.dest, d) && !Overruled(w.core.dead, d)
    ensures Fresh(t, Since(t, w.core.row), d.Value(), d.key, Low(t, w'.core.row), w.now)
  {
    var lo, lo' := Low(t, w.core.row), Low(t, w'.core.row);
    assert lo' == Cut(t, w.core.mark.gtid.value);
    assert NewestInv(t, w);
    if lo <= lo' {
      AckFinishes(t, w, lo, lo');
      FinishedMakesFresh(t, w, lo', d);
    } else {
      assert DocFresh(t, w, d);
      FreshEarlier(t, Since(t, w.core.row), d.Value(), d.key, lo, lo', w.now);
    }
  }

  lemma AckOwesNothing(t: Table, w: World, w': World, k: Bytes)
    requires Valid(t) && Ack(w, w') && w.now <= |t.changes| && RowInv(t, w) && StreamInv(t, w)
    requires w.phase.Streaming? && MovesPosition(w, w') && Ok(t, w, k)
    ensures Ok(t, w', k)
  {
    var lo, lo' := Low(t, w.core.row), Low(t, w'.core.row);
    assert lo' == Cut(t, w.core.mark.gtid.value);
    assert NewestInv(t, w);
    if lo <= lo' {
      AckFinishes(t, w, lo, lo');
      FinishedOwesNothing(t, w, lo', k);
    } else if KeyFresh(t, w, Absent, k) {
      FreshEarlier(t, Since(t, w.core.row), Absent, k, lo, lo', w.now);
    }
  }

  lemma ReadingVersion(t: Table, from: nat, e: Event, i: nat, v: nat, d: Doc)
    requires i < |t.changes| && IsReading(t, from, e, i, v) && d in EventDocs(e)
    ensures d.version == v
  {
    var ws := t.changes[i].effect.writes;
    var n :| 0 <= n < |DocsFor(ws, v)| && DocsFor(ws, v)[n] == d;
  }

  lemma VersionInQueue(t: Table, w: World, q: nat, d: Doc)
    requires w.phase.Streaming? && 0 <= TakenCount(w) && w.phase.from + |w.phase.vers| <= |t.changes|
    requires QueueInv(t, w) && q < |w.core.queue| && d in EventDocs(w.core.queue[q])
    ensures d.version == w.phase.vers[TakenCount(w) + q]
  {
    var h := TakenCount(w) + q;
    QueuedIsReading(t, w, q);
    ReadingVersion(t, w.phase.from, w.core.queue[q], w.phase.from + h, w.phase.vers[h], d);
  }

  lemma QueuedVersion(t: Table, w: World, d: Doc) returns (q: nat)
    requires w.phase.Streaming? && 0 <= TakenCount(w) && w.phase.from + |w.phase.vers| <= |t.changes|
    requires QueueInv(t, w) && d in DocsOf(w.core.queue)
    ensures q < |w.core.queue| && d.version == w.phase.vers[TakenCount(w) + q]
  {
    q := DocsOfMember(w.core.queue, d);
    VersionInQueue(t, w, q, d);
  }

  lemma RemainingIsNewest(t: Table, w: World, w': World, d: Doc)
    requires w.phase.Streaming? && 0 < TakenCount(w) && w.core.inflight != []
    requires NewestInv(t, w) && (d in w.core.pending || d in w.core.todo)
    ensures d.version == w.phase.vers[TakenCount(w) - 1]
  {
  }

  /** A document still on its way belongs to a change at or after the position being saved. */
  lemma AckRemaining(t: Table, w: World, w': World, d: Doc)
    requires Ack(w, w') && w.now <= |t.changes| && StreamInv(t, w) && w.phase.Streaming?
    requires MovesPosition(w, w') && d in OnTheWay(w'.core)
    ensures d.version in w.issued && Low(t, w'.core.row) <= w.issued[d.version] < w.now
  {
    assert 0 < TakenCount(w) && Cut(t, w.core.mark.gtid.value) <= w.phase.from + TakenCount(w) - 1 by {
      assert NewestInv(t, w);
    }
    var n: nat;
    if d in Line(w'.core) {
      RemainingIsNewest(t, w, w', d);
      n := TakenCount(w) - 1;
    } else {
      var q := QueuedVersion(t, w, d);
      n := TakenCount(w) + q;
    }
    assert w.phase.vers[n] in w.issued;
  }

  lemma AckStreamLine(t: Table, w: World, w': World)
    requires Valid(t) && Ack(w, w') && w.now <= |t.changes| && RowInv(t, w) && LineInv(t, w) && StreamInv(t, w)
    requires w.phase.Streaming? && MovesPosition(w, w')
    ensures LineInv(t, w')
  {
    forall d | d in OnTheWay(w'.core)
      ensures Stamped(t, w', d) && DocFresh(t, w', d)
    {
      assert d in OnTheWay(w.core);
      assert Stamped(t, w, d);
      AckRemaining(t, w, w', d);
      PutIsFresh(t, Since(t, w.core.row), w.issued[d.version], d.key, Low(t, w'.core.row), w.now);
    }
  }

  lemma AckStreamDest(t: Table, w: World, w': World)
    requires Valid(t) && Ack(w, w') && w.now <= |t.changes| && RowInv(t, w) && DestInv(t, w) && StreamInv(t, w)
    requires w.phase.Streaming? && MovesPosition(w, w')
    ensures DestInv(t, w')
  {
    forall d | d in w'.core.sent && Live(w'.core.dest, d) && !Overruled(w'.core.dead, d)
      ensures DocFresh(t, w', d)
    {
      AckFresh(t, w, w', d);
    }
  }

  lemma AckStreamCover(t: Table, w: World, w': World)
    requires Valid(t) && Ack(w, w') && w.now <= |t.changes| && RowInv(t, w) && StreamInv(t, w) && CoverInv(t, w)
    requires w.phase.Streaming? && MovesPosition(w, w')
    ensures CoverInv(t, w')
  {
    forall k ensures Ok(t, w', k) {
      assert Ok(t, w, k);
      AckOwesNothing(t, w, w', k);
    }
  }

  /** Acknowledging moves nothing that finished changes are judged by. */
  lemma StillFinished(t: Table, w: World, w': World, i: nat, v: nat)
    requires Ack(w, w') && i < |t.changes| && Finished(t, w.core, i, v)
    ensures Finished(t, w'.core, i, v)
  {
    if t.changes[i].effect.Encoded? {
      forall x | x in t.changes[i].effect.writes ensures Settled(w'.core, DocFor(x, v)) {
        assert Settled(w.core, DocFor(x, v));
      }
    }
  }

  lemma FinishedInRun(t: Table, w: World, lo: nat, hi: nat, i: nat)
    requires w.phase.Streaming? && hi <= |t.changes| && FinishedHere(t, w, lo, hi) && lo <= i < hi
    requires VersInv(t, w)
    ensures Accounted(t, w, i)
  {
    var j := i - w.phase.from;
    assert Finished(t, w.core, w.phase.from + j, w.phase.vers[j]);
    assert w.phase.vers[j] in w.issued && w.issued[w.phase.vers[j]] == i;
  }

  lemma StillAccounted(t: Table, w: World, w': World, i: nat)
    requires Ack(w, w') && i < |t.changes| && Accounted(t, w, i)
    ensures Accounted(t, w', i)
  {
    var v :| v in w.issued && w.issued[v] == i && Finished(t, w.core, i, v);
    StillFinished(t, w, w', i, v);
  }

  lemma AckStreamAccount(t: Table, w: World, w': World)
    requires Ack(w, w') && w.now <= |t.changes| && RowInv(t, w) && StreamInv(t, w) && AccountInv(t, w)
    requires w.phase.Streaming? && MovesPosition(w, w')
    ensures AccountInv(t, w')
  {
    var lo, lo' := Low(t, w.core.row), Low(t, w'.core.row);
    assert NewestInv(t, w) && VersInv(t, w);
    AckFinishes(t, w, lo, lo');
    forall i | Cut(t, w.core.row.start.value) <= i < lo' ensures Accounted(t, w', i) {
      if i < lo {
        assert Accounted(t, w, i);
      } else {
        FinishedInRun(t, w, lo, lo', i);
      }
      StillAccounted(t, w, w', i);
    }
  }

  lemma AckHandled(t: Table, w: World, w': World)
    requires Ack(w, w') && w.phase.Streaming? && 0 <= TakenCount(w) && w.phase.from + |w.phase.vers| <= |t.changes|
    requires HandledInv(t, w)
    ensures HandledInv(t, w')
  {
    forall d | InHand(w.core, d) ensures InHand(w'.core, d) {
    }
    HandledSame(t, w, w');
  }

  lemma AckNewest(t: Table, w: World, w': World)
    requires Ack(w, w') && w.phase.Streaming? && 0 <= TakenCount(w) && NewestInv(t, w)
    ensures NewestInv(t, w') && w'.core.row.start == w.core.row.start
    ensures if !MovesPosition(w, w') then Low(t, w'.core.row) == Low(t, w.core.row)
            else w.phase.from <= Low(t, w'.core.row) < w.phase.from + |w.phase.vers|
  {
  }

  lemma AckStream(t: Table, w: World, w': World)
    requires Ack(w, w') && w.now <= |t.changes| && StreamInv(t, w)
    ensures StreamInv(t, w')
  {
    if w.phase.Streaming? {
      AckNewest(t, w, w');
      assert HandledInv(t, w') by { AckHandled(t, w, w'); }
      assert VersInv(t, w') by { VersSame(t, w, w'); }
      assert QueueInv(t, w') by { QueueSame(t, w, w'); }
    }
  }

  lemma AckRow(t: Table, w: World, w': World)
    requires Ack(w, w') && w.now <= |t.changes| && RowInv(t, w) && StreamInv(t, w) && ScanInv(t, w)
    ensures RowInv(t, w')
  {
    if w.phase.Streaming? {
      assert NewestInv(t, w);
    }
  }

  lemma AckLetters(t: Table, w: World, w': World)
    requires Ack(w, w') && w.now <= |t.changes| && LetterInv(t, w)
    ensures LetterInv(t, w')
  {
    assert w'.core.row.start == w.core.row.start;
    assert forall k :: OnceEncodable(t, w, k) ==> OnceEncodable(t, w', k);
    forall q, k | 0 <= q < |w'.core.queue| && UpTo(t, w'.core.queue[q].cursor, k) && AllUsable(w'.core, q + 1)
      ensures OnceEncodable(t, w', k)
    {
      assert AllUsable(w.core, q + 1);
    }
    assert AllUsable(w'.core, |w'.core.queue|) ==> AllUsable(w.core, |w.core.queue|);
  }

  lemma AckKeeps(t: Table, w: World, w': World)
    requires Inv(t, w) && Ack(w, w')
    ensures Inv(t, w')
  {
    AckRow(t, w, w');
    AckStream(t, w, w');
    AckScanOrder(t, w, w');
    AckLetters(t, w, w');
    if !MovesPosition(w, w') {
      AckScanFacts(t, w, w');
      AckScanCover(t, w, w');
      AckScanDest(t, w, w');
      AccountStays(t, w, w');
    } else {
      assert w.phase.Streaming?;
      AckStreamLine(t, w, w');
      AckStreamDest(t, w, w');
      AckStreamCover(t, w, w');
      AckStreamAccount(t, w, w');
    }
  }
}
