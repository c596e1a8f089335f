/** One table and one log, two drained runs, two destinations: what a change that cannot be encoded costs.
 * Its letter tells that something happened, and no document tells what. */
module TwoEndings {
  import opened Documents
  import opened Source
  import opened Checkpoints
  import opened Batching
  import opened Protocol
  import opened Convergence
  import opened LostRow

  /** One row, and after what was logged before one update of it that cannot be encoded: it stays where it
    * is or moves to another key. */
  ghost predicate OneUpdate(t: Table, p: Position, k: Bytes, x: Bytes, tx: TxId, us: seq<Write>) {
    && Valid(t) && p != {} && tx !in p && t.initial == map[k := Body(x)]
    && t.changes == [Change(tx, Unencoded(us))] && Find(us, k).Some?
  }

  function Blank(): World {
    World(Core(map[], {}, {}, BLANK, [], [], [], [], NO_MARK, None), 0, Down, map[], {})
  }

  function RowPage(t: Table, k: Bytes, docs: Option<seq<Doc>>): seq<Event> {
    [Event(docs, None, Some(t.rank(k)), 1, 0, 1)]
  }

  function UpdateEvent(p: Position): Event { Event(None, Some(p), None, 0, 0, 2) }

  lemma ValuesOf(t: Table, p: Position, k: Bytes, x: Bytes, tx: TxId, us: seq<Write>)
    requires OneUpdate(t, p, k, x, tx, us)
    ensures ValueAt(t, 0, k) == Body(x) && forall i :: i != k ==> ValueAt(t, 0, i) == Absent
    ensures forall i :: ValueAt(t, 1, i) == match Find(us, i) case Some(v) => v case None => ValueAt(t, 0, i)
    ensures Cut(t, p) == 0 && IsPrefix(t, p)
    ensures LeftToTheScan(t, 0, 1, k)
  {
    assert Put(t.changes[0], k) == Find(us, k);
    assert IsLast(t, 0, 1, k);
    forall i ensures ValueAt(t, 1, i) == match Find(us, i) case Some(v) => v case None => ValueAt(t, 0, i) {
      assert Put(t.changes[0], i) == Find(us, i);
    }
  }

  // The page is read before the update ----------------------------------------------------------

  function EarlyLabels(t: Table, p: Position, k: Bytes, x: Bytes): seq<Label> {
    [MarkScan(p, 1, 0), ReadChunk(2, RowPage(t, k, Some([ScanDoc(k, x)]))), Take, AddDoc, Network([ScanDoc(k, x)]),
     Acknowledge, FinishScan, Commit(1), ReadChange(2, p, 0), Take]
  }

  function EarlyWorlds(t: Table, p: Position, k: Bytes, x: Bytes): seq<World> {
    var d, mark := ScanDoc(k, x), Mark(None, Some(t.rank(k)), 1, 0);
    var scanned := Scanning(Some(t.rank(k)), true);
    var c1 := Begun(p);
    var c2 := c1.(queue := RowPage(t, k, Some([d])));
    var c3 := c1.(todo := [d], mark := mark);
    var c4 := c1.(inflight := [d], sent := {d}, mark := mark);
    var c5 := c4.(dest := map[k := d]);
    var c6 := c5.(inflight := [], row := Recorded(c1.row, mark));
    var c7 := c6.(row := c6.row.(done := true, rowsTotal := 1));
    var c9 := c7.(queue := [UpdateEvent(p)]);
    var c10 := c7.(dead := {Unusable(Some(p), 2)});
    [Blank(), World(c1, 0, Scanning(None, false), map[], {}),
     World(c2, 0, scanned, map[], {}), World(c3, 0, scanned, map[], {}), World(c4, 0, scanned, map[], {}),
     World(c5, 0, scanned, map[], {}), World(c6, 0, scanned, map[], {}), World(c7, 0, Streaming(0, []), map[], {}),
     World(c7, 1, Streaming(0, []), map[], {}), World(c9, 1, Streaming(0, [2]), map[2 := 0], {}),
     World(c10, 1, Streaming(0, [2]), map[2 := 0], {})]
  }

  lemma EarlyPageDocs(t: Table, k: Bytes, x: Bytes)
    ensures DocsOf(RowPage(t, k, Some([ScanDoc(k, x)]))) == [ScanDoc(k, x)]
  {
    DocsOfOne(RowPage(t, k, Some([ScanDoc(k, x)]))[0]);
  }

  lemma EarlyPage(t: Table, p: Position, k: Bytes, x: Bytes, tx: TxId, us: seq<Write>)
    requires OneUpdate(t, p, k, x, tx, us)
    ensures IsChunk(t, 0, None, 1, 2, RowPage(t, k, Some([ScanDoc(k, x)])))
  {
    var d := ScanDoc(k, x);
    ValuesOf(t, p, k, x, tx, us);
    EarlyPageDocs(t, k, x);
    assert d in [d] && IsScanned(t, 0, None, 1, [d]) && Ascending(t, [d]);
    forall j | ValueAt(t, 0, j) != Absent ensures ValueAt(t, 0, j).Body? && HasKey([d], j) {
      assert j == k;
    }
  }

  lemma OneDocFills(lim: Limits, d: Doc)
    requires Usable(lim) && lim.maxRows == 1
    ensures Added(lim, [], d) == ([d], []) && [d][1..] == []
  {
    assert [] + [d] == [d];
  }

  lemma OneDocArrives(d: Doc)
    ensures DeliverAll(map[], [d]) == map[d.key := d] && ToSet([d]) == {d}
  {
    assert [d][..0] == [];
    assert DeliverAll(map[], [d]) == Deliver(map[], d);
  }

  lemma EarlyStart(t: Table, lim: Limits, p: Position, k: Bytes, x: Bytes, tx: TxId, us: seq<Write>, i: nat)
    requires OneUpdate(t, p, k, x, tx, us) && i < 3
    ensures Step(t, lim, EarlyWorlds(t, p, k, x)[i], EarlyLabels(t, p, k, x)[i], EarlyWorlds(t, p, k, x)[i + 1])
  {
    var page := RowPage(t, k, Some([ScanDoc(k, x)]));
    ValuesOf(t, p, k, x, tx, us);
    EarlyPage(t, p, k, x, tx, us);
    assert [] + page == page && page[1..] == [];
  }

  lemma DocIsSent(t: Table, lim: Limits, w: World, d: Doc)
    requires Usable(lim) && lim.maxRows == 1 && w.now <= |t.changes| && w.phase.Scanning?
    requires w.core.todo == [d] && w.core.pending == [] && w.core.inflight == []
    ensures Step(t, lim, w, AddDoc, w.(core := w.core.(todo := [], inflight := [d], sent := w.core.sent + {d})))
  {
    OneDocFills(lim, d);
    OneDocArrives(d);
  }

  lemma EarlyWrite(t: Table, lim: Limits, p: Position, k: Bytes, x: Bytes, tx: TxId, us: seq<Write>, i: nat)
    requires OneUpdate(t, p, k, x, tx, us) && Usable(lim) && lim.maxRows == 1 && 3 <= i < 6
    ensures Step(t, lim, EarlyWorlds(t, p, k, x)[i], EarlyLabels(t, p, k, x)[i], EarlyWorlds(t, p, k, x)[i + 1])
  {
    var ws := EarlyWorlds(t, p, k, x);
    OneDocArrives(ScanDoc(k, x));
    if i == 3 {
      DocIsSent(t, lim, ws[3], ScanDoc(k, x));
    } else if i == 4 {
      BatchArrives(t, lim, ws[4]);
    } else {
      BatchIsSaved(t, lim, ws[5]);
    }
  }

  lemma EarlyStream(t: Table, lim: Limits, p: Position, k: Bytes, x: Bytes, tx: TxId, us: seq<Write>, i: nat)
    requires OneUpdate(t, p, k, x, tx, us) && (6 <= i < 8 || i == 9)
    ensures Step(t, lim, EarlyWorlds(t, p, k, x)[i], EarlyLabels(t, p, k, x)[i], EarlyWorlds(t, p, k, x)[i + 1])
  {
    ValuesOf(t, p, k, x, tx, us);
    assert [UpdateEvent(p)][1..] == [];
  }

  lemma UpdateIsRead(t: Table, lim: Limits, p: Position, k: Bytes, x: Bytes, tx: TxId, us: seq<Write>, w: World,
                     w': World)
    requires OneUpdate(t, p, k, x, tx, us) && w.now == 1 && w.phase == Streaming(0, []) && w.core.queue == []
    requires w.core.row.base == 1 && w.issued == map[]
    requires w' == w.(core := w.core.(queue := [UpdateEvent(p)]), phase := Streaming(0, [2]), issued := map[2 := 0])
    ensures Step(t, lim, w, ReadChange(2, p, 0), w')
  {
    ValuesOf(t, p, k, x, tx, us);
    assert ChangeEvent(t, 0, 2, p, 0) == UpdateEvent(p);
    assert [] + [UpdateEvent(p)] == [UpdateEvent(p)] && [] + [2] == [2];
  }

  /** A run without refusals or skips drains and the destination holds the old body, whatever became of
    * the row. */
  lemma EarlyPageKeepsTheOldRow(t: Table, lim: Limits, p: Position, k: Bytes, x: Bytes, tx: TxId, us: seq<Write>)
      returns (ws: seq<World>, ls: seq<Label>)
    requires OneUpdate(t, p, k, x, tx, us) && Usable(lim) && lim.maxRows == 1
    ensures IsRun(t, lim, ws, ls) && Drained(ws[|ls|]) && ws[|ls|].now == 1 && ws[|ls|].skipped == {}
    ensures forall l :: l in ws[|ls|].core.dead ==> l.Unusable?
    ensures Lookup(ws[|ls|].core.dest, k) == Body(x)
  {
    ws, ls := EarlyWorlds(t, p, k, x), EarlyLabels(t, p, k, x);
    ValuesOf(t, p, k, x, tx, us);
    forall i | 0 <= i < |ls| ensures StepAt(t, lim, ws, ls, i) {
      if i < 3 {
        EarlyStart(t, lim, p, k, x, tx, us, i);
      } else if i < 6 {
        EarlyWrite(t, lim, p, k, x, tx, us, i);
      } else if i == 8 {
        UpdateIsRead(t, lim, p, k, x, tx, us, ws[i], ws[i + 1]);
      } else {
        EarlyStream(t, lim, p, k, x, tx, us, i);
      }
    }
  }

  // The page is read after the update -----------------------------------------------------------

  /** After the update the table holds one row, which cannot be encoded. */
  ghost predicate Leaves(t: Table, r: Bytes)
    requires |t.changes| == 1
  {
    ValueAt(t, 1, r) == Unencodable && forall i :: i != r ==> ValueAt(t, 1, i) == Absent
  }

  function LateLabels(t: Table, p: Position, r: Bytes): seq<Label> {
    [MarkScan(p, 1, 0), Commit(1), ReadChunk(2, RowPage(t, r, None)), Take, FinishScan, ReadChange(2, p, 0), Take]
  }

  function LateWorlds(t: Table, p: Position, r: Bytes): seq<World> {
    var scanned := Scanning(Some(t.rank(r)), true);
    var c1 := Begun(p);
    var c3 := c1.(queue := RowPage(t, r, None));
    var c4 := c1.(dead := {Unusable(None, 1)});
    var c5 := c4.(row := c4.row.(done := true, rowsTotal := 0));
    var c6 := c5.(queue := [UpdateEvent(p)]);
    var c7 := c5.(dead := c5.dead + {Unusable(Some(p), 2)});
    [Blank(), World(c1, 0, Scanning(None, false), map[], {}), World(c1, 1, Scanning(None, false), map[], {}),
     World(c3, 1, scanned, map[], {}), World(c4, 1, scanned, map[], {}), World(c5, 1, Streaming(0, []), map[], {}),
     World(c6, 1, Streaming(0, [2]), map[2 := 0], {}), World(c7, 1, Streaming(0, [2]), map[2 := 0], {})]
  }

  lemma LatePage(t: Table, r: Bytes)
    requires Valid(t) && |t.changes| == 1 && Leaves(t, r)
    ensures IsChunk(t, 1, None, 1, 2, RowPage(t, r, None))
  {
    var page := RowPage(t, r, None);
    DocsOfOne(page[0]);
    assert page[0] in page;
  }

  lemma LateStart(t: Table, lim: Limits, p: Position, k: Bytes, x: Bytes, tx: TxId, us: seq<Write>, r: Bytes, i: nat)
    requires OneUpdate(t, p, k, x, tx, us) && Leaves(t, r) && i < 3
    ensures Step(t, lim, LateWorlds(t, p, r)[i], LateLabels(t, p, r)[i], LateWorlds(t, p, r)[i + 1])
  {
    ValuesOf(t, p, k, x, tx, us);
    LatePage(t, r);
    assert [] + RowPage(t, r, None) == RowPage(t, r, None);
  }

  lemma LateRest(t: Table, lim: Limits, p: Position, k: Bytes, x: Bytes, tx: TxId, us: seq<Write>, r: Bytes, i: nat)
    requires OneUpdate(t, p, k, x, tx, us) && (3 <= i < 5 || i == 6)
    ensures Step(t, lim, LateWorlds(t, p, r)[i], LateLabels(t, p, r)[i], LateWorlds(t, p, r)[i + 1])
  {
    ValuesOf(t, p, k, x, tx, us);
    assert RowPage(t, r, None)[1..] == [] && [UpdateEvent(p)][1..] == [];
    assert {} + {Unusable(None, 1)} == {Unusable(None, 1)};
  }

  /** Another run over the same table and log, and the destination holds nothing: the row was encodable
    * when the scan began, and no longer when its page was read. */
  lemma LatePageLosesTheRow(t: Table, lim: Limits, p: Position, k: Bytes, x: Bytes, tx: TxId, us: seq<Write>, r: Bytes)
      returns (ws: seq<World>, ls: seq<Label>)
    requires OneUpdate(t, p, k, x, tx, us) && Leaves(t, r)
    ensures IsRun(t, lim, ws, ls) && Drained(ws[|ls|]) && ws[|ls|].now == 1 && ws[|ls|].skipped == {}
    ensures forall l :: l in ws[|ls|].core.dead ==> l.Unusable?
    ensures ValueAt(t, 0, k) == Body(x) && forall i :: Lookup(ws[|ls|].core.dest, i) == Absent
  {
    ws, ls := LateWorlds(t, p, r), LateLabels(t, p, r);
    ValuesOf(t, p, k, x, tx, us);
    forall i | 0 <= i < |ls| ensures StepAt(t, lim, ws, ls, i) {
      if i < 3 {
        LateStart(t, lim, p, k, x, tx, us, r, i);
      } else if i == 5 {
        UpdateIsRead(t, lim, p, k, x, tx, us, ws[i], ws[i + 1]);
      } else {
        LateRest(t, lim, p, k, x, tx, us, r, i);
      }
    }
  }

  // Both ends -----------------------------------------------------------------------------------

  /** A drained run without refusals or skips that ends with this under the key. */
  ghost predicate EndsWith(t: Table, lim: Limits, ws: seq<World>, ls: seq<Label>, k: Bytes, v: Held) {
    && IsRun(t, lim, ws, ls) && Drained(ws[|ls|]) && ws[|ls|].now == |t.changes| && ws[|ls|].skipped == {}
    && (forall l :: l in ws[|ls|].core.dead ==> l.Unusable?) && Lookup(ws[|ls|].core.dest, k) == v
  }

  /** A row that moves to another key and cannot be encoded there: the log does not decide what its old key
    * ends with. A page read before the move leaves the old body for good, a page read after it leaves
    * nothing, as in the source. */
  lemma MoveHasTwoEndings(t: Table, lim: Limits, p: Position, k: Bytes, x: Bytes, tx: TxId, j: Bytes)
      returns (ws: seq<World>, ls: seq<Label>, ws': seq<World>, ls': seq<Label>)
    requires OneUpdate(t, p, k, x, tx, [Write(k, Absent), Write(j, Unencodable)]) && j != k
    requires Usable(lim) && lim.maxRows == 1
    ensures LeftToTheScan(t, 0, 1, k) && ValueAt(t, 1, k) == Absent
    ensures EndsWith(t, lim, ws, ls, k, Body(x)) && EndsWith(t, lim, ws', ls', k, ValueAt(t, 1, k))
  {
    var us := [Write(k, Absent), Write(j, Unencodable)];
    ValuesOf(t, p, k, x, tx, us);
    assert us[1..][0] == Write(j, Unencodable) && us[1..][1..] == [];
    assert Find(us, j) == Some(Unencodable) && forall i :: i != j && i != k ==> Find(us, i) == None;
    ws, ls := EarlyPageKeepsTheOldRow(t, lim, p, k, x, tx, us);
    ws', ls' := LatePageLosesTheRow(t, lim, p, k, x, tx, us, j);
  }

  /** A row that stays and can no longer be encoded ends with its old body or with nothing. */
  lemma UpdateHasTwoEndings(t: Table, lim: Limits, p: Position, k: Bytes, x: Bytes, tx: TxId)
      returns (ws: seq<World>, ls: seq<Label>, ws': seq<World>, ls': seq<Label>)
    requires OneUpdate(t, p, k, x, tx, [Write(k, Unencodable)]) && Usable(lim) && lim.maxRows == 1
    ensures ValueAt(t, 1, k) == Unencodable
    ensures EndsWith(t, lim, ws, ls, k, Body(x)) && EndsWith(t, lim, ws', ls', k, Absent)
  {
    var us := [Write(k, Unencodable)];
    ValuesOf(t, p, k, x, tx, us);
    assert us[1..] == [] && forall i :: i != k ==> Find(us, i) == None;
    ws, ls := EarlyPageKeepsTheOldRow(t, lim, p, k, x, tx, us);
    ws', ls' := LatePageLosesTheRow(t, lim, p, k, x, tx, us, k);
  }
}
