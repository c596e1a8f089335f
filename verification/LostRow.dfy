/** What a crash between saving a cursor and writing the row it names costs: the row. */
module LostRow {
  import opened Documents
  import opened Source
  import opened Checkpoints
  import opened Batching
  import opened Protocol
  import opened Invariant
  import opened BatchSteps
  import opened AckSteps
  import opened SystemSteps
  import opened Steps
  import opened Convergence

  function ScanDoc(k: Bytes, body: Bytes): Doc { Doc(k, 1, false, body) }

  function Page(t: Table, a: Bytes, b: Bytes, x: Bytes, y: Bytes): seq<Event> {
    [Event(Some([ScanDoc(a, x)]), None, None, 0, 0, 1), Event(Some([ScanDoc(b, y)]), None, Some(t.rank(b)), 2, 0, 1)]
  }

  /** Two rows in an idle table, the second overflowing the batch the first is in, and the position of what
    * was logged before. */
  ghost predicate TwoRows(t: Table, lim: Limits, p: Position, a: Bytes, b: Bytes, x: Bytes, y: Bytes) {
    && Valid(t) && p != {} && t.changes == [] && t.initial == map[a := Body(x), b := Body(y)] && t.rank(a) < t.rank(b)
    && Usable(lim) && lim.maxRows >= 2
    && |a| + |x| < lim.maxBytes && |b| + |y| < lim.maxBytes && |a| + |x| + |b| + |y| > lim.maxBytes
  }

  function Begun(p: Position): Core {
    Core(map[], {}, {}, BLANK.(start := Some(p), base := 1), [], [], [], [], NO_MARK, None)
  }

  function Labels(t: Table, p: Position, a: Bytes, b: Bytes, x: Bytes, y: Bytes): seq<Label> {
    [MarkScan(p, 1, 0), ReadChunk(2, Page(t, a, b, x, y)), Take, AddDoc, Take, AddDoc,
     Network([ScanDoc(a, x)]), Acknowledge, Crash, ResumeScan, ReadChunk(1, []), FinishScan]
  }

  function Worlds(t: Table, p: Position, a: Bytes, b: Bytes, x: Bytes, y: Bytes): seq<World> {
    var d, e, page := ScanDoc(a, x), ScanDoc(b, y), Page(t, a, b, x, y);
    var at := Some(t.rank(b));
    var mark := Mark(None, at, 2, 0);
    var scanning := Scanning(at, false);
    var c1 := Begun(p);
    var c2 := c1.(queue := page);
    var c3 := c2.(queue := page[1..], todo := [d]);
    var c4 := c3.(todo := [], pending := [d]);
    var c5 := c4.(queue := [], todo := [e], mark := mark);
    var c6 := c5.(todo := [], pending := [e], inflight := [d], sent := {d});
    var c7 := c6.(dest := map[a := d]);
    var c8 := c7.(inflight := [], row := Recorded(c1.row, mark));
    var c9 := Stopped(c8);
    var c12 := c9.(row := c9.row.(done := true, rowsTotal := 2));
    [World(Core(map[], {}, {}, BLANK, [], [], [], [], NO_MARK, None), 0, Down, map[], {}),
     World(c1, 0, Scanning(None, false), map[], {}),
     World(c2, 0, scanning, map[], {}), World(c3, 0, scanning, map[], {}), World(c4, 0, scanning, map[], {}),
     World(c5, 0, scanning, map[], {}), World(c6, 0, scanning, map[], {}), World(c7, 0, scanning, map[], {}),
     World(c8, 0, scanning, map[], {}), World(c9, 0, Down, map[], {b}), World(c9, 0, scanning, map[], {b}),
     World(c9, 0, Scanning(at, true), map[], {b}), World(c12, 0, Streaming(0, []), map[], {b})]
  }

  lemma NothingAfterTheCursor(t: Table, lim: Limits, p: Position, a: Bytes, b: Bytes, x: Bytes, y: Bytes)
    requires TwoRows(t, lim, p, a, b, x, y)
    ensures IsChunk(t, 0, Some(t.rank(b)), 1, 1, [])
  {
  }

  lemma DocsOfOne(e: Event)
    ensures DocsOf([e]) == EventDocs(e)
  {
    assert [e][..0] == [];
  }

  lemma TwoRowPageIsChunk(t: Table, lim: Limits, p: Position, a: Bytes, b: Bytes, x: Bytes, y: Bytes)
    requires TwoRows(t, lim, p, a, b, x, y)
    ensures IsChunk(t, 0, None, 1, 2, Page(t, a, b, x, y))
  {
    var page := Page(t, a, b, x, y);
    var d, e := ScanDoc(a, x), ScanDoc(b, y);
    DocsOfOne(page[0]);
    assert page[..1] == [page[0]];
    assert DocsOf(page) == DocsOf(page[..1]) + EventDocs(page[1]);
    assert DocsOf(page) == [d, e];
    assert Ascending(t, [d, e]);
    forall k | ValueAt(t, 0, k) != Absent ensures ValueAt(t, 0, k).Body? && HasKey(DocsOf(page), k) {
      assert d in DocsOf(page) && e in DocsOf(page);
      assert k == a || k == b;
    }
  }

  lemma Filling(lim: Limits, d: Doc, e: Doc)
    requires lim.maxRows >= 2 && d.Size() < lim.maxBytes && e.Size() < lim.maxBytes &&
             d.Size() + e.Size() > lim.maxBytes
    ensures Added(lim, [], d) == ([], [d]) && Added(lim, [d], e) == ([d], [e])
  {
    assert [d][..0] == [];
    assert SizeOf([d]) == d.Size();
    assert [] + [d] == [d];
  }

  lemma ScanSteps(t: Table, lim: Limits, p: Position, a: Bytes, b: Bytes, x: Bytes, y: Bytes, i: nat)
    requires TwoRows(t, lim, p, a, b, x, y) && i < 2
    ensures Step(t, lim, Worlds(t, p, a, b, x, y)[i], Labels(t, p, a, b, x, y)[i], Worlds(t, p, a, b, x, y)[i + 1])
  {
    TwoRowPageIsChunk(t, lim, p, a, b, x, y);
    assert [] + Page(t, a, b, x, y) == Page(t, a, b, x, y);
  }

  lemma TakeTwo(t: Table, lim: Limits, p: Position, a: Bytes, b: Bytes, x: Bytes, y: Bytes, i: nat)
    requires TwoRows(t, lim, p, a, b, x, y) && (i == 2 || i == 4)
    ensures Step(t, lim, Worlds(t, p, a, b, x, y)[i], Labels(t, p, a, b, x, y)[i], Worlds(t, p, a, b, x, y)[i + 1])
  {
    var page := Page(t, a, b, x, y);
    assert page[1..] == [page[1]] && page[1..][1..] == [];
  }

  lemma AddFirst(t: Table, lim: Limits, p: Position, a: Bytes, b: Bytes, x: Bytes, y: Bytes, i: nat)
    requires TwoRows(t, lim, p, a, b, x, y) && i == 3
    ensures Step(t, lim, Worlds(t, p, a, b, x, y)[i], Labels(t, p, a, b, x, y)[i], Worlds(t, p, a, b, x, y)[i + 1])
  {
    Filling(lim, ScanDoc(a, x), ScanDoc(b, y));
    assert [ScanDoc(a, x)][1..] == [];
    assert Worlds(t, p, a, b, x, y)[4].core == AddedDoc(lim, Worlds(t, p, a, b, x, y)[3].core);
  }

  lemma AddSecond(t: Table, lim: Limits, p: Position, a: Bytes, b: Bytes, x: Bytes, y: Bytes, i: nat)
    requires TwoRows(t, lim, p, a, b, x, y) && i == 5
    ensures Step(t, lim, Worlds(t, p, a, b, x, y)[i], Labels(t, p, a, b, x, y)[i], Worlds(t, p, a, b, x, y)[i + 1])
  {
    var d, e := ScanDoc(a, x), ScanDoc(b, y);
    Filling(lim, d, e);
    assert [e][1..] == [] && ToSet([d]) == {d};
    assert Worlds(t, p, a, b, x, y)[6].core == AddedDoc(lim, Worlds(t, p, a, b, x, y)[5].core);
  }

  lemma SettleSteps(t: Table, lim: Limits, p: Position, a: Bytes, b: Bytes, x: Bytes, y: Bytes, i: nat)
    requires TwoRows(t, lim, p, a, b, x, y) && 6 <= i < 8
    ensures Step(t, lim, Worlds(t, p, a, b, x, y)[i], Labels(t, p, a, b, x, y)[i], Worlds(t, p, a, b, x, y)[i + 1])
  {
    var d := ScanDoc(a, x);
    assert [d][..0] == [];
    assert DeliverAll(map[], [d]) == map[a := d];
  }

  lemma CrashStep(t: Table, lim: Limits, p: Position, a: Bytes, b: Bytes, x: Bytes, y: Bytes)
    requires TwoRows(t, lim, p, a, b, x, y)
    ensures Step(t, lim, Worlds(t, p, a, b, x, y)[8], Crash, Worlds(t, p, a, b, x, y)[9])
  {
    var w := Worlds(t, p, a, b, x, y)[8];
    assert Line(w.core) == [ScanDoc(b, y)];
    assert ScanDoc(b, y) in Line(w.core);
    assert HeldBack(t, w) == {b};
  }

  lemma RestartSteps(t: Table, lim: Limits, p: Position, a: Bytes, b: Bytes, x: Bytes, y: Bytes, i: nat)
    requires TwoRows(t, lim, p, a, b, x, y) && 9 <= i < 12
    ensures Step(t, lim, Worlds(t, p, a, b, x, y)[i], Labels(t, p, a, b, x, y)[i], Worlds(t, p, a, b, x, y)[i + 1])
  {
    NothingAfterTheCursor(t, lim, p, a, b, x, y);
  }

  /** A whole run that loses its second row: it drains with no dead letter and the destination lacks
    * the row, because the crash came after the cursor that names it was saved. */
  lemma CrashAfterOvertakingLosesARow(t: Table, lim: Limits, p: Position, a: Bytes, b: Bytes, x: Bytes, y: Bytes)
      returns (ws: seq<World>, ls: seq<Label>)
    requires TwoRows(t, lim, p, a, b, x, y)
    ensures IsRun(t, lim, ws, ls)
    ensures Drained(ws[|ls|]) && ws[|ls|].core.dead == {} && ws[|ls|].now == |t.changes|
    ensures ValueAt(t, |t.changes|, b) == Body(y) && Lookup(ws[|ls|].core.dest, b) == Absent
  {
    ws, ls := Worlds(t, p, a, b, x, y), Labels(t, p, a, b, x, y);
    forall i | 0 <= i < |ls| ensures StepAt(t, lim, ws, ls, i) {
      if i < 2 {
        ScanSteps(t, lim, p, a, b, x, y, i);
      } else if i == 2 || i == 4 {
        TakeTwo(t, lim, p, a, b, x, y, i);
      } else if i == 3 {
        AddFirst(t, lim, p, a, b, x, y, i);
      } else if i == 5 {
        AddSecond(t, lim, p, a, b, x, y, i);
      } else if i < 8 {
        SettleSteps(t, lim, p, a, b, x, y, i);
      } else if i == 8 {
        CrashStep(t, lim, p, a, b, x, y);
      } else {
        RestartSteps(t, lim, p, a, b, x, y, i);
      }
    }
  }

  // A concrete instance -------------------------------------------------------------------------

  function Code(k: Bytes): nat {
    if k == [] then 0 else 257 * Code(k[..|k| - 1]) + k[|k| - 1] + 1
  }

  lemma {:induction false} CodeIsInjective(j: Bytes, k: Bytes)
    requires Code(j) == Code(k)
    ensures j == k
  {
    if j != [] && k != [] {
      CodeIsInjective(j[..|j| - 1], k[..|k| - 1]);
      assert j == j[..|j| - 1] + [j[|j| - 1]] && k == k[..|k| - 1] + [k[|k| - 1]];
    }
  }

  const KEY_ONE: Bytes := [49]
  const KEY_TWO: Bytes := [50]
  const BODY: Bytes := [123, 125]

  function IdleTable(): Table {
    Table(map[KEY_ONE := Body(BODY), KEY_TWO := Body(BODY)], [], k => Code(k) as real)
  }

  /** Two three-byte documents and a four-byte budget are enough. */
  lemma TwoSmallRowsSuffice() returns (ws: seq<World>, ls: seq<Label>)
    ensures Valid(IdleTable()) && IsRun(IdleTable(), Limits(100, 4), ws, ls)
    ensures Drained(ws[|ls|]) && ws[|ls|].core.dead == {}
    ensures ValueAt(IdleTable(), 0, KEY_TWO) == Body(BODY) && Lookup(ws[|ls|].core.dest, KEY_TWO) == Absent
  {
    var t := IdleTable();
    forall j, k | t.rank(j) == t.rank(k) ensures j == k {
      CodeIsInjective(j, k);
    }
    assert KEY_ONE[..0] == [] && KEY_TWO[..0] == [];
    assert Code(KEY_ONE) == 50 && Code(KEY_TWO) == 51;
    ws, ls := CrashAfterOvertakingLosesARow(t, Limits(100, 4), {1}, KEY_ONE, KEY_TWO, BODY, BODY);
  }

  // In any run ----------------------------------------------------------------------------------

  /** The key is behind everything the scan will still read or save, and nothing on its way or in
    * the network can bring it. */
  ghost predicate Gone(t: Table, w: World, k: Bytes) {
    var c, r := w.core, t.rank(k);
    && k !in c.dest && BehindRow(c.row, r) && (c.copy.Some? ==> BehindRow(c.copy.value, r))
    && (forall d :: d in c.sent ==> d.key != k)
    && Avoids(Line(c), k) && Avoids(DocsOf(c.queue), k)
    && NotBefore(c.mark.cursor, r) && NoneEarlier(c.queue, r)
    && (w.phase.Scanning? ==> w.phase.at.Some? && r <= w.phase.at.value)
  }

  predicate BehindRow(row: Checkpoint, r: real) { row.start.Some? && row.cursor.Some? && r <= row.cursor.value }

  ghost predicate Avoids(ds: seq<Doc>, k: Bytes) {
    forall d :: d in ds ==> d.key != k
  }

  lemma AvoidsBoth(a: seq<Doc>, b: seq<Doc>, k: Bytes)
    ensures Avoids(a + b, k) <==> Avoids(a, k) && Avoids(b, k)
  {
    assert forall d :: d in a + b <==> d in a || d in b;
  }

  ghost predicate NoneEarlier(queue: seq<Event>, r: real) {
    forall q :: 0 <= q < |queue| ==> NotBefore(queue[q].cursor, r)
  }

  predicate NotBefore(cursor: Option<real>, r: real) { cursor.Some? ==> r <= cursor.value }

  /** The world after the overtaken batch is sent. */
  function BatchSent(w: World): World
    requires w.core.todo != []
  {
    w.(core := w.core.(todo := [], pending := [w.core.todo[0]], inflight := w.core.pending,
                       sent := w.core.sent + ToSet(w.core.pending)))
  }

  function BatchArrived(w: World): World { w.(core := w.core.(dest := DeliverAll(w.core.dest, w.core.inflight))) }

  function BatchSaved(w: World): World {
    w.(core := w.core.(inflight := [], row := Recorded(w.core.row, w.core.mark)))
  }

  function Crashed(t: Table, w: World): World {
    w.(core := Stopped(w.core), phase := Down, skipped := w.skipped + HeldBack(t, w))
  }

  lemma BatchIsSent(t: Table, lim: Limits, w: World)
    requires w.now <= |t.changes| && w.phase.Scanning? && w.core.inflight == [] && |w.core.todo| == 1
    requires HoldsBack(lim, w.core.pending, w.core.todo[0])
    ensures Step(t, lim, w, AddDoc, BatchSent(w))
  {
    assert w.core.todo[1..] == [];
  }

  lemma BatchArrives(t: Table, lim: Limits, w: World)
    requires w.now <= |t.changes| && w.phase.Scanning? && forall d :: d in w.core.inflight ==> d in w.core.sent
    ensures Step(t, lim, w, Network(w.core.inflight), BatchArrived(w))
  {
  }

  lemma BatchIsSaved(t: Table, lim: Limits, w: World)
    requires w.now <= |t.changes| && w.phase.Scanning? && w.core.inflight != []
    requires forall d :: d in w.core.inflight ==> Settled(w.core, d)
    ensures Step(t, lim, w, Acknowledge, BatchSaved(w))
  {
  }

  lemma AscendingKeysDiffer(t: Table, a: seq<Doc>, d: Doc, b: seq<Doc>, e: Doc)
    requires Ascending(t, a + [d] + b) && (e in a || e in b)
    ensures e.key != d.key
  {
    var all := a + [d] + b;
    assert all[|a|] == d;
    if e in a {
      var i :| 0 <= i < |a| && a[i] == e;
      assert all[i] == e;
    } else {
      var i :| 0 <= i < |b| && b[i] == e;
      assert all[|a| + 1 + i] == e;
    }
  }

  /** The overtaken row's key is on its way once. */
  lemma OvertakenIsAlone(t: Table, c: Core, e: Doc)
    requires Ascending(t, OnTheWay(c)) && c.inflight == [] && |c.todo| == 1
    requires e in c.pending || e in DocsOf(c.queue)
    ensures e.key != c.todo[0].key
  {
    assert c.todo == [c.todo[0]];
    assert OnTheWay(c) == c.pending + [c.todo[0]] + DocsOf(c.queue);
    AscendingKeysDiffer(t, c.pending, c.todo[0], DocsOf(c.queue), e);
  }

  lemma DeliveryBringsOnlyItsKeys(dest: Dest, ds: seq<Doc>, k: Bytes)
    requires Keyed(dest) && k !in dest && forall d :: d in ds ==> d.key != k
    ensures k !in DeliverAll(dest, ds) && forall d :: d in ds ==> Holds(DeliverAll(dest, ds), d)
  {
    DeliveryOnlyAdvances(dest, ds, k);
    forall d | d in ds ensures Holds(DeliverAll(dest, ds), d) {
      DeliveryOnlyAdvances(dest, ds, d.key);
    }
  }

  lemma CrashLeavesItGone(t: Table, w: World, d: Doc)
    requires w.phase.Scanning? && w.core.inflight == [] && w.core.pending == [d] && w.core.todo == []
    requires w.core.row.start.Some? && w.core.row.cursor.Some? && t.rank(d.key) <= w.core.row.cursor.value
    requires d.key !in w.core.dest && Refused(d) !in w.core.dead && forall e :: e in w.core.sent ==> e.key != d.key
    ensures Gone(t, Crashed(t, w), d.key) && d.key in Crashed(t, w).skipped
  {
    assert Line(w.core) == [d];
    assert d in Line(w.core);
    assert OnTheWay(Crashed(t, w).core) == [];
  }

  /** A run goes on with two steps from where it ends. */
  lemma TwoMoreSteps(t: Table, lim: Limits, ws: seq<World>, ls: seq<Label>, w1: World, l1: Label, w2: World, l2: Label)
    requires IsRun(t, lim, ws, ls) && ws[|ls|].now <= |t.changes| && w1.now <= |t.changes|
    requires Step(t, lim, ws[|ls|], l1, w1) && Step(t, lim, w1, l2, w2)
    ensures IsRun(t, lim, ws + [w1, w2], ls + [l1, l2])
  {
    OneMoreStep(t, lim, ws, ls, l1, w1);
    OneMoreStep(t, lim, ws + [w1], ls + [l1], l2, w2);
    assert ws + [w1] + [w2] == ws + [w1, w2] && ls + [l1] + [l2] == ls + [l1, l2];
  }

  lemma HeldWasSent(dest: Dest, sent: set<Doc>, k: Bytes)
    requires Keyed(dest) && forall j :: j in dest ==> dest[j] in sent
    ensures k in dest ==> exists e :: e in sent && e.key == k
  {
  }

  lemma BatchOfOthers(t: Table, w: World)
    requires Inv(t, w) && w.phase.Scanning? && w.core.inflight == [] && |w.core.todo| == 1
    requires forall e :: e in w.core.sent ==> e.key != w.core.todo[0].key
    ensures var k, arrived := w.core.todo[0].key, BatchArrived(BatchSent(w));
            && k !in arrived.core.dest && (forall e :: e in arrived.core.sent ==> e.key != k)
            && (forall d :: d in arrived.core.inflight ==> Settled(arrived.core, d))
  {
    var k, sent := w.core.todo[0].key, BatchSent(w);
    forall e | e in w.core.pending ensures e.key != k {
      OvertakenIsAlone(t, w.core, e);
    }
    HeldWasSent(w.core.dest, w.core.sent, k);
    DeliveryBringsOnlyItsKeys(sent.core.dest, sent.core.inflight, k);
  }

  /** The overtaken row can be lost in the next steps. */
  ghost predicate CanLose(t: Table, lim: Limits, w: World) {
    && w.phase.Scanning? && w.core.inflight == [] && Overtakes(t, lim, w.core)
    && Refused(w.core.todo[0]) !in w.core.dead
    && forall e :: e in w.core.sent ==> e.key != w.core.todo[0].key
  }

  lemma CrashIsAStep(t: Table, lim: Limits, w: World)
    requires w.now <= |t.changes|
    ensures Step(t, lim, w, Crash, Crashed(t, w))
  {
  }

  lemma BatchIsSaveable(t: Table, lim: Limits, w: World)
    requires Inv(t, w) && CanLose(t, lim, w)
    ensures Step(t, lim, BatchArrived(BatchSent(w)), Acknowledge, BatchSaved(BatchArrived(BatchSent(w))))
  {
    BatchOfOthers(t, w);
    BatchIsSaved(t, lim, BatchArrived(BatchSent(w)));
  }

  function LosingEnd(t: Table, w: World): World
    requires w.core.todo != []
  {
    Crashed(t, BatchSaved(BatchArrived(BatchSent(w))))
  }

  lemma LosingEndIsGone(t: Table, lim: Limits, w: World)
    requires Inv(t, w) && CanLose(t, lim, w)
    ensures var end, k := LosingEnd(t, w), w.core.todo[0].key;
            Gone(t, end, k) && k in end.skipped && end.core.dead == w.core.dead && end.phase.Down?
  {
    BatchOfOthers(t, w);
    CrashLeavesItGone(t, BatchSaved(BatchArrived(BatchSent(w))), w.core.todo[0]);
  }

  lemma LosingStart(t: Table, lim: Limits, ws: seq<World>, ls: seq<Label>)
    requires IsRun(t, lim, ws, ls) && CanLose(t, lim, ws[|ls|]) && Inv(t, ws[|ls|])
    ensures var sent := BatchSent(ws[|ls|]);
            IsRun(t, lim, ws + [sent, BatchArrived(sent)], ls + [AddDoc, Network(sent.core.inflight)])
  {
    BatchIsSent(t, lim, ws[|ls|]);
    BatchArrives(t, lim, BatchSent(ws[|ls|]));
    TwoMoreSteps(t, lim, ws, ls, BatchSent(ws[|ls|]), AddDoc, BatchArrived(BatchSent(ws[|ls|])),
                 Network(BatchSent(ws[|ls|]).core.inflight));
  }

  lemma LosingRest(t: Table, lim: Limits, ws: seq<World>, ls: seq<Label>, w: World)
    requires CanLose(t, lim, w) && Inv(t, w) && IsRun(t, lim, ws, ls) && ws[|ls|] == BatchArrived(BatchSent(w))
    ensures IsRun(t, lim, ws + [BatchSaved(ws[|ls|]), LosingEnd(t, w)], ls + [Acknowledge, Crash])
  {
    BatchIsSaveable(t, lim, w);
    CrashIsAStep(t, lim, BatchSaved(ws[|ls|]));
    TwoMoreSteps(t, lim, ws, ls, BatchSaved(ws[|ls|]), Acknowledge, LosingEnd(t, w), Crash);
  }

  lemma LosingRun(t: Table, lim: Limits, ws: seq<World>, ls: seq<Label>)
    returns (ws': seq<World>, ls': seq<Label>)
    requires IsRun(t, lim, ws, ls) && CanLose(t, lim, ws[|ls|]) && Inv(t, ws[|ls|])
    ensures IsRun(t, lim, ws', ls') && |ls'| == |ls| + 4 && ws'[..|ws|] == ws && ws'[|ls'|] == LosingEnd(t, ws[|ls|])
  {
    var w, sent := ws[|ls|], BatchSent(ws[|ls|]);
    LosingStart(t, lim, ws, ls);
    ws', ls' := ws + [sent, BatchArrived(sent)], ls + [AddDoc, Network(sent.core.inflight)];
    LosingRest(t, lim, ws', ls', w);
    ws', ls' := ws' + [BatchSaved(BatchArrived(sent)), LosingEnd(t, w)], ls' + [Acknowledge, Crash];
  }

  /** In any run, wherever a document overtakes its cursor and its key was never sent before, the next
    * steps can lose its row: the batch is sent, arrives and is recorded, and a crash comes before the
    * document left behind is sent. */
  lemma OvertakingCanLoseTheRow(t: Table, lim: Limits, ws: seq<World>, ls: seq<Label>)
    returns (ws': seq<World>, ls': seq<Label>)
    requires IsRun(t, lim, ws, ls) && CanLose(t, lim, ws[|ls|])
    ensures IsRun(t, lim, ws', ls') && |ls'| == |ls| + 4 && ws'[..|ws|] == ws
    ensures var end, k := ws'[|ls'|], ws[|ls|].core.todo[0].key;
            Gone(t, end, k) && k in end.skipped && end.core.dead == ws[|ls|].core.dead && end.phase.Down?
  {
    RunKeeps(t, lim, ws, ls, |ls|);
    LosingEndIsGone(t, lim, ws[|ls|]);
    ws', ls' := LosingRun(t, lim, ws, ls);
  }

  // For good ------------------------------------------------------------------------------------

  lemma GoneTake(t: Table, w: World, w': World, k: Bytes)
    requires Gone(t, w, k) && w.core.queue != [] && w.core.todo == [] && w.core.inflight == []
    requires w' == w.(core := Taken(w.core))
    ensures Gone(t, w', k)
  {
    DocsOfFirst(w.core.queue);
    AvoidsBoth(EventDocs(w.core.queue[0]), DocsOf(w.core.queue[1..]), k);
    AvoidsBoth(Line(w.core), EventDocs(w.core.queue[0]), k);
    assert Line(w'.core) == Line(w.core) + if w.core.queue[0].docs.Some? then EventDocs(w.core.queue[0]) else [];
  }

  lemma GoneShift(t: Table, w: World, w': World, k: Bytes)
    requires Gone(t, w, k) && Shift(w, w')
    ensures Gone(t, w', k)
  {
    assert forall d :: d in w'.core.inflight ==> d in Line(w'.core);
  }

  lemma GoneNetwork(t: Table, w: World, w': World, ds: seq<Doc>, k: Bytes)
    requires Gone(t, w, k) && Keyed(w.core.dest) && (forall d :: d in ds ==> d in w.core.sent)
    requires w' == w.(core := w.core.(dest := DeliverAll(w.core.dest, ds)))
    ensures Gone(t, w', k)
  {
    DeliveryBringsOnlyItsKeys(w.core.dest, ds, k);
    assert Line(w'.core) == Line(w.core);
  }

  lemma GoneAck(t: Table, w: World, w': World, k: Bytes)
    requires Gone(t, w, k) && Ack(w, w')
    ensures Gone(t, w', k)
  {
    assert Line(w.core) == w.core.inflight + Line(w'.core);
    AvoidsBoth(w.core.inflight, Line(w'.core), k);
  }

  lemma ChunkAvoids(t: Table, now: nat, at: Option<real>, base: nat, size: nat, events: seq<Event>, k: Bytes)
    requires now <= |t.changes| && IsChunk(t, now, at, base, size, events) && at.Some? && t.rank(k) <= at.value
    ensures Avoids(DocsOf(events), k) && NoneEarlier(events, t.rank(k))
  {
    forall d | d in DocsOf(events) ensures d.key != k {
      ChunkDoc(t, now, at, base, size, events, d);
    }
  }

  lemma NoneEarlierBoth(a: seq<Event>, b: seq<Event>, r: real)
    requires NoneEarlier(a, r) && NoneEarlier(b, r)
    ensures NoneEarlier(a + b, r)
  {
  }

  lemma GoneChunk(t: Table, w: World, events: seq<Event>, w': World, k: Bytes)
    requires Gone(t, w, k) && w'.core == w.core.(queue := w.core.queue + events)
    requires Avoids(DocsOf(events), k) && NoneEarlier(events, t.rank(k))
    requires w'.phase.Scanning? ==> w'.phase.at.Some? && t.rank(k) <= w'.phase.at.value
    ensures Gone(t, w', k)
  {
    DocsOfConcat(w.core.queue, events);
    AvoidsBoth(DocsOf(w.core.queue), DocsOf(events), k);
    NoneEarlierBoth(w.core.queue, events, t.rank(k));
    assert Line(w'.core) == Line(w.core);
  }

  lemma GoneReadChunk(t: Table, w: World, size: nat, events: seq<Event>, w': World, k: Bytes)
    requires Gone(t, w, k) && Chunk(t, w, size, events, w')
    ensures Gone(t, w', k)
  {
    ChunkAvoids(t, w.now, w.phase.at, w.core.row.base, size, events, k);
    GoneChunk(t, w, events, w', k);
  }

  lemma ChangeAvoids(t: Table, i: nat, v: nat, p: Position, ms: int, k: Bytes, d: Doc)
    requires i < |t.changes| && Put(t.changes[i], k).None? && d in EventDocs(ChangeEvent(t, i, v, p, ms))
    ensures d.key != k
  {
    var ws := t.changes[i].effect.writes;
    var n :| 0 <= n < |DocsFor(ws, v)| && DocsFor(ws, v)[n] == d;
    assert ws[n] in ws;
  }

  lemma ReadEventAvoids(t: Table, i: nat, v: nat, p: Position, ms: int, k: Bytes)
    requires i < |t.changes| && Put(t.changes[i], k).None?
    ensures Avoids(DocsOf([ChangeEvent(t, i, v, p, ms)]), k)
    ensures NoneEarlier([ChangeEvent(t, i, v, p, ms)], t.rank(k))
  {
    var e := ChangeEvent(t, i, v, p, ms);
    DocsOfOne(e);
    forall d | d in EventDocs(e) ensures d.key != k {
      ChangeAvoids(t, i, v, p, ms, k, d);
    }
  }

  lemma GoneRead(t: Table, w: World, v: nat, p: Position, ms: int, w': World, k: Bytes)
    requires Gone(t, w, k) && ReadStep(t, w, v, p, ms, w')
    requires Put(t.changes[w.phase.from + |w.phase.vers|], k).None?
    ensures Gone(t, w', k)
  {
    ReadEventAvoids(t, w.phase.from + |w.phase.vers|, v, p, ms, k);
    GoneChunk(t, w, [ChangeEvent(t, w.phase.from + |w.phase.vers|, v, p, ms)], w', k);
  }

  lemma GoneCoreStep(t: Table, lim: Limits, w: World, l: Label, w': World, k: Bytes)
    requires Gone(t, w, k) && Keyed(w.core.dest) && (!w.phase.Down? || l.Network?)
    requires CoreStep(lim, w.core, l, w'.core) && w' == w.(core := w'.core)
    ensures Gone(t, w', k) && w'.core.row.start == w.core.row.start
  {
    match l
    case Take => GoneTake(t, w, w', k);
    case AddDoc => AddDocShifts(lim, w, w'); GoneShift(t, w, w', k);
    case FlushBatch => FlushShifts(lim, w, w'); GoneShift(t, w, w', k);
    case Network(ds) => GoneNetwork(t, w, w', ds, k);
    case Acknowledge => GoneAck(t, w, w', k);
    case _ =>
  }

  lemma GoneReading(t: Table, lim: Limits, w: World, l: Label, w': World, k: Bytes)
    requires w.now <= |t.changes| && StreamInv(t, w) && Step(t, lim, w, l, w') && Gone(t, w, k)
    requires l.ReadChunk? || l.ReadChange?
    requires Untouched(t, Cut(t, w.core.row.start.value), |t.changes|, k)
    ensures Gone(t, w', k) && w'.core.row.start == w.core.row.start
  {
    match l
    case ReadChunk(size, events) => GoneReadChunk(t, w, size, events, w', k);
    case ReadChange(v, p, ms) => GoneRead(t, w, v, p, ms, w', k);
  }

  predicate OfTheSystem(l: Label) {
    l.Commit? || l.MarkScan? || l.ResumeScan? || l.FinishScan? || l.ResumeStream? || l.Crash?
  }

  lemma GoneSystemStep(t: Table, lim: Limits, w: World, l: Label, w': World, k: Bytes)
    requires w.now <= |t.changes| && OfTheSystem(l) && Step(t, lim, w, l, w') && Gone(t, w, k)
    ensures Gone(t, w', k) && w'.core.row.start == w.core.row.start
  {
  }

  lemma GoneReserve(t: Table, lim: Limits, w: World, row: Checkpoint, copy: Option<Checkpoint>, w': World, k: Bytes)
    requires w.now <= |t.changes| && Step(t, lim, w, Reserve(row, copy), w') && Gone(t, w, k)
    requires w.core.copy.Some? ==> SameStage(w.core.copy.value, w.core.row)
    ensures Gone(t, w', k) && w'.core.row.start == w.core.row.start
  {
  }

  lemma GoneStep(t: Table, lim: Limits, w: World, l: Label, w': World, k: Bytes)
    requires Safe(t, w) && Step(t, lim, w, l, w') && Gone(t, w, k)
    requires Untouched(t, Cut(t, w.core.row.start.value), |t.changes|, k)
    ensures Gone(t, w', k) && w'.core.row.start == w.core.row.start
  {
    if l.ReadChunk? || l.ReadChange? {
      GoneReading(t, lim, w, l, w', k);
    } else if l.Reserve? {
      GoneReserve(t, lim, w, l.row, l.copy, w', k);
    } else if OfTheSystem(l) {
      GoneSystemStep(t, lim, w, l, w', k);
    } else {
      GoneCoreStep(t, lim, w, l, w', k);
    }
  }

  lemma GoneNext(
      t: Table, lim: Limits, ws: seq<World>, ls: seq<Label>, n: nat, p: Position, k: Bytes)
    requires IsRun(t, lim, ws, ls) && n < |ls| && Gone(t, ws[n], k) && ws[n].core.row.start == Some(p)
    requires Untouched(t, Cut(t, p), |t.changes|, k)
    ensures Gone(t, ws[n + 1], k) && ws[n + 1].core.row.start == Some(p)
  {
    RunKeeps(t, lim, ws, ls, n);
    assert StepAt(t, lim, ws, ls, n);
    GoneStep(t, lim, ws[n], ls[n], ws[n + 1], k);
  }

  /** Such a row never comes back: in every continuation of the run the destination lacks it, unless
    * the source changes it. */
  lemma {:induction false} GoneForGood(
      t: Table, lim: Limits, ws: seq<World>, ls: seq<Label>, n: nat, m: nat, p: Position, k: Bytes)
    requires IsRun(t, lim, ws, ls) && n <= m < |ws| && Gone(t, ws[n], k) && ws[n].core.row.start == Some(p)
    requires Untouched(t, Cut(t, p), |t.changes|, k)
    ensures Gone(t, ws[m], k) && ws[m].core.row.start == Some(p)
    ensures Lookup(ws[m].core.dest, k) == Absent
    decreases m
  {
    if n < m {
      GoneForGood(t, lim, ws, ls, n, m - 1, p, k);
      GoneNext(t, lim, ws, ls, m - 1, p, k);
    }
  }
}
