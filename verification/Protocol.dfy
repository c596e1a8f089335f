/** The copying protocol as a step machine: one stream of one source, from its first scan
 * through streaming, with every crash, restart, refusal and late network delivery.
 *
 * Everything in `Core` up to `row` outlives a crash; the rest is the running pipeline and, in `copy`,
 * the row a reservation of versions has loaded and will save. */
module Protocol {
  import opened Documents
  import opened Source
  import opened Checkpoints
  import opened Batching

  /** What a reader hands to the pipeline. `docs` is None when the mapping cannot encode it. */
  datatype Event = Event(
    docs: Option<seq<Doc>>, gtid: Option<Position>, cursor: Option<real>, rows: nat, ms: int, version: nat)

  /** A document refused for good, or an event that could not be encoded, known by its position and
    * its version. */
  datatype Letter = Refused(doc: Doc) | Unusable(gtid: Option<Position>, version: nat)

  /** What the next save will record. */
  datatype Mark = Mark(gtid: Option<Position>, cursor: Option<real>, rows: nat, ms: int)

  const NO_MARK := Mark(None, None, 0, 0)

  datatype Core = Core(
    dest: Dest,
    sent: set<Doc>,
    dead: set<Letter>,
    row: Checkpoint,
    queue: seq<Event>,
    todo: seq<Doc>,
    pending: seq<Doc>,
    inflight: seq<Doc>,
    mark: Mark,
    copy: Option<Checkpoint>)

  /** `vers[j]` is the version given to change `from + j` in this run. */
  datatype Phase =
    | Down
    | Scanning(at: Option<real>, exhausted: bool)
    | Streaming(from: nat, vers: seq<nat>)

  /** `now` counts the changes committed so far. For the statements below, `issued` remembers which
    * change each version was ever given to, and `skipped` the keys of rows that were still on their
    * way when a crash fell after the cursor naming them was saved. */
  datatype World = World(core: Core, now: nat, phase: Phase, issued: map<nat, nat>, skipped: set<Bytes>)

  datatype Label =
    | Take | AddDoc | FlushBatch | Network(ds: seq<Doc>) | Refuse(doc: Doc) | Acknowledge
    | Commit(until: nat)
    | Reserve(row: Checkpoint, copy: Option<Checkpoint>)
    | MarkScan(position: Position, base: nat, rows: nat)
    | ResumeScan
    | ReadChunk(size: nat, events: seq<Event>)
    | FinishScan
    | ResumeStream
    | ReadChange(version: nat, position: Position, ms: int)
    | Crash

  predicate Settled(c: Core, d: Doc) {
    Holds(c.dest, d) || Refused(d) in c.dead
  }

  function NextMark(m: Mark, e: Event): Mark {
    Mark(
      if e.gtid.Some? then e.gtid else m.gtid,
      if e.cursor.Some? then e.cursor else m.cursor,
      if e.cursor.Some? then e.rows else m.rows,
      if e.ms > m.ms then e.ms else m.ms)
  }

  /** Recording a finished batch: only what the mark names changes. */
  function Recorded(row: Checkpoint, m: Mark): Checkpoint {
    if m.gtid.None? && m.cursor.None? then row else
    row.(
      gtid := if m.gtid.Some? then m.gtid else row.gtid,
      cursor := if m.cursor.Some? then m.cursor else row.cursor,
      rowsDone := if m.cursor.Some? then m.rows else row.rowsDone,
      lastEventMs := if m.ms > 0 then m.ms else row.lastEventMs,
      schemaVersion := if row.schemaVersion == 0 then SCHEMA_VERSION else row.schemaVersion)
  }

  /** What a save changes: the position, the cursor with its row count, and the time of the last event, each
    * only if the mark has one; a row without a schema version gets one. Everything else stays. */
  lemma RecordedExactly(row: Checkpoint, m: Mark)
    ensures var after := Recorded(row, m);
            && after.gtid == (if m.gtid.Some? then m.gtid else row.gtid)
            && (after.cursor, after.rowsDone) == (if m.cursor.Some? then
                (m.cursor, m.rows) else (row.cursor, row.rowsDone))
            && (m.gtid.Some? || m.cursor.Some? ==> after.lastEventMs == if m.ms > 0 then m.ms else row.lastEventMs)
            && (after.start, after.base, after.done, after.rowsTotal, after.watermark) ==
               (row.start, row.base, row.done, row.rowsTotal, row.watermark)
            && (row.schemaVersion != 0 ==> after.schemaVersion == row.schemaVersion)
    ensures m.gtid.None? && m.cursor.None? ==> Recorded(row, m) == row
  {
  }

  /** The mark after a sequence of events. */
  function MarkAfter(m: Mark, events: seq<Event>): Mark {
    if events == [] then m else NextMark(MarkAfter(m, events[..|events| - 1]), events[|events| - 1])
  }

  /** What the next save will record is the last position and the last cursor with its own row count, and
    * the latest time, of all the events that went before. */
  lemma {:induction false} MarkIsLatest(m: Mark, events: seq<Event>, i: nat)
    requires i < |events|
    ensures var last := MarkAfter(m, events);
            && (events[i].gtid.Some? && (forall j :: i < j < |events| ==> events[j].gtid.None?) ==>
                  last.gtid == events[i].gtid)
            && (events[i].cursor.Some? && (forall j :: i < j < |events| ==> events[j].cursor.None?) ==>
                  last.cursor == events[i].cursor && last.rows == events[i].rows)
            && last.ms >= events[i].ms
    ensures var last := MarkAfter(m, events);
            && ((forall e :: e in events ==> e.gtid.None?) ==> last.gtid == m.gtid)
            && ((forall e :: e in events ==> e.cursor.None?) ==> (last.cursor, last.rows) == (m.cursor, m.rows))
            && (last.ms == m.ms || exists e :: e in events && last.ms == e.ms)
  {
    var n := |events| - 1;
    var front := events[..n];
    assert forall e :: e in front ==> e in events;
    assert events[n] in events;
    if i < n {
      MarkIsLatest(m, front, i);
    } else if n > 0 {
      MarkIsLatest(m, front, n - 1);
    }
  }

  function Taken(c: Core): Core
    requires c.queue != []
  {
    var e := c.queue[0];
    if e.docs.None? then c.(queue := c.queue[1..], dead := c.dead + {Unusable(e.gtid, e.version)})
    else c.(queue := c.queue[1..], todo := e.docs.value, mark := NextMark(c.mark, e))
  }

  function AddedDoc(lim: Limits, c: Core): Core
    requires c.todo != []
  {
    var (batch, kept) := Added(lim, c.pending, c.todo[0]);
    c.(todo := c.todo[1..], pending := kept, inflight := batch, sent := c.sent + ToSet(batch))
  }

  /** The pipeline's own steps. */
  ghost predicate CoreStep(lim: Limits, c: Core, l: Label, c': Core) {
    match l
    case Take =>
      c.todo == [] && c.inflight == [] && c.queue != [] && c' == Taken(c)
    case AddDoc =>
      c.todo != [] && c.inflight == [] && c' == AddedDoc(lim, c)
    case FlushBatch =>
      && c.todo == [] && c.inflight == [] && c.pending != []
      && c' == c.(pending := [], inflight := c.pending, sent := c.sent + ToSet(c.pending))
    case Network(ds) =>
      (forall d :: d in ds ==> d in c.sent) && c' == c.(dest := DeliverAll(c.dest, ds))
    case Refuse(d) =>
      d in c.inflight && c' == c.(dead := c.dead + {Refused(d)})
    case Acknowledge =>
      && c.inflight != [] && (forall d :: d in c.inflight ==> Settled(c, d))
      && c' == c.(inflight := [], row := Recorded(c.row, c.mark))
    case _ => false
  }

  function Line(c: Core): seq<Doc> { c.inflight + c.pending + c.todo }

  /** The rows a crash now would skip: the saved cursor is at or past their keys, and they are still
    * on their way. */
  function HeldBack(t: Table, w: World): set<Bytes> {
    if w.phase.Scanning? && w.core.row.cursor.Some? then
      set d | d in Line(w.core) && t.rank(d.key) <= w.core.row.cursor.value && !Settled(w.core, d) :: d.key
    else {}
  }

  ghost predicate CoveringPosition(t: Table, p: Position, lo: nat, hi: nat) {
    IsPrefix(t, p) && lo <= Cut(t, p) <= hi
  }

  /** How many changes were committed when the scan began. */
  function Since(t: Table, row: Checkpoint): nat {
    if row.start.Some? then Cut(t, row.start.value) else 0
  }

  /** The place streaming would start from. */
  function Low(t: Table, row: Checkpoint): nat {
    if row.gtid.Some? then Cut(t, row.gtid.value) else Since(t, row)
  }

  /** One page of the table as committed at `now`: an event a row, in key order, the last one carrying
    * the cursor; no row in the page's key range is skipped. A row that cannot be encoded is an event
    * without documents. */
  ghost predicate IsChunk(t: Table, now: nat, at: Option<real>, base: nat, size: nat, events: seq<Event>)
    requires now <= |t.changes|
  {
    && 1 <= size && |events| <= size
    && (forall i :: 0 <= i < |events| ==>
          && events[i].gtid.None? && events[i].version == base
          && (events[i].cursor.Some? <==> i == |events| - 1)
          && (events[i].docs.Some? ==> IsScanned(t, now, at, base, events[i].docs.value)))
    && (events != [] ==> at.Some? ==> at.value < events[|events| - 1].cursor.value)
    && (forall d :: d in DocsOf(events) ==> t.rank(d.key) <= events[|events| - 1].cursor.value)
    && (events != [] && events[|events| - 1].docs.Some? ==>
          t.rank(events[|events| - 1].docs.value[0].key) == events[|events| - 1].cursor.value)
    && Ascending(t, DocsOf(events))
    && (forall k :: Past(at, t.rank(k)) && (|events| < size || t.rank(k) <= events[|events| - 1].cursor.value) ==>
          && (ValueAt(t, now, k).Body? ==> HasKey(DocsOf(events), k))
          && (ValueAt(t, now, k).Unencodable? ==> HasUnencoded(events)))
  }

  /** Some event of these makes no documents. */
  predicate HasUnencoded(events: seq<Event>) {
    exists e :: e in events && e.docs.None?
  }

  ghost predicate IsScanned(t: Table, now: nat, at: Option<real>, base: nat, ds: seq<Doc>)
    requires now <= |t.changes|
  {
    && |ds| == 1 && ds[0].version == base && !ds[0].deleted && Past(at, t.rank(ds[0].key))
    && ValueAt(t, now, ds[0].key) == Body(ds[0].body)
  }

  function EventDocs(e: Event): seq<Doc> { if e.docs.Some? then e.docs.value else [] }

  function DocsOf(events: seq<Event>): seq<Doc> {
    if events == [] then [] else DocsOf(events[..|events| - 1]) + EventDocs(events[|events| - 1])
  }

  ghost predicate Ascending(t: Table, ds: seq<Doc>) {
    forall i, j :: 0 <= i < j < |ds| ==> t.rank(ds[i].key) < t.rank(ds[j].key)
  }

  ghost predicate HasKey(ds: seq<Doc>, k: Bytes) {
    exists d :: d in ds && d.key == k
  }

  function ChangeEvent(t: Table, i: nat, version: nat, position: Position, ms: int): Event
    requires i < |t.changes|
  {
    Event(
      if t.changes[i].effect.Unencoded? then None else Some(DocsFor(t.changes[i].effect.writes, version)),
      Some(position), None, 0, ms, version)
  }

  function Stopped(c: Core): Core {
    c.(queue := [], todo := [], pending := [], inflight := [], mark := NO_MARK, copy := None)
  }

  function Idle(c: Core): bool {
    c.queue == [] && c.todo == [] && c.pending == [] && c.inflight == []
  }

  /** One step of the whole system. A crash may fall anywhere. */
  ghost predicate Step(t: Table, lim: Limits, w: World, l: Label, w': World)
    requires w.now <= |t.changes|
  {
    match l
    case Commit(until) =>
      w.now <= until <= |t.changes| && w' == w.(now := until)
    case Reserve(row, copy) =>
      && OthersReserved(w.core.row, w.core.copy, row, copy) && (w.phase.Down? ==> copy.None?)
      && w' == w.(core := w.core.(row := row, copy := copy))
    case MarkScan(p, base, rows) =>
      && w.phase.Down? && w.core.row.start.None? && !(w.core.row.done && w.core.row.gtid.Some?)
      && p != {} && IsPrefix(t, p) && Cut(t, p) == w.now && base > 0
      && w' == w.(core := w.core.(row := w.core.row.(start := Some(p), base := base, rowsTotal := rows)),
                  phase := Scanning(w.core.row.cursor, false))
    case ResumeScan =>
      && w.phase.Down? && w.core.row.start.Some? && !(w.core.row.done && w.core.row.gtid.Some?)
      && w' == w.(phase := Scanning(w.core.row.cursor, false))
    case ReadChunk(size, events) =>
      && w.phase.Scanning? && !w.phase.exhausted
      && IsChunk(t, w.now, w.phase.at, w.core.row.base, size, events)
      && w' == w.(core := w.core.(queue := w.core.queue + events),
                  phase := Scanning(if events == [] then w.phase.at else events[|events| - 1].cursor,
                                    |events| < size))
    case FinishScan =>
      && w.phase.Scanning? && w.phase.exhausted && Idle(w.core) && w.core.copy.None?
      && w' == w.(core := w.core.(row := w.core.row.(done := true, rowsTotal := w.core.row.rowsDone)),
                  phase := Streaming(Low(t, w.core.row), []))
    case ResumeStream =>
      && w.phase.Down? && w.core.row.done && w.core.row.gtid.Some?
      && w' == w.(phase := Streaming(Low(t, w.core.row), []))
    case ReadChange(v, p, ms) =>
      && w.phase.Streaming?
      && var i := w.phase.from + |w.phase.vers|;
      && i < w.now
      && CoveringPosition(t, p, w.phase.from, i)
      && v > w.core.row.base && (forall u :: u in w.issued ==> u < v)
      && w' == w.(core := w.core.(queue := w.core.queue + [ChangeEvent(t, i, v, p, ms)]),
                  phase := Streaming(w.phase.from, w.phase.vers + [v]),
                  issued := w.issued[v := i])
    case Crash =>
      w' == w.(core := Stopped(w.core), phase := Down, skipped := w.skipped + HeldBack(t, w))
    case _ =>
      (!w.phase.Down? || l.Network?) && CoreStep(lim, w.core, l, w'.core) && w' == w.(core := w'.core)
  }

  /** A first run: nothing recorded, an empty destination. */
  ghost predicate Init(t: Table, w: World) {
    && Valid(t) && w.now <= |t.changes|
    && w.core == Core(map[], {}, {}, BLANK, [], [], [], [], NO_MARK, None)
    && w.phase == Down && w.issued == map[] && w.skipped == {}
  }

  ghost predicate StepAt(t: Table, lim: Limits, ws: seq<World>, ls: seq<Label>, i: nat)
    requires i < |ls| < |ws|
  {
    ws[i].now <= |t.changes| && Step(t, lim, ws[i], ls[i], ws[i + 1])
  }

  /** A run is a sequence of worlds joined by steps. */
  ghost predicate IsRun(t: Table, lim: Limits, ws: seq<World>, ls: seq<Label>) {
    && |ws| == |ls| + 1 && Init(t, ws[0])
    && forall i {:trigger StepAt(t, lim, ws, ls, i)} :: 0 <= i < |ls| ==> StepAt(t, lim, ws, ls, i)
  }

  lemma OneMoreStep(t: Table, lim: Limits, ws: seq<World>, ls: seq<Label>, l: Label, w: World)
    requires IsRun(t, lim, ws, ls) && ws[|ls|].now <= |t.changes| && Step(t, lim, ws[|ls|], l, w)
    ensures IsRun(t, lim, ws + [w], ls + [l])
  {
    var ws', ls' := ws + [w], ls + [l];
    forall i | 0 <= i <= |ls| ensures StepAt(t, lim, ws', ls', i) {
      if i < |ls| {
        assert StepAt(t, lim, ws, ls, i);
      }
    }
  }
}
