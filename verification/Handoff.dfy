/** Deciding how a stream begins: from its recorded position, by resuming a scan, or by starting
 * one; and recording that a scan is complete. */
module Handoff {
  import opened Documents
  import opened Source
  import opened Checkpoints
  import opened Batching
  import opened Protocol
  import opened Sequence
  import Convergence

  datatype Begin = StreamFrom(position: Position) | Scan(row: Checkpoint) | Failed

  /** A stream has a position of its own once its scan is done and something was streamed. */
  predicate HasPosition(row: Checkpoint) { row.done && row.gtid.Some? }

  function WithScanStart(row: Checkpoint, position: Position, version: nat, estimate: nat): Checkpoint {
    row.(start := Some(position), base := version, rowsTotal := estimate)
  }

  predicate StartsAScan(row: Checkpoint, snapshots: bool) {
    !HasPosition(row) && snapshots && row.start.None?
  }

  /** What is administered at the destination: making the scanned copy the one readers see. */
  class Destination {
    var failures: nat

    constructor ()
      ensures failures == 0
    {
      failures := 0;
    }

    method PromoteAlias() returns (ok: bool)
      modifies this
      ensures failures == old(failures) + if ok then 0 else 1
    {
      ok := *;
      if !ok {
        failures := failures + 1;
      }
    }
  }

  class Supervisor {
    const stream: string
    const snapshots: bool
    const store: MemoryStore
    const alloc: Allocator
    const destination: Destination

    constructor (stream: string, snapshots: bool, store: MemoryStore, alloc: Allocator, destination: Destination)
      requires alloc.store == store && alloc.stream == stream
      ensures this.stream == stream && this.snapshots == snapshots && this.store == store && this.alloc == alloc
      ensures this.destination == destination
    {
      this.stream, this.snapshots, this.store, this.alloc := stream, snapshots, store, alloc;
      this.destination := destination;
    }

    ghost predicate Valid()
      reads this, alloc
    {
      alloc.Valid() && alloc.store == store && alloc.stream == stream
    }

    /** Decides, and records the start of a new scan or of streaming without one. A stream that has a
      * position begins there, whatever the source says now; a scan under way is taken up again; only
      * otherwise does it start something new, from where the source stands. It fails only for want of a
      * position or a version, or when the store fails.
      *
      * The row saved for a new scan is the one loaded before the version was drawn, so it puts the
      * watermark back to what it was. */
    method SnapshotIfNeeded(position: Option<Position>, ms: int, estimate: nat) returns (begin: Begin)
      requires Valid()
      modifies alloc, store`data, store`failures
      ensures Valid()
      ensures var row := old(store.RowOf(stream)); store.failures == old(store.failures) ==>
                && (row.done && row.gtid.Some? ==> begin == StreamFrom(row.gtid.value))
                && (!snapshots && row.gtid.Some? ==> begin == StreamFrom(row.gtid.value))
                && (snapshots && row.start.Some? && !(row.done && row.gtid.Some?) ==> begin == Scan(row))
                && (!snapshots && row.gtid.None? && position.Some? ==> begin == StreamFrom(position.value))
                && (begin.Failed? && StartsAScan(row, snapshots) && position.Some? ==>
                      Draw(alloc.blockSize, old(alloc.Mem()), row.watermark, ms).version.None?)
      ensures var row := old(store.RowOf(stream)); !begin.Failed? ==>
                && store.failures == old(store.failures)
                && (begin.StreamFrom? ==> store.RowOf(stream).gtid == Some(begin.position))
                && (begin.StreamFrom? && row.gtid.None? ==> store.RowOf(stream) == row.(done := true, gtid := position))
                && (begin.Scan? ==> begin.row == store.RowOf(stream) && begin.row.start.Some?)
                && (StartsAScan(row, snapshots) ==>
                      var drawn := Draw(alloc.blockSize, old(alloc.Mem()), row.watermark, ms);
                      && position.Some? && drawn.version.Some? && alloc.Mem() == drawn.mem
                      && begin == Scan(WithScanStart(row, position.value, drawn.version.value, estimate)))
      ensures var row := old(store.RowOf(stream)); !StartsAScan(row, snapshots) ==>
                alloc.Mem() == old(alloc.Mem()) && (store.RowOf(stream) == row || (!snapshots && row.gtid.None?))
      ensures store.data - {stream} == old(store.data) - {stream}
    {
      var ok, found := store.Load(stream);
      if !ok {
        return Failed;
      }
      var cp := if found.Some? then found.value else BLANK;
      if cp.done && cp.gtid.Some? {
        return StreamFrom(cp.gtid.value);
      }
      if !snapshots {
        begin := StartWithoutSnapshot(cp, position);
        return;
      }
      if cp.start.Some? {
        return Scan(cp);
      }
      if position.None? {
        return Failed;
      }
      var version := alloc.Next(ms);
      if version.None? {
        return Failed;
      }
      cp := WithScanStart(cp, position.value, version.value, estimate);
      ok := store.Save(stream, cp);
      if !ok {
        return Failed;
      }
      return Scan(cp);
    }

    method StartWithoutSnapshot(cp: Checkpoint, position: Option<Position>) returns (begin: Begin)
      requires cp == store.RowOf(stream) && !HasPosition(cp)
      modifies store`data, store`failures
      ensures cp.gtid.Some? ==> begin == StreamFrom(cp.gtid.value) && store.data == old(store.data)
      ensures cp.gtid.Some? || position.None? ==> store.failures == old(store.failures) && store.data == old(store.data)
      ensures cp.gtid.None? ==>
                && (begin.Failed? <==> position.None? || store.failures != old(store.failures))
                && (!begin.Failed? ==> begin == StreamFrom(position.value) &&
                                       store.RowOf(stream) == cp.(done := true, gtid := position))
                && (begin.Failed? ==> store.RowOf(stream) == cp ||
                                      store.RowOf(stream) == cp.(done := true, gtid := position))
      ensures store.data - {stream} == old(store.data) - {stream}
    {
      if cp.gtid.Some? {
        return StreamFrom(cp.gtid.value);
      }
      if position.None? {
        return Failed;
      }
      var ok := store.Save(stream, cp.(done := true, gtid := position));
      if !ok {
        return Failed;
      }
      return StreamFrom(position.value);
    }

    /** Records that the scan reached the end and then promotes the alias; streaming goes back to where
      * the scan began. It fails only without a row, when the store does, or when the promotion does,
      * which comes after completion is recorded. */
    method FinishScan() returns (start: Option<Position>, ok: bool)
      requires Valid()
      modifies store`data, store`failures, destination
      ensures ok <==> && stream in old(store.data) && store.failures == old(store.failures)
                      && destination.failures == old(destination.failures)
      ensures stream !in old(store.data) ==> store.data == old(store.data)
      ensures stream in old(store.data) ==>
                var row := old(store.RowOf(stream));
                var finished := row.(done := true, rowsTotal := row.rowsDone);
                && (store.failures == old(store.failures) ==> store.RowOf(stream) == finished)
                && (ok ==> start == row.start)
                && (store.RowOf(stream) == row || store.RowOf(stream) == finished)
      ensures store.data - {stream} == old(store.data) - {stream}
    {
      var found;
      ok, found := store.Load(stream);
      if !ok || found.None? {
        return None, false;
      }
      var cp := found.value.(done := true, rowsTotal := found.value.rowsDone);
      ok := store.Save(stream, cp);
      if !ok {
        return None, false;
      }
      ok := destination.PromoteAlias();
      if !ok {
        return None, false;
      }
      return cp.start, true;
    }
  }

  // As steps of the protocol --------------------------------------------------------------------

  /** What the code decided, as the phase of the protocol it stands for: streaming from exactly the
    * position, or scanning from the row's cursor. */
  ghost predicate Stands(t: Table, begin: Begin, w: World) {
    match begin
    case StreamFrom(p) => w.phase == Streaming(Cut(t, p), [])
    case Scan(row) => w.phase == Scanning(row.cursor, false) && w.core.row == row
    case Failed => false
  }

  /** With snapshots, what a stopped stream decides to do next, and the row it leaves, are a step of the
    * protocol: `begin` is any decision that meets the contract of `SnapshotIfNeeded` for the row. */
  lemma BeginningIsAStep(t: Table, lim: Limits, w: World, begin: Begin, position: Position, version: nat, estimate: nat)
    returns (l: Label, w': World)
    requires w.phase.Down? && w.now <= |t.changes| && version > 0
    requires position != {} && IsPrefix(t, position) && Cut(t, position) == w.now
    requires w.core.row.done && w.core.row.gtid.Some? ==> begin == StreamFrom(w.core.row.gtid.value)
    requires w.core.row.start.Some? && !HasPosition(w.core.row) ==> begin == Scan(w.core.row)
    requires StartsAScan(w.core.row, true) ==> begin == Scan(WithScanStart(w.core.row, position, version, estimate))
    ensures Step(t, lim, w, l, w') && Stands(t, begin, w')
    ensures w'.core.row == if begin.Scan? then begin.row else w.core.row
  {
    if HasPosition(w.core.row) {
      l, w' := ResumeStream, w.(phase := Streaming(Low(t, w.core.row), []));
    } else if w.core.row.start.Some? {
      l, w' := ResumeScan, w.(phase := Scanning(w.core.row.cursor, false));
    } else {
      var row := WithScanStart(w.core.row, position, version, estimate);
      l := MarkScan(position, version, estimate);
      w' := w.(core := w.core.(row := row), phase := Scanning(w.core.row.cursor, false));
    }
  }

  /** Finishing a scan is the protocol's step, and it streams from the scan's start position. No version
    * is being reserved at the time: the reader has not started. */
  lemma FinishingIsAStep(t: Table, lim: Limits, w: World) returns (w': World)
    requires w.phase.Scanning? && w.phase.exhausted && Idle(w.core) && w.core.copy.None? && w.now <= |t.changes|
    ensures Step(t, lim, w, FinishScan, w')
    ensures w'.core.row == w.core.row.(done := true, rowsTotal := w.core.row.rowsDone)
    ensures w.core.row.gtid.None? && w.core.row.start.Some? ==>
            w'.phase == Streaming(Cut(t, w.core.row.start.value), [])
  {
    w' := w.(core := w.core.(row := w.core.row.(done := true, rowsTotal := w.core.row.rowsDone)),
             phase := Streaming(Low(t, w.core.row), []));
  }

  /** In every run, a scan that is under way has recorded where it began and no position since, so
    * finishing it always streams from there. */
  lemma ScansStreamFromTheirStart(t: Table, lim: Limits, ws: seq<World>, ls: seq<Label>, n: nat)
    requires IsRun(t, lim, ws, ls) && n < |ws| && ws[n].phase.Scanning?
    ensures ws[n].core.row.gtid.None? && ws[n].core.row.start.Some?
    ensures Low(t, ws[n].core.row) == Cut(t, ws[n].core.row.start.value)
  {
    Convergence.RunKeeps(t, lim, ws, ls, n);
  }
}
