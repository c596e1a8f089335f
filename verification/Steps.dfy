/** Every step keeps the invariant, for the row as it stands and for the row as a reservation under way
 * may yet rewrite it. */
module Steps {
  import opened Documents
  import opened Source
  import opened Checkpoints
  import opened Batching
  import opened Protocol
  import opened Invariant
  import opened Preservation
  import opened TakeSteps
  import opened BatchSteps
  import opened AckSteps
  import opened SystemSteps

  lemma CoreStepKeeps(t: Table, lim: Limits, w: World, l: Label, w': World)
    requires Inv(t, w) && (!w.phase.Down? || l.Network?)
    requires CoreStep(lim, w.core, l, w'.core) && w' == w.(core := w'.core)
    ensures Inv(t, w')
  {
    match l
    case Take => TakeKeeps(t, w, w');
    case AddDoc => AddDocShifts(lim, w, w'); ShiftKeeps(t, w, w');
    case FlushBatch => FlushShifts(lim, w, w'); ShiftKeeps(t, w, w');
    case Network(ds) => NetworkKeeps(t, lim, w, ds, w');
    case Refuse(d) => RefuseKeeps(t, lim, w, d, w');
    case Acknowledge => AckKeeps(t, w, w');
    case _ =>
  }

  lemma ScanStepKeeps(t: Table, lim: Limits, w: World, l: Label, w': World)
    requires Inv(t, w) && Step(t, lim, w, l, w')
    requires l.MarkScan? || l.ResumeScan? || l.ReadChunk? || l.FinishScan?
    ensures Inv(t, w')
  {
    match l
    case MarkScan(p, base, rows) => MarkScanKeeps(t, lim, p, base, rows, w, w');
    case ResumeScan => ResumeScanKeeps(t, lim, w, w');
    case ReadChunk(size, events) => ReadChunkKeeps(t, w, size, events, w');
    case FinishScan => FinishScanKeeps(t, lim, w, w');
  }

  lemma StreamStepKeeps(t: Table, lim: Limits, w: World, l: Label, w': World)
    requires Inv(t, w) && Step(t, lim, w, l, w') && (l.ResumeStream? || l.ReadChange? || l.Crash?)
    ensures Inv(t, w')
  {
    match l
    case ResumeStream => ResumeStreamKeeps(t, lim, w, w');
    case ReadChange(v, p, ms) => ReadChangeKeeps(t, w, v, p, ms, w');
    case Crash => CrashKeeps(t, lim, w, w');
  }

  lemma StepKeeps(t: Table, lim: Limits, w: World, l: Label, w': World)
    requires Inv(t, w) && Step(t, lim, w, l, w') && !l.Reserve?
    ensures Inv(t, w')
  {
    if l.MarkScan? || l.ResumeScan? || l.ReadChunk? || l.FinishScan? {
      ScanStepKeeps(t, lim, w, l, w');
    } else if l.Commit? {
      SameKeeps(t, w, w');
    } else if l.ResumeStream? || l.ReadChange? || l.Crash? {
      StreamStepKeeps(t, lim, w, l, w');
    } else {
      CoreStepKeeps(t, lim, w, l, w');
    }
  }

  // Reservations --------------------------------------------------------------------------------

  /** The world once the row is what the reservation loaded. */
  function WithCopy(w: World): World
    requires w.core.copy.Some?
  {
    w.(core := w.core.(row := w.core.copy.value, copy := None))
  }

  /** The rows are of one scan at one stage. */
  predicate SameStage(a: Checkpoint, b: Checkpoint) {
    a.start == b.start && a.base == b.base && a.done == b.done
  }

  ghost predicate CopyInv(t: Table, w: World) {
    w.core.copy.Some? ==> SameStage(w.core.copy.value, w.core.row) && Inv(t, WithCopy(w))
  }

  /** The invariant, and the invariant of what a reservation may make of the row. */
  ghost predicate Safe(t: Table, w: World) {
    Inv(t, w) && CopyInv(t, w)
  }

  /** The pipeline, the network and the readers do the same whichever row is stored. */
  predicate IgnoresRow(l: Label) {
    l.Take? || l.AddDoc? || l.FlushBatch? || l.Network? || l.Refuse? || l.Commit? || l.ReadChunk? || l.ReadChange?
  }

  lemma SameStepWithCopy(t: Table, lim: Limits, w: World, l: Label, w': World)
    requires w.now <= |t.changes| && Step(t, lim, w, l, w') && IgnoresRow(l)
    requires w.core.copy.Some? && SameStage(w.core.copy.value, w.core.row)
    ensures w'.core.row == w.core.row && w'.core.copy == w.core.copy
    ensures Step(t, lim, WithCopy(w), l, WithCopy(w'))
  {
  }

  lemma AckKeepsCopy(t: Table, w: World, w': World)
    requires CopyInv(t, w) && Ack(w, w')
    ensures CopyInv(t, w')
  {
    if w.core.copy.Some? {
      AckKeeps(t, WithCopy(w), WithCopy(w'));
    }
  }

  lemma PipelineKeepsCopy(t: Table, lim: Limits, w: World, l: Label, w': World)
    requires Inv(t, w) && w.core.copy.Some? && SameStage(w.core.copy.value, w.core.row) && Inv(t, WithCopy(w))
    requires Step(t, lim, w, l, w') && IgnoresRow(l)
    ensures CopyInv(t, w')
  {
    SameStepWithCopy(t, lim, w, l, w');
    StepKeeps(t, lim, WithCopy(w), l, WithCopy(w'));
  }

  lemma StepKeepsCopy(t: Table, lim: Limits, w: World, l: Label, w': World)
    requires Safe(t, w) && Step(t, lim, w, l, w') && !l.Reserve?
    ensures CopyInv(t, w')
  {
    if w.core.copy.Some? && IgnoresRow(l) {
      PipelineKeepsCopy(t, lim, w, l, w');
    } else if l.Acknowledge? {
      AckKeepsCopy(t, w, w');
    }
  }

  lemma StoredAs(t: Table, w: World, row: Checkpoint)
    requires Safe(t, w) && AsOneOf(row, w.core.row, w.core.copy)
    ensures Inv(t, w.(core := w.core.(row := row, copy := None))) && SameStage(row, w.core.row)
  {
    var w' := w.(core := w.core.(row := row, copy := None));
    if SameButReserved(row, w.core.row) {
      SameKeeps(t, w, w');
    } else {
      SameKeeps(t, WithCopy(w), w');
    }
  }

  lemma ReserveKeeps(t: Table, lim: Limits, w: World, row: Checkpoint, copy: Option<Checkpoint>, w': World)
    requires Safe(t, w) && Step(t, lim, w, Reserve(row, copy), w')
    ensures Inv(t, w')
  {
    StoredAs(t, w, row);
    SameKeeps(t, w.(core := w.core.(row := row, copy := None)), w');
  }

  lemma ReserveKeepsCopy(t: Table, lim: Limits, w: World, row: Checkpoint, copy: Option<Checkpoint>, w': World)
    requires Safe(t, w) && Step(t, lim, w, Reserve(row, copy), w')
    ensures CopyInv(t, w')
  {
    if copy.Some? {
      StoredAs(t, w, row);
      StoredAs(t, w, copy.value);
      assert WithCopy(w') == w.(core := w.core.(row := copy.value, copy := None));
    }
  }

  lemma StepKeepsSafe(t: Table, lim: Limits, w: World, l: Label, w': World)
    requires Safe(t, w) && Step(t, lim, w, l, w')
    ensures Safe(t, w')
  {
    if l.Reserve? {
      ReserveKeeps(t, lim, w, l.row, l.copy, w');
      ReserveKeepsCopy(t, lim, w, l.row, l.copy, w');
    } else {
      StepKeeps(t, lim, w, l, w');
      StepKeepsCopy(t, lim, w, l, w');
    }
  }
}
