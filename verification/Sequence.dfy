/** Version numbers, reserved in blocks, within one process and across restarts. */
module Sequence {
  import opened Documents
  import opened Checkpoints
  import opened Source
  import opened Batching
  import opened Protocol

  const U64: nat := 0x1_0000_0000_0000_0000

  /** The clock in milliseconds, shifted left by ten bits in an unsigned 64-bit word. */
  function SeqFloor(ms: int): nat {
    if ms < 0 then 0 else (ms * 1024) % U64
  }

  /** The block in memory: `next` up to `end` may be handed out without another save. */
  datatype Memory = Memory(next: nat, end: nat)

  const FRESH := Memory(1, 0)

  function BlockStart(mem: Memory, watermark: nat, ms: int): nat {
    var stored := (watermark + 1) % U64;
    var floored := if SeqFloor(ms) > stored then SeqFloor(ms) else stored;
    if mem.end >= floored then (mem.end + 1) % U64 else floored
  }

  /** The last version of a block, or None when the word overflows. */
  function BlockEnd(start: nat, size: nat): Option<nat>
    requires 1 <= size < U64
  {
    var last := (start + size - 1) % U64;
    if last < start then None else Some(last)
  }

  /** One call: the version (None when the sequence space is exhausted), the block left in memory,
    * the stored watermark, and whether the row was saved. */
  datatype Drawn = Drawn(version: Option<nat>, mem: Memory, watermark: nat, saved: bool)

  function Draw(size: nat, mem: Memory, watermark: nat, ms: int): Drawn
    requires 1 <= size < U64
  {
    if mem.next <= mem.end then Drawn(Some(mem.next), mem.(next := mem.next + 1), watermark, false)
    else
      var start := BlockStart(mem, watermark, ms);
      match BlockEnd(start, size)
      case None => Drawn(None, mem, watermark, false)
      case Some(last) => Drawn(Some(start), Memory(start + 1, last), last, true)
  }

  /** The allocator over the store it shares with every other writer of the row. */
  class Allocator {
    const store: MemoryStore
    const stream: string
    const blockSize: nat
    var next: nat
    var end: nat
    /** How many times it has saved the row. */
    ghost var saves: nat

    ghost predicate Valid()
      reads this
    {
      blockSize >= 1 && blockSize < U64 && end < U64
    }

    ghost function Mem(): Memory
      reads this
    {
      Memory(next, end)
    }

    constructor (store: MemoryStore, stream: string, blockSize: nat)
      requires 1 <= blockSize < U64
      ensures Valid() && Mem() == FRESH && saves == 0
      ensures this.store == store && this.stream == stream && this.blockSize == blockSize
    {
      this.store, this.stream, this.blockSize := store, stream, blockSize;
      next, end, saves := 1, 0, 0;
    }

    /** The next version, as the specification draws it, or none if the store failed. Whatever history led to
      * the memory and the stored watermark, the call is its next draw. */
    method Next(ms: int) returns (version: Option<nat>)
      requires Valid()
      modifies this, store`data, store`failures
      ensures Valid()
      ensures old(next) <= old(end) ==>
                version == Some(old(next)) && next == old(next) + 1 && end == old(end) && store.data == old(store.data)
      ensures old(next) <= old(end) ==> saves == old(saves) && store.failures == old(store.failures)
      ensures version.None? ==> Mem() == old(Mem())
      ensures var drawn := Draw(blockSize, old(Mem()), old(store.RowOf(stream)).watermark, ms);
              && (store.failures == old(store.failures) ==> version == drawn.version)
              && (version.Some? ==> store.failures == old(store.failures) && Mem() == drawn.mem)
      ensures version.Some? ==> SameButReserved(store.RowOf(stream), old(store.RowOf(stream)))
      ensures forall s: Ledger ::
                version.Some? && s.mem == old(Mem()) && s.watermark == old(store.RowOf(stream)).watermark ==>
                  var after := Apply(blockSize, s, Act.Next(ms));
                  && after.mem == Mem() && after.watermark == store.RowOf(stream).watermark
                  && after.issued == s.issued + [version.value] && after.saves == s.saves + (saves - old(saves))
      ensures store.data - {stream} == old(store.data) - {stream}
    {
      if next > end {
        var reserved := Reserve(ms);
        if !reserved {
          return None;
        }
      }
      version := Some(next);
      next := next + 1;
    }

    /** Where the next block begins. */
    method FindStart(watermark: nat, ms: int) returns (start: nat)
      ensures start == BlockStart(Mem(), watermark, ms)
    {
      start := (watermark + 1) % U64;
      var floor := SeqFloor(ms);
      if floor > start {
        start := floor;
      }
      if end >= start {
        start := (end + 1) % U64;
      }
    }

    /** A new block: the row is saved with the block's last version as its watermark. It is loaded and saved
      * whole, so whatever others record in between is written over by the row as it was. When the store
      * fails, or says so of a save that went through, the block in memory stays. */
    method Reserve(ms: int) returns (ok: bool)
      requires Valid() && next > end
      modifies this, store`data, store`failures
      ensures Valid()
      ensures ok ==> next == BlockStart(old(Mem()), old(store.RowOf(stream)).watermark, ms)
      ensures ok ==> end == next + blockSize - 1 && saves == old(saves) + 1 && store.failures == old(store.failures)
      ensures ok ==> store.RowOf(stream).watermark == end
      ensures ok ==> SameButReserved(store.RowOf(stream), old(store.RowOf(stream)))
      ensures ok ==> old(store.RowOf(stream)).schemaVersion != 0 ==>
                store.RowOf(stream).schemaVersion == old(store.RowOf(stream)).schemaVersion
      ensures !ok ==> Mem() == old(Mem())
      ensures !ok && store.failures == old(store.failures) ==>
                saves == old(saves) && BlockEnd(BlockStart(old(Mem()), old(store.RowOf(stream)).watermark, ms),
                                                blockSize).None?
      ensures store.data - {stream} == old(store.data) - {stream}
    {
      var found;
      ok, found := store.Load(stream);
      if !ok {
        return;
      }
      store.OthersRecord(stream);
      var row := if found.None? then BLANK.(schemaVersion := SCHEMA_VERSION) else found.value;
      var start := FindStart(row.watermark, ms);
      var last := (start + blockSize - 1) % U64;
      if last < start {
        return false;
      }
      row := row.(watermark := last);
      if row.schemaVersion == 0 {
        row := row.(schemaVersion := SCHEMA_VERSION);
      }
      ok := store.Save(stream, row);
      saves := saves + 1;
      if !ok {
        return;
      }
      next, end := start, last;
    }
  }

  // What the numbers are ------------------------------------------------------------------------

  /** The clock's floor starts at nothing and leaves 1024 versions to every millisecond, for as long as the
    * word lasts. */
  lemma FloorIsSpaced(ms: nat)
    requires ms < 0x3F_FFFF_FFFF_FFFF
    ensures SeqFloor(0) == 0 && SeqFloor(-1) == 0 && SeqFloor(ms + 1) == SeqFloor(ms) + 1024
  {
  }

  /** Short of the top of the word, a block begins at the least version above the stored watermark, above
    * the block in memory and not below the clock's floor. */
  lemma BlockStartIsLeast(mem: Memory, watermark: nat, ms: int, v: nat)
    requires mem.end + 1 < U64 && watermark + 1 < U64
    ensures v >= BlockStart(mem, watermark, ms) <==> v > watermark && v > mem.end && v >= SeqFloor(ms)
  {
  }

  /** A block is as long as it should be, and there is none exactly when it would not fit the word. */
  lemma BlockIsFull(start: nat, size: nat)
    requires 1 <= size < U64 && start < U64
    ensures BlockEnd(start, size) == if start + size - 1 < U64 then Some(start + size - 1) else None
  {
  }

  // As steps of the protocol --------------------------------------------------------------------

  /** A reservation is two steps with any steps in between: it loads the row, and it saves what it loaded
    * under a new watermark, which may put a position recorded in between back. */
  lemma ReservingIsTwoSteps(t: Table, lim: Limits, w: World, later: World, watermark: nat)
    returns (loaded: World, saved: World)
    requires w.now <= |t.changes| && later.now <= |t.changes| && !w.phase.Down? && !later.phase.Down?
    requires later.core.copy == Some(w.core.row)
    ensures Step(t, lim, w, Label.Reserve(w.core.row, Some(w.core.row)), loaded) && loaded.core.copy == Some(w.core.row)
    ensures Step(t, lim, later, Label.Reserve(Rewritten(w.core.row, watermark), None), saved)
    ensures saved == later.(core := later.core.(row := Rewritten(w.core.row, watermark), copy := None))
  {
    loaded := w.(core := w.core.(copy := Some(w.core.row)));
    saved := later.(core := later.core.(row := Rewritten(w.core.row, watermark), copy := None));
  }

  // Histories -------------------------------------------------------------------------------------

  /** What can happen to one stream's versions: a draw, another writer storing a row with some
    * watermark of its own, or the process dying and starting again. */
  datatype Act = Next(ms: int) | Overwrite(watermark: nat) | Restart

  /** `saves` counts the row saves made for drawing since the last restart, `drawn` the draws. */
  datatype Ledger = Ledger(mem: Memory, watermark: nat, issued: seq<nat>, saves: nat, drawn: nat)

  const EMPTY_LEDGER := Ledger(FRESH, 0, [], 0, 0)

  function Apply(size: nat, s: Ledger, a: Act): Ledger
    requires 1 <= size < U64
  {
    match a
    case Overwrite(w) => s.(watermark := w)
    case Restart => s.(mem := FRESH, saves := 0, drawn := 0)
    case Next(ms) =>
      var d := Draw(size, s.mem, s.watermark, ms);
      match d.version
      case None => s
      case Some(v) =>
        Ledger(d.mem, d.watermark, s.issued + [v], s.saves + (if d.saved then 1 else 0), s.drawn + 1)
  }

  /** After the first n acts. */
  function Play(size: nat, acts: seq<Act>, n: nat): Ledger
    requires 1 <= size < U64 && n <= |acts|
  {
    if n == 0 then EMPTY_LEDGER else Apply(size, Play(size, acts, n - 1), acts[n - 1])
  }

  predicate Roomy(s: Ledger) { s.mem.end + 1 < U64 && s.watermark + 1 < U64 }

  /** Every counter stays below the top of the 64-bit word. */
  ghost predicate Headroom(size: nat, acts: seq<Act>)
    requires 1 <= size < U64
  {
    forall n :: 0 <= n <= |acts| ==> Roomy(Play(size, acts, n))
  }

  /** A draw that can only rise: the block in memory, the stored watermark or the clock is past
    * every version handed out before. */
  ghost predicate DrawsPast(s: Ledger, a: Act) {
    a.Next? && s.issued != [] && s.mem == FRESH ==>
      s.watermark >= s.issued[|s.issued| - 1] || SeqFloor(a.ms) > s.issued[|s.issued| - 1]
  }

  predicate Draws(size: nat, s: Ledger, a: Act)
    requires 1 <= size < U64
  {
    a.Next? && Draw(size, s.mem, s.watermark, a.ms).version.Some?
  }

  ghost predicate PastAt(size: nat, acts: seq<Act>, m: nat)
    requires 1 <= size < U64 && m < |acts|
  {
    Draws(size, Play(size, acts, m), acts[m]) ==> DrawsPast(Play(size, acts, m), acts[m])
  }

  ghost predicate AlwaysPast(size: nat, acts: seq<Act>, n: nat)
    requires 1 <= size < U64 && n <= |acts|
  {
    forall m {:trigger PastAt(size, acts, m)} :: 0 <= m < n ==> PastAt(size, acts, m)
  }

  /** Either nothing was drawn since the restart, or the last version drawn is the one before
    * `next`, inside the block. */
  ghost predicate Consistent(s: Ledger) {
    s.mem == FRESH || (s.issued != [] && s.mem.next == s.issued[|s.issued| - 1] + 1 && s.mem.next <= s.mem.end + 1)
  }

  lemma DrawStaysConsistent(size: nat, s: Ledger, a: Act)
    requires 1 <= size < U64 && Consistent(s) && Roomy(s)
    ensures Consistent(Apply(size, s, a))
  {
  }

  lemma RisingOneMore(vs: seq<nat>, v: nat)
    ensures Rising(vs + [v]) <==> Rising(vs) && (vs != [] ==> vs[|vs| - 1] < v)
  {
    var all := vs + [v];
    if Rising(all) {
      forall i, j | 0 <= i < j < |vs| ensures vs[i] < vs[j] {
        assert all[i] == vs[i] && all[j] == vs[j];
      }
      assert vs != [] ==> all[|vs| - 1] < all[|vs|];
    }
  }

  /** A drawn version is above the last one exactly when the draw can only rise. */
  lemma DrawIsAboveExactlyWhenPast(size: nat, s: Ledger, a: Act)
    requires 1 <= size < U64 && Consistent(s) && Roomy(s) && Draws(size, s, a) && s.issued != []
    ensures s.issued[|s.issued| - 1] < Draw(size, s.mem, s.watermark, a.ms).version.value <==> DrawsPast(s, a)
  {
  }

  lemma RisingNext(size: nat, s: Ledger, a: Act)
    requires 1 <= size < U64 && Consistent(s) && Roomy(s)
    ensures Rising(Apply(size, s, a).issued) <==> Rising(s.issued) && (Draws(size, s, a) ==> DrawsPast(s, a))
  {
    if Draws(size, s, a) {
      RisingOneMore(s.issued, Draw(size, s.mem, s.watermark, a.ms).version.value);
      if s.issued != [] {
        DrawIsAboveExactlyWhenPast(size, s, a);
      }
    }
  }

  lemma AlwaysPastNext(size: nat, acts: seq<Act>, n: nat)
    requires 1 <= size < U64 && 0 < n <= |acts|
    ensures AlwaysPast(size, acts, n) <==> AlwaysPast(size, acts, n - 1) && PastAt(size, acts, n - 1)
  {
  }

  /** The exact condition: over any number of restarts and with any other writer of the row, the
    * versions handed out strictly rise if and only if every first draw after a restart found the
    * stored watermark or the clock past all earlier versions. */
  lemma {:induction false} VersionsRiseExactlyWhenPast(size: nat, acts: seq<Act>, n: nat)
    requires 1 <= size < U64 && Headroom(size, acts) && n <= |acts|
    ensures Consistent(Play(size, acts, n))
    ensures Rising(Play(size, acts, n).issued) <==> AlwaysPast(size, acts, n)
  {
    if n > 0 {
      VersionsRiseExactlyWhenPast(size, acts, n - 1);
      var s := Play(size, acts, n - 1);
      assert Roomy(s);
      DrawStaysConsistent(size, s, acts[n - 1]);
      RisingNext(size, s, acts[n - 1]);
      AlwaysPastNext(size, acts, n);
    }
  }

  /** Within one process, versions rise whatever other writers store. */
  lemma VersionsRiseWithinAProcess(size: nat, acts: seq<Act>, n: nat)
    requires 1 <= size < U64 && Headroom(size, acts) && n <= |acts| && forall m :: 0 <= m < n ==> !acts[m].Restart?
    ensures Rising(Play(size, acts, n).issued)
  {
    forall m | 0 <= m < n ensures PastAt(size, acts, m) {
      FreshMeansNothingIssued(size, acts, m);
    }
    VersionsRiseExactlyWhenPast(size, acts, n);
  }

  lemma FreshStep(size: nat, l: Ledger, a: Act)
    requires 1 <= size < U64 && !a.Restart? && Roomy(l) && l.mem.next >= 1
    requires l.mem == FRESH ==> l.issued == []
    ensures Apply(size, l, a).mem.next >= 1
    ensures Apply(size, l, a).mem == FRESH ==> Apply(size, l, a).issued == []
  {
  }

  lemma {:induction false} FreshMeansNothingIssued(size: nat, acts: seq<Act>, n: nat)
    requires 1 <= size < U64 && Headroom(size, acts) && n <= |acts| && forall m :: 0 <= m < n ==> !acts[m].Restart?
    ensures Play(size, acts, n).mem.next >= 1
    ensures Play(size, acts, n).mem == FRESH ==> Play(size, acts, n).issued == []
  {
    if n > 0 {
      FreshMeansNothingIssued(size, acts, n - 1);
      assert Roomy(Play(size, acts, n - 1));
      FreshStep(size, Play(size, acts, n - 1), acts[n - 1]);
    }
  }

  /** No writer of the row lowers the watermark. */
  ghost predicate Preserved(size: nat, acts: seq<Act>)
    requires 1 <= size < U64
  {
    forall m :: 0 <= m < |acts| && acts[m].Overwrite? ==> acts[m].watermark >= Play(size, acts, m).watermark
  }

  /** Across any number of restarts, versions rise when other writers never lower the watermark. */
  lemma VersionsRiseWhenWatermarkIsPreserved(size: nat, acts: seq<Act>, n: nat)
    requires 1 <= size < U64 && Headroom(size, acts) && Preserved(size, acts) && n <= |acts|
    ensures Rising(Play(size, acts, n).issued)
  {
    forall m | 0 <= m < n ensures PastAt(size, acts, m) {
      PreservedWatermarkCovers(size, acts, m);
    }
    VersionsRiseExactlyWhenPast(size, acts, n);
  }

  /** The stored watermark is at or past everything handed out and the block in memory. */
  ghost predicate Covered(s: Ledger) {
    (s.issued != [] ==> s.issued[|s.issued| - 1] <= s.watermark) && s.mem.end <= s.watermark
  }

  lemma PreservedStepCovers(size: nat, s: Ledger, a: Act)
    requires 1 <= size < U64 && Covered(s) && (a.Overwrite? ==> a.watermark >= s.watermark)
    ensures Covered(Apply(size, s, a))
  {
  }

  lemma {:induction false} PreservedWatermarkCovers(size: nat, acts: seq<Act>, n: nat)
    requires 1 <= size < U64 && n <= |acts| && Preserved(size, acts)
    ensures Covered(Play(size, acts, n))
  {
    if n > 0 {
      PreservedWatermarkCovers(size, acts, n - 1);
      PreservedStepCovers(size, Play(size, acts, n - 1), acts[n - 1]);
    }
  }

  /** What the saves since the restart have paid for: every draw, and what is left of the block. */
  ghost predicate Paid(size: nat, s: Ledger) {
    var left := s.mem.end - s.mem.next + 1;
    && s.saves * size == s.drawn + left
    && (if s.drawn == 0 then s.saves == 0 && s.mem == FRESH else 0 <= left < size)
  }

  lemma DrawIsPaid(size: nat, s: Ledger, a: Act)
    requires 1 <= size < U64 && Paid(size, s)
    ensures Paid(size, Apply(size, s, a))
  {
    if a.Next? && Apply(size, s, a).saves == s.saves + 1 {
      BlockIsFull(BlockStart(s.mem, s.watermark, a.ms), size);
      assert (s.saves + 1) * size == s.saves * size + size;
    }
  }

  lemma {:induction false} SavesArePaid(size: nat, acts: seq<Act>, n: nat)
    requires 1 <= size < U64 && n <= |acts|
    ensures Paid(size, Play(size, acts, n))
  {
    if n > 0 {
      SavesArePaid(size, acts, n - 1);
      DrawIsPaid(size, Play(size, acts, n - 1), acts[n - 1]);
    }
  }

  /** One save a block: n draws in one process cost n divided by the block size, rounded up. */
  lemma OneSavePerBlock(size: nat, acts: seq<Act>, n: nat)
    requires 1 <= size < U64 && n <= |acts|
    ensures var s := Play(size, acts, n); s.drawn > 0 ==> (s.saves - 1) * size < s.drawn <= s.saves * size
  {
    SavesArePaid(size, acts, n);
    var s := Play(size, acts, n);
    assert (s.saves - 1) * size == s.saves * size - size;
  }

  /** Recording a scan's start saves a row loaded before its base version was drawn, which puts the
    * old watermark back. A restarted process then draws past the base if and only if the clock has
    * passed it. */
  lemma StaleScanStart(size: nat, watermark: nat, ms: int, later: int)
    requires 1 <= size < U64 && watermark + 1 < U64
    requires Draw(size, FRESH, watermark, ms).version.Some? && Draw(size, FRESH, watermark, later).version.Some?
    ensures var base := Draw(size, FRESH, watermark, ms).version.value;
            && watermark < base
            && (Draw(size, FRESH, watermark, later).version.value > base <==> SeqFloor(later) > base)
  {
  }

  /** Without the restart the same stale row does no harm: the block in memory is used up first. */
  lemma StaleScanStartWithoutRestart(size: nat, watermark: nat, ms: int, later: int)
    requires 2 <= size < U64 && Draw(size, FRESH, watermark, ms).version.Some? && BlockStart(FRESH, watermark, ms) >= 1
    ensures var first := Draw(size, FRESH, watermark, ms);
            Draw(size, first.mem, watermark, later).version == Some(first.version.value + 1)
  {
  }
}
