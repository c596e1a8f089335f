/** One stream's durable row and the store that keeps it. */
module Checkpoints {
  import opened Documents
  import opened Source

  const SCHEMA_VERSION: nat := 1

  /** An absent position or cursor is None. A cursor is a place in the table's scan order. */
  datatype Checkpoint = Checkpoint(
    gtid: Option<Position>,
    done: bool,
    start: Option<Position>,
    cursor: Option<real>,
    base: nat,
    rowsDone: nat,
    rowsTotal: nat,
    watermark: nat,
    lastEventMs: int,
    schemaVersion: nat)

  const BLANK := Checkpoint(None, false, None, None, 0, 0, 0, 0, 0, 0)

  /** The rows differ in nothing but what reserving versions writes. */
  predicate SameButReserved(a: Checkpoint, b: Checkpoint) {
    a == b.(watermark := a.watermark, schemaVersion := a.schemaVersion)
  }

  /** Others reserved versions, any number of times: each loads the row and later saves what it loaded
    * under a new watermark. The row is what it was or what a copy held, and so is a copy still held. */
  predicate OthersReserved(row: Checkpoint, copy: Option<Checkpoint>, row': Checkpoint, copy': Option<Checkpoint>) {
    AsOneOf(row', row, copy) && (copy'.Some? ==> AsOneOf(copy'.value, row, copy))
  }

  predicate AsOneOf(a: Checkpoint, row: Checkpoint, copy: Option<Checkpoint>) {
    SameButReserved(a, row) || (copy.Some? && SameButReserved(a, copy.value))
  }

  lemma ReservedTwice(row: Checkpoint, copy: Option<Checkpoint>, row': Checkpoint, copy': Option<Checkpoint>,
                      row'': Checkpoint, copy'': Option<Checkpoint>)
    requires OthersReserved(row, copy, row', copy') && OthersReserved(row', copy', row'', copy'')
    ensures OthersReserved(row, copy, row'', copy'') && OthersReserved(row, copy, row', copy'')
  {
  }

  /** The row a finished reservation saves: the one it loaded, under its watermark. */
  function Rewritten(row: Checkpoint, watermark: nat): Checkpoint {
    row.(watermark := watermark, schemaVersion := if row.schemaVersion == 0 then SCHEMA_VERSION else row.schemaVersion)
  }

  /** The store the protocol runs on: a row is replaced whole or not at all. `copies` are the rows that
    * reservations still under way have loaded. */
  class MemoryStore {
    var data: map<string, Checkpoint>
    var copies: map<string, Checkpoint>
    var failures: nat // loads and saves that were reported as failed

    constructor ()
      ensures data == map[] && copies == map[] && failures == 0
    {
      data, copies, failures := map[], map[], 0;
    }

    /** The stored row, blank until it is first saved. */
    function RowOf(stream: string): Checkpoint
      reads this
    {
      if stream in data then data[stream] else BLANK
    }

    method Load(stream: string) returns (ok: bool, cp: Option<Checkpoint>)
      modifies this`failures
      ensures failures == old(failures) + if ok then 0 else 1
      ensures cp == if ok && stream in data then Some(data[stream]) else None
    {
      ok := *;
      if !ok {
        failures := failures + 1;
        return false, None;
      }
      if stream in data {
        return true, Some(data[stream]);
      }
      return true, None;
    }

    function CopyOf(stream: string): Option<Checkpoint>
      reads this
    {
      if stream in copies then Some(copies[stream]) else None
    }

    /** Another writer of the row reserves versions: any number of loads and saves, not always in turn. */
    method OthersReserve(stream: string)
      modifies this`data, this`copies
      ensures OthersReserved(old(RowOf(stream)), old(CopyOf(stream)), RowOf(stream), CopyOf(stream))
      ensures data - {stream} == old(data) - {stream} && copies - {stream} == old(copies) - {stream}
    {
      var n: nat := *;
      while n > 0
        invariant OthersReserved(old(RowOf(stream)), old(CopyOf(stream)), RowOf(stream), CopyOf(stream))
        invariant data - {stream} == old(data) - {stream} && copies - {stream} == old(copies) - {stream}
      {
        var loads: bool, watermark: nat := *, *;
        if loads {
          copies := copies[stream := RowOf(stream)];
        } else if stream in copies {
          data := data[stream := Rewritten(copies[stream], watermark)];
          copies := copies - {stream};
        }
        n := n - 1;
      }
    }

    /** Another writer of the row records whatever it records. */
    method OthersRecord(stream: string)
      modifies this`data
      ensures data - {stream} == old(data) - {stream}
    {
      var n: nat := *;
      while n > 0
        invariant data - {stream} == old(data) - {stream}
      {
        var row: Checkpoint := *;
        data := data[stream := row];
        n := n - 1;
      }
    }

    /** A save that is reported as failed may have gone through. */
    method Save(stream: string, cp: Checkpoint) returns (ok: bool)
      modifies this`data, this`failures
      ensures failures == old(failures) + if ok then 0 else 1
      ensures data == old(data)[stream := cp] || (!ok && data == old(data))
    {
      var goesThrough: bool := *;
      ok := *;
      if ok || goesThrough {
        data := data[stream := cp];
      }
      if !ok {
        failures := failures + 1;
      }
    }
  }
}
