/** Grouping documents into batches by row count and byte size. */
module Batching {
  import opened Documents

  datatype Limits = Limits(maxRows: nat, maxBytes: nat)

  predicate Usable(lim: Limits) { lim.maxRows >= 1 && lim.maxBytes >= 1 }

  function SizeOf(ds: seq<Doc>): nat {
    if ds == [] then 0 else SizeOf(ds[..|ds| - 1]) + ds[|ds| - 1].Size()
  }

  /** Adding one document: the batch it completes ([] for none) and what stays pending. */
  function Added(lim: Limits, pending: seq<Doc>, d: Doc): (seq<Doc>, seq<Doc>) {
    if d.Size() >= lim.maxBytes && pending != [] then
      (pending + [d], [])
    else if HoldsBack(lim, pending, d) then
      (pending, [d])
    else if |pending| + 1 >= lim.maxRows || SizeOf(pending) + d.Size() >= lim.maxBytes then
      (pending + [d], [])
    else
      ([], pending + [d])
  }

  /** The one case in which a completed batch leaves the document that completed it behind. */
  predicate HoldsBack(lim: Limits, pending: seq<Doc>, d: Doc) {
    pending != [] && d.Size() < lim.maxBytes && SizeOf(pending) + d.Size() > lim.maxBytes
  }

  /** What is true of the pending documents between calls. */
  predicate Below(lim: Limits, pending: seq<Doc>) {
    |pending| < lim.maxRows && SizeOf(pending) < lim.maxBytes
  }

  /** What is true of every batch handed over. */
  predicate FitsLimits(lim: Limits, batch: seq<Doc>) {
    && 1 <= |batch| <= lim.maxRows
    && (SizeOf(batch) <= lim.maxBytes || batch[|batch| - 1].Size() >= lim.maxBytes)
    && SizeOf(batch[..|batch| - 1]) < lim.maxBytes
  }

  datatype Call = Add(doc: Doc) | Flush

  datatype History = History(batches: seq<seq<Doc>>, pending: seq<Doc>)

  function Concat(batches: seq<seq<Doc>>): seq<Doc> {
    if batches == [] then [] else Concat(batches[..|batches| - 1]) + batches[|batches| - 1]
  }

  function Emit(h: History, batch: seq<Doc>, pending: seq<Doc>): History {
    History(if batch == [] then h.batches else h.batches + [batch], pending)
  }

  function Replay(lim: Limits, calls: seq<Call>): History {
    if calls == [] then History([], []) else
      var h := Replay(lim, calls[..|calls| - 1]);
      match calls[|calls| - 1]
      case Add(d) => var (batch, pending) := Added(lim, h.pending, d); Emit(h, batch, pending)
      case Flush => Emit(h, h.pending, [])
  }

  function Inputs(calls: seq<Call>): seq<Doc> {
    if calls == [] then [] else
      Inputs(calls[..|calls| - 1]) + (if calls[|calls| - 1].Add? then [calls[|calls| - 1].doc] else [])
  }

  lemma SizeOfOneMore(ds: seq<Doc>, d: Doc)
    ensures SizeOf(ds + [d]) == SizeOf(ds) + d.Size()
  {
    assert (ds + [d])[..|ds|] == ds;
  }

  lemma AddedKeepsLimits(lim: Limits, pending: seq<Doc>, d: Doc)
    requires Usable(lim) && Below(lim, pending)
    ensures var (batch, kept) := Added(lim, pending, d);
            && Below(lim, kept)
            && batch + kept == pending + [d]
            && (batch != [] ==> FitsLimits(lim, batch))
  {
    SizeOfOneMore(pending, d);
    assert (pending + [d])[..|pending|] == pending;
    SizeOfOneMore([], d);
    assert [] + [d] == [d];
    if HoldsBack(lim, pending, d) {
      assert pending == pending[..|pending| - 1] + [pending[|pending| - 1]];
    }
  }

  /** The batch is due: it is full by rows or bytes, or the next document would overflow it. */
  predicate IsDue(lim: Limits, batch: seq<Doc>, kept: seq<Doc>) {
    || |batch| >= lim.maxRows || SizeOf(batch) >= lim.maxBytes
    || (kept != [] && SizeOf(batch) + kept[0].Size() > lim.maxBytes)
  }

  /** All that is asked of adding a document: none is lost or moved, what stays is below both limits, a batch
    * fits them, and none is handed over before it is due. */
  ghost predicate AddsWell(lim: Limits, pending: seq<Doc>, d: Doc, batch: seq<Doc>, kept: seq<Doc>) {
    && batch + kept == pending + [d] && Below(lim, kept)
    && (batch != [] ==> FitsLimits(lim, batch) && IsDue(lim, batch, kept))
  }

  lemma {:induction false} PrefixIsSmaller(ds: seq<Doc>, n: nat)
    requires n <= |ds|
    ensures SizeOf(ds[..n]) <= SizeOf(ds)
  {
    if n < |ds| {
      PrefixIsSmaller(ds[..|ds| - 1], n);
      assert ds[..|ds| - 1][..n] == ds[..n];
    } else {
      assert ds[..n] == ds;
    }
  }

  lemma EarlyBatchIsNotDue(lim: Limits, pending: seq<Doc>, n: nat, kept: seq<Doc>)
    requires Below(lim, pending) && n < |pending| && kept != [] && kept[0] == pending[n]
    ensures !IsDue(lim, pending[..n], kept)
  {
    PrefixIsSmaller(pending, n);
    PrefixIsSmaller(pending, n + 1);
    assert pending[..n + 1] == pending[..n] + [pending[n]];
    SizeOfOneMore(pending[..n], pending[n]);
  }

  lemma AddedAddsWell(lim: Limits, pending: seq<Doc>, d: Doc)
    requires Usable(lim) && Below(lim, pending)
    ensures AddsWell(lim, pending, d, Added(lim, pending, d).0, Added(lim, pending, d).1)
  {
    AddedKeepsLimits(lim, pending, d);
    SizeOfOneMore(pending, d);
    SizeOfOneMore([], d);
    assert [] + [d] == [d];
  }

  /** A batch that adds well is nothing, what was pending, or that and the document. */
  lemma WellAddedIsOneOfThree(lim: Limits, pending: seq<Doc>, d: Doc, batch: seq<Doc>, kept: seq<Doc>)
    requires Below(lim, pending) && AddsWell(lim, pending, d, batch, kept)
    ensures (batch, kept) == ([], pending + [d]) || (batch, kept) == (pending, [d]) ||
            (batch, kept) == (pending + [d], [])
  {
    var n, all := |batch|, pending + [d];
    assert batch == all[..n] && kept == all[n..];
    if 0 < n < |pending| {
      assert all[..n] == pending[..n] && kept[0] == pending[n];
      EarlyBatchIsNotDue(lim, pending, n, kept);
    } else if n == |pending| {
      assert all[..n] == pending && all[n..] == [d];
    } else if n == |all| {
      assert all[..n] == all && kept == [];
    }
  }

  /** There is only one way to add well, and it is what `Added` does. */
  lemma AddedIsForced(lim: Limits, pending: seq<Doc>, d: Doc, batch: seq<Doc>, kept: seq<Doc>)
    requires Usable(lim) && Below(lim, pending)
    ensures AddsWell(lim, pending, d, batch, kept) <==> (batch, kept) == Added(lim, pending, d)
  {
    AddedAddsWell(lim, pending, d);
    if AddsWell(lim, pending, d, batch, kept) {
      WellAddedIsOneOfThree(lim, pending, d, batch, kept);
      SizeOfOneMore(pending, d);
      SizeOfOneMore([], d);
      assert [] + [d] == [d] && (pending + [d])[..|pending|] == pending;
    }
  }

  lemma EmitConcat(h: History, batch: seq<Doc>, pending: seq<Doc>)
    ensures Concat(Emit(h, batch, pending).batches) == Concat(h.batches) + batch
  {
    if batch != [] {
      assert (h.batches + [batch])[..|h.batches|] == h.batches;
    }
  }

  lemma PendingFits(lim: Limits, pending: seq<Doc>)
    requires Below(lim, pending) && pending != []
    ensures FitsLimits(lim, pending)
  {
    assert pending == pending[..|pending| - 1] + [pending[|pending| - 1]];
  }

  /** Every batch fits, what is pending is strictly below both limits, and batches followed by
    * pending are the inputs. */
  ghost predicate Faithful(lim: Limits, h: History, inputs: seq<Doc>) {
    && Concat(h.batches) + h.pending == inputs
    && Below(lim, h.pending)
    && forall b :: b in h.batches ==> FitsLimits(lim, b)
  }

  lemma EmitFits(lim: Limits, h: History, batch: seq<Doc>, kept: seq<Doc>)
    requires (forall b :: b in h.batches ==> FitsLimits(lim, b)) && (batch != [] ==> FitsLimits(lim, batch))
    ensures forall b :: b in Emit(h, batch, kept).batches ==> FitsLimits(lim, b)
  {
  }

  lemma OneCallStaysFaithful(lim: Limits, h: History, inputs: seq<Doc>, batch: seq<Doc>, kept: seq<Doc>, more: seq<Doc>)
    requires Faithful(lim, h, inputs)
    requires batch + kept == h.pending + more && Below(lim, kept) && (batch != [] ==> FitsLimits(lim, batch))
    ensures Faithful(lim, Emit(h, batch, kept), inputs + more)
  {
    EmitConcat(h, batch, kept);
    Grouped(Concat(h.batches), batch, kept);
    Grouped(Concat(h.batches), h.pending, more);
    EmitFits(lim, h, batch, kept);
  }

  /** For every history of calls: nothing is lost, duplicated or reordered, what is pending is
    * strictly below both limits, and every batch fits them unless its last document alone
    * reaches the byte limit. */
  lemma {:induction false} HistoryKeepsOrderAndLimits(lim: Limits, calls: seq<Call>)
    requires Usable(lim)
    ensures Faithful(lim, Replay(lim, calls), Inputs(calls))
  {
    if calls != [] {
      var h, inputs := Replay(lim, calls[..|calls| - 1]), Inputs(calls[..|calls| - 1]);
      HistoryKeepsOrderAndLimits(lim, calls[..|calls| - 1]);
      match calls[|calls| - 1]
      case Add(d) =>
        var (batch, kept) := Added(lim, h.pending, d);
        AddedKeepsLimits(lim, h.pending, d);
        OneCallStaysFaithful(lim, h, inputs, batch, kept, [d]);
      case Flush =>
        if h.pending != [] { PendingFits(lim, h.pending); }
        OneCallStaysFaithful(lim, h, inputs, h.pending, [], []);
    }
  }

  /** A document is left behind by the batch it triggers exactly when it overflows the byte
    * budget of a non-empty batch without reaching that budget alone. */
  lemma HeldBackExactlyOnOverflow(lim: Limits, pending: seq<Doc>, d: Doc)
    requires Usable(lim) && Below(lim, pending)
    ensures var (batch, kept) := Added(lim, pending, d);
            batch != [] && kept != [] <==> HoldsBack(lim, pending, d)
    ensures HoldsBack(lim, pending, d) ==> Added(lim, pending, d) == (pending, [d])
  {
  }

  /** The batcher itself. `startedAt` is the arrival time of the oldest pending document. */
  class Batcher {
    const limits: Limits
    const flushInterval: nat
    var pending: seq<Doc>
    var bytes: nat
    var startedAt: Option<int>

    ghost predicate Valid()
      reads this
    {
      && Usable(limits)
      && bytes == SizeOf(pending)
      && Below(limits, pending)
      && (startedAt.Some? <==> pending != [])
    }

    constructor (limits: Limits, flushInterval: nat)
      requires Usable(limits)
      ensures Valid() && pending == [] && this.limits == limits && this.flushInterval == flushInterval
    {
      this.limits, this.flushInterval := limits, flushInterval;
      pending, bytes, startedAt := [], 0, None;
    }

    method Add(d: Doc, now: int) returns (batch: seq<Doc>)
      requires Valid()
      modifies this
      ensures Valid()
      ensures (batch, pending) == Added(limits, old(pending), d)
      ensures pending != [] ==>
                startedAt == if batch == [] && old(pending) != [] then old(startedAt) else Some(now)
    {
      var size := d.Size();
      if size >= limits.maxBytes && |pending| > 0 {
        var flushed := FlushPending();
        Append(d, size, now);
        assert pending == [d];
        var rest := FlushPending();
        batch := flushed + rest;
        return;
      }
      if |pending| > 0 && bytes + size > limits.maxBytes {
        batch := FlushPending();
        Append(d, size, now);
        assert pending == [d];
        return;
      }
      Append(d, size, now);
      if |pending| >= limits.maxRows || bytes >= limits.maxBytes {
        batch := FlushPending();
        return;
      }
      batch := [];
    }

    /** Not Valid() on return: the caller flushes when a limit is reached. */
    method Append(d: Doc, size: nat, now: int)
      requires size == d.Size() && bytes == SizeOf(pending)
      modifies this
      ensures pending == old(pending) + [d] && bytes == SizeOf(pending) == old(bytes) + |d.key| + |d.body|
      ensures startedAt == if old(pending) == [] then Some(now) else old(startedAt)
    {
      SizeOfOneMore(pending, d);
      if |pending| == 0 {
        startedAt := Some(now);
      }
      pending := pending + [d];
      bytes := bytes + size;
    }

    method FlushPending() returns (batch: seq<Doc>)
      requires Usable(limits) && (pending == [] ==> bytes == 0 && startedAt.None?)
      modifies this
      ensures Valid()
      ensures batch == old(pending) && pending == []
    {
      if |pending| == 0 {
        return [];
      }
      batch := pending;
      pending, bytes, startedAt := [], 0, None;
    }

    /** The moment the pending documents are due, counted from the oldest of them. */
    method NextDeadline() returns (deadline: Option<int>)
      requires Valid()
      ensures deadline.Some? <==> pending != []
      ensures deadline.Some? ==> deadline.value == startedAt.value + flushInterval
    {
      if |pending| == 0 {
        return None;
      }
      return Some(startedAt.value + flushInterval);
    }
  }
}
