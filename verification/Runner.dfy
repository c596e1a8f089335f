/** Driving one stream: transform, batch, write, and only then record the position.
 *
 * Every method is proved to move the state only by steps of the protocol, so what holds over
 * every run of the protocol holds of this code. */
module Runners {
  import opened Documents
  import opened Source
  import opened Checkpoints
  import opened Batching
  import opened Protocol
  import opened Clusters
  import opened Sinks
  import opened BulkSink
  import opened Contexts
  import BulkText
  import opened Steps
  import Convergence

  // Sequences of pipeline steps -----------------------------------------------------------------

  /** A step of the pipeline, or another writer of the row reserving versions. */
  ghost predicate PathStep(lim: Limits, c: Core, l: Label, c': Core) {
    || CoreStep(lim, c, l, c')
    || (l.Reserve? && OthersReserved(c.row, c.copy, l.row, l.copy) && c' == c.(row := l.row, copy := l.copy))
  }

  ghost predicate PathStepAt(lim: Limits, cs: seq<Core>, ls: seq<Label>, i: nat)
    requires i < |ls| < |cs|
  {
    PathStep(lim, cs[i], ls[i], cs[i + 1])
  }

  ghost predicate IsPath(lim: Limits, cs: seq<Core>, ls: seq<Label>) {
    && |cs| == |ls| + 1
    && forall i {:trigger PathStepAt(lim, cs, ls, i)} :: 0 <= i < |ls| ==> PathStepAt(lim, cs, ls, i)
  }

  /** The pipeline's own steps lead from one state to the other. */
  ghost predicate Reaches(lim: Limits, c: Core, c': Core) {
    exists cs: seq<Core>, ls: seq<Label> :: IsPath(lim, cs, ls) && cs[0] == c && cs[|ls|] == c'
  }

  lemma ReachesItself(lim: Limits, c: Core)
    ensures Reaches(lim, c, c)
  {
    assert IsPath(lim, [c], []);
  }

  lemma ReachesNext(lim: Limits, a: Core, l: Label, b: Core)
    requires PathStep(lim, a, l, b)
    ensures Reaches(lim, a, b)
  {
    assert PathStepAt(lim, [a, b], [l], 0);
    assert IsPath(lim, [a, b], [l]);
  }

  lemma ReachesFurther(lim: Limits, a: Core, b: Core, c: Core)
    requires Reaches(lim, a, b) && Reaches(lim, b, c)
    ensures Reaches(lim, a, c)
  {
    var cs, ls :| IsPath(lim, cs, ls) && cs[0] == a && cs[|ls|] == b;
    var cs', ls' :| IsPath(lim, cs', ls') && cs'[0] == b && cs'[|ls'|] == c;
    PathsJoin(lim, cs, ls, cs', ls');
  }

  lemma PathsJoin(lim: Limits, cs: seq<Core>, ls: seq<Label>, cs': seq<Core>, ls': seq<Label>)
    requires IsPath(lim, cs, ls) && IsPath(lim, cs', ls') && cs'[0] == cs[|ls|]
    ensures var all, labels := cs + cs'[1..], ls + ls';
            IsPath(lim, all, labels) && all[0] == cs[0] && all[|labels|] == cs'[|ls'|]
  {
    var all, labels := cs + cs'[1..], ls + ls';
    forall i | 0 <= i < |labels| ensures PathStepAt(lim, all, labels, i) {
      if i < |ls| {
        FirstPathStep(lim, cs, ls, cs', ls', i);
      } else {
        SecondPathStep(lim, cs, ls, cs', ls', i - |ls|);
      }
    }
  }

  lemma FirstPathStep(lim: Limits, cs: seq<Core>, ls: seq<Label>, cs': seq<Core>, ls': seq<Label>, i: nat)
    requires |cs| == |ls| + 1 && |cs'| == |ls'| + 1 && i < |ls| && PathStepAt(lim, cs, ls, i)
    ensures PathStepAt(lim, cs + cs'[1..], ls + ls', i)
  {
  }

  lemma SecondPathStep(lim: Limits, cs: seq<Core>, ls: seq<Label>, cs': seq<Core>, ls': seq<Label>, i: nat)
    requires |cs| == |ls| + 1 && |cs'| == |ls'| + 1 && cs'[0] == cs[|ls|] && i < |ls'| && PathStepAt(lim, cs', ls', i)
    ensures PathStepAt(lim, cs + cs'[1..], ls + ls', |ls| + i)
  {
    var all := cs + cs'[1..];
    assert all[|ls| + i] == cs'[i] && all[|ls| + i + 1] == cs'[i + 1];
  }

  lemma PathTail(lim: Limits, cs: seq<Core>, ls: seq<Label>)
    requires IsPath(lim, cs, ls) && ls != []
    ensures IsPath(lim, cs[1..], ls[1..])
  {
    var cs', ls' := cs[1..], ls[1..];
    forall i | 0 <= i < |ls'| ensures PathStepAt(lim, cs', ls', i) {
      assert PathStepAt(lim, cs, ls, i + 1);
    }
  }

  lemma PathStepIsStep(t: Table, lim: Limits, w: World, l: Label, c: Core)
    requires w.now <= |t.changes| && !w.phase.Down? && PathStep(lim, w.core, l, c)
    ensures Step(t, lim, w, l, w.(core := c))
  {
  }

  function WithLate(cs: seq<Core>, late: seq<Event>): (r: seq<Core>)
    ensures |r| == |cs| && forall i :: 0 <= i < |cs| ==> r[i] == cs[i].(queue := cs[i].queue + late)
  {
    seq(|cs|, (i: int) requires 0 <= i < |cs| => cs[i].(queue := cs[i].queue + late))
  }

  /** Events that reach the queue later change nothing about the steps taken before: whatever a path
    * does with a queue, it does with a longer one. */
  lemma LateEventsChangeNothing(lim: Limits, c: Core, c': Core, late: seq<Event>)
    requires Reaches(lim, c, c')
    ensures Reaches(lim, c.(queue := c.queue + late), c'.(queue := c'.queue + late))
  {
    var cs, ls :| IsPath(lim, cs, ls) && cs[0] == c && cs[|ls|] == c';
    var longer := WithLate(cs, late);
    forall i | 0 <= i < |ls| ensures PathStepAt(lim, longer, ls, i) {
      assert PathStepAt(lim, cs, ls, i);
      LateEventsAllowStep(lim, cs[i], ls[i], cs[i + 1], late);
    }
    assert IsPath(lim, longer, ls);
  }

  lemma LateEventsAllowStep(lim: Limits, c: Core, l: Label, c': Core, late: seq<Event>)
    requires PathStep(lim, c, l, c')
    ensures PathStep(lim, c.(queue := c.queue + late), l, c'.(queue := c'.queue + late))
  {
    if l.Take? {
      assert (c.queue + late)[1..] == c.queue[1..] + late;
    }
  }

  /** Whatever the pipeline does from a world of a run is the rest of a run. */
  lemma {:induction false} PathExtendsRun(
      t: Table, lim: Limits, ws: seq<World>, ls: seq<Label>, cs: seq<Core>, more: seq<Label>)
    returns (ws': seq<World>, ls': seq<Label>)
    requires IsRun(t, lim, ws, ls) && !ws[|ls|].phase.Down? && ws[|ls|].now <= |t.changes|
    requires IsPath(lim, cs, more) && cs[0] == ws[|ls|].core
    ensures IsRun(t, lim, ws', ls') && |ls'| == |ls| + |more|
    ensures ws'[..|ws|] == ws && ws'[|ls'|] == ws[|ls|].(core := cs[|more|])
    decreases |more|
  {
    if more == [] {
      ws', ls' := ws, ls;
    } else {
      var w := ws[|ls|].(core := cs[1]);
      assert PathStepAt(lim, cs, more, 0);
      PathStepIsStep(t, lim, ws[|ls|], more[0], cs[1]);
      PathTail(lim, cs, more);
      OneMoreStep(t, lim, ws, ls, more[0], w);
      ws', ls' := PathExtendsRun(t, lim, ws + [w], ls + [more[0]], cs[1..], more[1..]);
      assert ws'[..|ws|] == ws'[..|ws| + 1][..|ws|];
    }
  }

  /** A runner started from a world of a run keeps everything that holds over runs. */
  lemma ReachedKeepsTheInvariant(t: Table, lim: Limits, ws: seq<World>, ls: seq<Label>, c: Core)
    requires IsRun(t, lim, ws, ls) && !ws[|ls|].phase.Down?
    requires Reaches(lim, ws[|ls|].core, c)
    ensures Safe(t, ws[|ls|].(core := c))
  {
    Convergence.RunKeeps(t, lim, ws, ls, |ls|);
    var cs, more :| IsPath(lim, cs, more) && cs[0] == ws[|ls|].core && cs[|more|] == c;
    var ws', ls' := PathExtendsRun(t, lim, ws, ls, cs, more);
    Convergence.RunKeeps(t, lim, ws', ls', |ls'|);
  }

  // The pipeline itself -------------------------------------------------------------------------

  /** A durable record of what cannot be delivered. Recording may fail part of the way. */
  class DeadLetterQueue {
    var letters: set<Letter>
    var failures: nat // recordings that were reported as failed

    constructor ()
      ensures letters == {} && failures == 0
    {
      letters, failures := {}, 0;
    }

    method Record(more: seq<Letter>) returns (ok: bool)
      modifies this
      ensures exists n :: 0 <= n <= |more| && (ok ==> n == |more|) && letters == old(letters) + Letters(more[..n])
      ensures failures == old(failures) + if ok then 0 else 1
    {
      assert more[..0] == [];
      assert letters == old(letters) + Letters(more[..0]);
      for n := 0 to |more|
        invariant letters == old(letters) + Letters(more[..n]) && failures == old(failures)
      {
        var failed: bool := *;
        if failed {
          failures := failures + 1;
          return false;
        }
        letters := letters + {more[n]};
        assert more[..n + 1] == more[..n] + [more[n]];
      }
      ok := true;
    }
  }

  function Letters(ls: seq<Letter>): set<Letter> { set l | l in ls }

  function RefusalLetters(rs: seq<Rejection>): (ls: seq<Letter>)
    ensures |ls| == |rs| && forall i :: 0 <= i < |rs| ==> ls[i] == Refused(rs[i].doc)
  {
    seq(|rs|, i requires 0 <= i < |rs| => Refused(rs[i].doc))
  }

  /** What stays pending after adding documents one by one. */
  function PendingAfter(lim: Limits, pending: seq<Doc>, docs: seq<Doc>): seq<Doc>
    decreases |docs|
  {
    if docs == [] then pending else PendingAfter(lim, Added(lim, pending, docs[0]).1, docs[1..])
  }

  lemma {:induction false} RefusingReaches(lim: Limits, c: Core, ls: seq<Letter>, n: nat)
    requires n <= |ls|
    requires forall i :: 0 <= i < n ==> ls[i].Refused? && ls[i].doc in c.inflight
    ensures Reaches(lim, c, c.(dead := c.dead + Letters(ls[..n])))
  {
    if n == 0 {
      assert c.dead + Letters(ls[..0]) == c.dead;
      ReachesItself(lim, c);
    } else {
      RefusingReaches(lim, c, ls, n - 1);
      var c' := c.(dead := c.dead + Letters(ls[..n - 1]));
      assert ls[..n] == ls[..n - 1] + [ls[n - 1]];
      assert c'.dead + {ls[n - 1]} == c.dead + Letters(ls[..n]);
      ReachesNext(lim, c', Refuse(ls[n - 1].doc), c.(dead := c.dead + Letters(ls[..n])));
      ReachesFurther(lim, c, c', c.(dead := c.dead + Letters(ls[..n])));
    }
  }

  lemma MovingReaches(lim: Limits, c: Core, sent: set<Doc>, dest: Dest)
    requires Moved(c.dest, sent, dest) && sent <= c.sent
    ensures Reaches(lim, c, c.(dest := dest))
  {
    var ds :| (forall d :: d in ds ==> d in sent) && dest == DeliverAll(c.dest, ds);
    ReachesNext(lim, c, Network(ds), c.(dest := dest));
  }

  lemma RejectedAreDocs(docs: seq<Doc>, r: Result, a: Account)
    requires Conserves(docs, r, a, [])
    ensures forall i :: 0 <= i < |r.rejected| ==> r.rejected[i].doc in docs
    ensures forall d :: d in docs ==> d in a.applied || d in a.stale || d in RejectedDocs(r.rejected)
    ensures |a.applied| == r.applied && |a.stale| == r.stale ==> r.Total() == |docs|
  {
    forall i | 0 <= i < |r.rejected| ensures r.rejected[i].doc in docs {
      assert RejectedDocs(r.rejected)[i] in multiset(RejectedDocs(r.rejected));
      assert r.rejected[i].doc in multiset(docs);
    }
    forall d | d in docs ensures d in a.applied || d in a.stale || d in RejectedDocs(r.rejected) {
      assert d in multiset(docs);
    }
    assert |multiset(docs)| == |docs| && |multiset(RejectedDocs(r.rejected))| == |r.rejected|;
  }

  /** What tells whether something went wrong outside the runner. */
  datatype Log = Log(sink: View, gaveUp: bool, unrecorded: nat, unsaved: nat)

  /** Nothing that was counted is forgotten. */
  predicate Grows(a: Log, b: Log) {
    && a.sink.final <= b.sink.final && a.sink.again <= b.sink.again
    && a.unrecorded <= b.unrecorded && a.unsaved <= b.unsaved
  }

  /** The grounds on which the pipeline may stop while handling these documents: one of them cannot be put
    * on the wire, the sink gave up on answers that were final or asked for too many retries or because
    * its caller stopped waiting, something had to be dead-lettered and could not be, or the store failed. */
  ghost predicate Trouble(maxAttempts: nat, hasDlq: bool, docs: set<Doc>, unusable: bool, a: Log, b: Log) {
    || (exists d :: d in docs && !BulkText.Sendable(d))
    || b.gaveUp || b.sink.final > a.sink.final || b.sink.again >= a.sink.again + maxAttempts
    || (!hasDlq && (unusable || SomeRefused(b.sink.posts, docs)))
    || b.unrecorded > a.unrecorded || b.unsaved > a.unsaved
  }

  /** An answer refused one of the documents. */
  ghost predicate SomeRefused(posts: seq<Exchange>, docs: set<Doc>) {
    exists r: Rejection :: r.doc in docs && RefusedBy(posts, r)
  }

  lemma TroubleWider(maxAttempts: nat, hasDlq: bool, docs: set<Doc>, docs': set<Doc>, unusable: bool, unusable': bool,
                     a: Log, a': Log, b: Log)
    requires Trouble(maxAttempts, hasDlq, docs, unusable, a', b) && docs <= docs' && (unusable ==> unusable') &&
             Grows(a, a')
    ensures Trouble(maxAttempts, hasDlq, docs', unusable', a, b)
  {
  }

  lemma MayFailIsTrouble(maxAttempts: nat, hasDlq: bool, batch: seq<Doc>, a: Log, b: Log)
    requires MayFail(batch, maxAttempts, b.gaveUp, a.sink, b.sink)
    ensures Trouble(maxAttempts, hasDlq, ToSet(batch), false, a, b)
  {
    if !BulkText.AllSendable(batch) {
      var i :| 0 <= i < |batch| && !BulkText.Sendable(batch[i]);
      assert batch[i] in ToSet(batch);
    }
  }

  lemma RefusalIsTrouble(posts: seq<Exchange>, docs: seq<Doc>, r: Result, a: Account)
    requires Backed(posts, r, a) && Conserves(docs, r, a, []) && r.rejected != []
    ensures SomeRefused(posts, ToSet(docs))
  {
    RejectedAreDocs(docs, r, a);
    assert RefusedBy(posts, r.rejected[0]) && r.rejected[0].doc in ToSet(docs);
  }

  lemma BatchIsOfPending(lim: Limits, pending: seq<Doc>, d: Doc)
    requires Usable(lim) && Below(lim, pending)
    ensures var (batch, kept) := Added(lim, pending, d);
            ToSet(batch) <= ToSet(pending) + {d} && ToSet(kept) <= ToSet(pending) + {d}
  {
    AddedKeepsLimits(lim, pending, d);
    var (batch, kept) := Added(lim, pending, d);
    assert forall e :: e in batch + kept ==> e in pending + [d];
    assert forall e :: e in batch || e in kept ==> e in batch + kept;
  }

  class Runner {
    const stream: string
    const sink: Sink
    const dlq: DeadLetterQueue
    const hasDlq: bool
    const store: MemoryStore
    const batcher: Batcher
    const ctx: Context
    var pendingGtid: Option<Position>
    var pendingEventMs: int
    var pendingCursor: Option<real>
    var pendingRows: nat
    /** Every document ever handed to the sink. */
    ghost var offered: set<Doc>

    ghost predicate Valid()
      reads this, batcher, sink.cluster
    {
      && batcher.Valid() && sink.maxAttempts >= 1
      && Keyed(sink.cluster.dest) && Reliable(sink.cluster.dest, sink.cluster.posts) && sink.cluster.sent <= offered
    }

    function CurrentMark(): Mark
      reads this
    {
      Mark(pendingGtid, pendingCursor, pendingRows, pendingEventMs)
    }

    function Row(): Checkpoint
      reads this, store
    {
      store.RowOf(stream)
    }

    /** The state as the protocol sees it, with what waits outside the runner's own fields. */
    ghost function State(queue: seq<Event>, todo: seq<Doc>, inflight: seq<Doc>): Core
      reads this, batcher, store, sink.cluster, dlq
    {
      Core(sink.cluster.dest, offered, dlq.letters, Row(), queue, todo, batcher.pending, inflight, CurrentMark(),
           store.CopyOf(stream))
    }

    ghost function Logged(): Log
      reads sink.cluster, dlq, store
    {
      Log(sink.Now(), sink.cluster.cancelled, dlq.failures, store.failures)
    }

    ghost predicate Stopped(docs: set<Doc>, unusable: bool, before: Log)
      reads sink.cluster, dlq, store
    {
      Trouble(sink.maxAttempts, hasDlq, docs, unusable, before, Logged())
    }

    constructor (stream: string, sink: Sink, dlq: DeadLetterQueue, hasDlq: bool, store: MemoryStore, limits: Limits,
                 flushInterval: nat, ctx: Context)
      requires Usable(limits) && sink.maxAttempts >= 1
      requires Keyed(sink.cluster.dest) && Reliable(sink.cluster.dest, sink.cluster.posts)
      ensures Valid() && fresh(batcher) && batcher.limits == limits && batcher.pending == []
      ensures this.stream == stream && this.sink == sink && this.dlq == dlq && this.hasDlq == hasDlq &&
              this.store == store && this.ctx == ctx
      ensures offered == sink.cluster.sent && CurrentMark() == NO_MARK
    {
      this.stream, this.sink, this.dlq, this.hasDlq, this.store, this.ctx := stream, sink, dlq, hasDlq, store, ctx;
      batcher := new Batcher(limits, flushInterval);
      pendingGtid, pendingEventMs, pendingCursor, pendingRows := None, 0, None, 0;
      offered := sink.cluster.sent;
    }

    /** Records refusals. Without a queue to record them in, refusals stop the stream. */
    method DeadLetter(letters: seq<Letter>) returns (ok: bool)
      modifies dlq
      ensures exists n :: && 0 <= n <= |letters| && (ok ==> n == |letters|)
                          && dlq.letters == old(dlq.letters) + Letters(letters[..n])
      ensures ok <==> hasDlq && dlq.failures == old(dlq.failures)
      ensures old(dlq.failures) <= dlq.failures
    {
      if !hasDlq {
        assert letters[..0] == [];
        return false;
      }
      ok := dlq.Record(letters);
    }

    /** The row with what the mark names. */
    method WithMark(row: Checkpoint) returns (cp: Checkpoint)
      requires pendingGtid.Some? || pendingCursor.Some?
      ensures cp == Recorded(row, CurrentMark())
    {
      cp := row;
      if pendingGtid.Some? {
        cp := cp.(gtid := pendingGtid);
      }
      if pendingCursor.Some? {
        cp := cp.(cursor := pendingCursor, rowsDone := pendingRows);
      }
      if pendingEventMs > 0 {
        cp := cp.(lastEventMs := pendingEventMs);
      }
      if cp.schemaVersion == 0 {
        cp := cp.(schemaVersion := SCHEMA_VERSION);
      }
    }

    /** Saves what the mark names and nothing else. The row is loaded and saved whole, so what others
      * reserve in between is written over, and a reservation that loaded the row before may write over it
      * later. `seen` is the row as loaded, or as it stands if it was not saved; a save may go through and
      * still be reported as failed. */
    method AdvancePosition() returns (ok: bool, ghost saved: bool, ghost seen: Checkpoint)
      modifies store
      ensures OthersReserved(old(Row()), old(store.CopyOf(stream)), seen, store.CopyOf(stream))
      ensures Row() == (if saved then Recorded(seen, CurrentMark()) else seen) && (ok ==> saved)
      ensures ok <==> store.failures == old(store.failures)
      ensures old(store.failures) <= store.failures
      ensures store.data - {stream} == old(store.data) - {stream}
      ensures pendingGtid.None? && pendingCursor.None? ==> ok && store.data == old(store.data)
    {
      saved := false;
      if pendingGtid.None? && pendingCursor.None? {
        return true, true, Row();
      }
      store.OthersReserve(stream);
      seen := Row();
      ghost var copy := store.CopyOf(stream);
      var found;
      ok, found := store.Load(stream);
      if !ok {
        return;
      }
      var cp := WithMark(if found.Some? then found.value else BLANK);
      store.OthersReserve(stream);
      ghost var row := Row();
      ReservedTwice(old(Row()), old(store.CopyOf(stream)), seen, copy, row, store.CopyOf(stream));
      ghost var rest := store.data;
      ok := store.Save(stream, cp);
      saved := ok || store.data == rest[stream := cp];
      seen := if saved then seen else row;
    }

    /** Dead-letters what the sink refused of a batch. */
    method DeadLetterRefusals(result: Result, ghost account: Account, ghost batch: seq<Doc>,
                              ghost queue: seq<Event>, ghost todo: seq<Doc>)
      returns (ok: bool)
      requires Valid() && Conserves(batch, result, account, [])
      modifies dlq
      ensures Valid()
      ensures Reaches(batcher.limits, old(State(queue, todo, batch)), State(queue, todo, batch))
      ensures ok ==> Letters(RefusalLetters(result.rejected)) <= dlq.letters && dlq.failures == old(dlq.failures)
      ensures !ok ==> result.rejected != [] && (!hasDlq || dlq.failures > old(dlq.failures))
      ensures old(dlq.failures) <= dlq.failures
    {
      ghost var before := State(queue, todo, batch);
      ok := true;
      if |result.rejected| == 0 {
        ReachesItself(batcher.limits, before);
        return;
      }
      RejectedAreDocs(batch, result, account);
      var letters := RefusalLetters(result.rejected);
      ok := DeadLetter(letters);
      ghost var n :| 0 <= n <= |letters| && (ok ==> n == |letters|) &&
                       dlq.letters == before.dead + Letters(letters[..n]);
      RefusingReaches(batcher.limits, before, letters, n);
      assert State(queue, todo, batch) == before.(dead := dlq.letters);
      assert ok ==> letters[..n] == letters;
    }

    /** Records the position of a settled batch. */
    method Acknowledge(ghost batch: seq<Doc>, ghost queue: seq<Event>, ghost todo: seq<Doc>)
      returns (ok: bool, ghost left: seq<Doc>, ghost seen: Checkpoint)
      requires Valid() && batch != [] && forall d :: d in batch ==> Settled(State(queue, todo, batch), d)
      modifies store
      ensures Valid() && (left == [] || left == batch) && (ok ==> left == [])
      ensures Reaches(batcher.limits, old(State(queue, todo, batch)), State(queue, todo, left))
      ensures OthersReserved(old(Row()), old(store.CopyOf(stream)), seen, store.CopyOf(stream))
      ensures Row() == if left == [] then Recorded(seen, CurrentMark()) else seen
      ensures ok <==> store.failures == old(store.failures)
      ensures old(store.failures) <= store.failures
    {
      ghost var lim, before := batcher.limits, State(queue, todo, batch);
      ghost var saved;
      ok, saved, seen := AdvancePosition();
      ghost var reserved := before.(row := seen, copy := store.CopyOf(stream));
      ReachesNext(lim, before, Reserve(seen, store.CopyOf(stream)), reserved);
      left := batch;
      if saved {
        left := [];
        assert State(queue, todo, []) == reserved.(inflight := [], row := Recorded(reserved.row, reserved.mark));
        ReachesNext(lim, reserved, Label.Acknowledge, State(queue, todo, []));
        ReachesFurther(lim, before, reserved, State(queue, todo, []));
      } else {
        assert reserved == State(queue, todo, batch);
      }
    }

    /** Writes a batch and, once every document of it is settled, records the position in the row as
      * others left it. `left` is what is still unsettled: nothing once the position is recorded. */
    method Write(batch: seq<Doc>, ghost queue: seq<Event>, ghost todo: seq<Doc>)
      returns (ok: bool, ghost left: seq<Doc>, ghost seen: Checkpoint)
      requires Valid() && batch != [] && ToSet(batch) <= offered
      modifies sink.cluster, dlq, store
      ensures Valid()
      ensures (left == [] || left == batch) && (ok ==> left == [])
      ensures Reaches(batcher.limits, old(State(queue, todo, batch)), State(queue, todo, left))
      ensures OthersReserved(old(Row()), old(store.CopyOf(stream)), seen, store.CopyOf(stream))
      ensures Row() == if left == [] then Recorded(seen, CurrentMark()) else seen
      ensures left == [] ==> forall d :: d in batch ==> Settled(State(queue, todo, left), d)
      ensures Grows(old(Logged()), Logged()) && (!ok ==> Stopped(ToSet(batch), false, old(Logged())))
    {
      ghost var lim, start := batcher.limits, State(queue, todo, batch);
      left, seen := batch, Row();
      var result, written;
      ghost var account;
      result, written, account := sink.Write(batch);
      ghost var moved := State(queue, todo, batch);
      assert moved == start.(dest := sink.cluster.dest);
      MovingReaches(lim, start, sink.cluster.sent, sink.cluster.dest);
      if !written {
        MayFailIsTrouble(sink.maxAttempts, hasDlq, batch, old(Logged()), Logged());
        return false, left, seen;
      }
      RejectedAreDocs(batch, result, account);
      if result.Total() != |batch| {
        assert false;
      }
      if result.rejected != [] {
        RefusalIsTrouble(sink.cluster.posts, batch, result, account);
      }
      ok := DeadLetterRefusals(result, account, batch, queue, todo);
      ghost var recorded := State(queue, todo, batch);
      ReachesFurther(lim, start, moved, recorded);
      if !ok {
        return;
      }
      AllSettled(recorded, sink.cluster.posts, batch, result, account);
      ok, left, seen := Acknowledge(batch, queue, todo);
      ReachesFurther(lim, start, recorded, State(queue, todo, left));
    }

    /** Writes whatever is pending. */
    method Flush(ghost queue: seq<Event>) returns (ok: bool, ghost left: seq<Doc>)
      requires Valid()
      modifies this`offered, batcher, sink.cluster, dlq, store
      ensures Valid() && batcher.pending == [] && (left == [] || left == old(batcher.pending)) && (ok ==> left == [])
      ensures Reaches(batcher.limits, old(State(queue, [], [])), State(queue, [], left))
      ensures old(batcher.pending) == [] ==> ok && State(queue, [], []) == old(State(queue, [], []))
      ensures old(batcher.pending) != [] && left == [] ==>
                exists seen :: && OthersReserved(old(Row()), old(store.CopyOf(stream)), seen, store.CopyOf(stream))
                               && Row() == Recorded(seen, CurrentMark())
      ensures Grows(old(Logged()), Logged()) && (!ok ==> Stopped(ToSet(old(batcher.pending)), false, old(Logged())))
    {
      ghost var lim := batcher.limits;
      ghost var start := State(queue, [], []);
      ReachesItself(lim, start);
      var batch := batcher.FlushPending();
      if |batch| == 0 {
        assert State(queue, [], []) == start;
        return true, [];
      }
      offered := offered + ToSet(batch);
      ghost var flushed := State(queue, [], batch);
      ReachesNext(lim, start, FlushBatch, flushed);
      ghost var seen;
      ok, left, seen := Write(batch, queue, []);
      ReachesFurther(lim, start, flushed, State(queue, [], left));
    }

    /** Adds one document and writes the batch it completes, if any. */
    method AddOne(d: Doc, now: int, ghost rest: seq<Event>, ghost todo: seq<Doc>) returns (ok: bool, ghost at: Core)
      requires Valid()
      modifies this`offered, batcher, sink.cluster, dlq, store
      ensures Valid() && batcher.pending == Added(batcher.limits, old(batcher.pending), d).1
      ensures at == State(rest, todo, at.inflight) && (ok ==> at.inflight == [])
      ensures Reaches(batcher.limits, old(State(rest, [d] + todo, [])), at)
      ensures Grows(old(Logged()), Logged())
      ensures !ok ==> Stopped(ToSet(old(batcher.pending)) + {d}, false, old(Logged()))
    {
      BatchIsOfPending(batcher.limits, batcher.pending, d);
      ghost var lim := batcher.limits;
      ghost var start := State(rest, [d] + todo, []);
      assert ([d] + todo)[1..] == todo;
      var batch := batcher.Add(d, now);
      offered := offered + ToSet(batch);
      at := State(rest, todo, batch);
      ReachesNext(lim, start, AddDoc, at);
      ok := true;
      if batch != [] {
        ghost var added, left, seen := at, [], Row();
        ok, left, seen := Write(batch, rest, todo);
        at := State(rest, todo, left);
        if !ok {
          TroubleWider(sink.maxAttempts, hasDlq, ToSet(batch), ToSet(old(batcher.pending)) + {d}, false, false,
                       old(Logged()), old(Logged()), Logged());
        }
        ReachesFurther(lim, start, added, at);
      }
    }

    /** Adds an event's documents in order. */
    method AddEach(docs: seq<Doc>, now: int, ghost rest: seq<Event>) returns (ok: bool, ghost at: Core)
      requires Valid()
      modifies this`offered, batcher, sink.cluster, dlq, store
      ensures Valid()
      ensures at == State(rest, at.todo, at.inflight)
      ensures Reaches(batcher.limits, old(State(rest, docs, [])), at)
      ensures ok ==> at.todo == [] && at.inflight == []
      ensures ok ==> batcher.pending == PendingAfter(batcher.limits, old(batcher.pending), docs)
      ensures Grows(old(Logged()), Logged()) && ToSet(batcher.pending) <= ToSet(old(batcher.pending)) + ToSet(docs)
      ensures !ok ==> Stopped(ToSet(old(batcher.pending)) + ToSet(docs), false, old(Logged()))
    {
      ghost var lim, all := batcher.limits, ToSet(batcher.pending) + ToSet(docs);
      at := State(rest, docs, []);
      ReachesItself(lim, at);
      assert docs[0..] == docs;
      for i := 0 to |docs|
        invariant Valid()
        invariant at == State(rest, docs[i..], []) && Reaches(lim, old(State(rest, docs, [])), at)
        invariant PendingAfter(lim, batcher.pending, docs[i..]) == PendingAfter(lim, old(batcher.pending), docs)
        invariant Grows(old(Logged()), Logged()) && ToSet(batcher.pending) <= all
      {
        ghost var before, logged, some := at, Logged(), ToSet(batcher.pending) + {docs[i]};
        BatchIsOfPending(lim, batcher.pending, docs[i]);
        assert [docs[i]] + docs[i + 1..] == docs[i..];
        ok, at := AddOne(docs[i], now, rest, docs[i + 1..]);
        ReachesFurther(lim, old(State(rest, docs, [])), before, at);
        if !ok {
          TroubleWider(sink.maxAttempts, hasDlq, some, all, false, false, old(Logged()), logged, Logged());
          return;
        }
      }
      ok := true;
    }

    /** An event the mapping cannot encode is dead-lettered; it moves neither mark nor position. */
    method Bury(e: Event, ghost rest: seq<Event>) returns (ok: bool, ghost at: Core)
      requires Valid() && e.docs.None?
      modifies dlq
      ensures Valid()
      ensures at == State(at.queue, [], [])
      ensures Reaches(batcher.limits, old(State([e] + rest, [], [])), at)
      ensures ok ==> at == State(rest, [], []) && dlq.letters == old(dlq.letters) + {Unusable(e.gtid, e.version)}
      ensures Grows(old(Logged()), Logged()) && (!ok ==> Stopped({}, true, old(Logged())))
    {
      ghost var start := State([e] + rest, [], []);
      at := start;
      ReachesItself(batcher.limits, start);
      assert ([e] + rest)[1..] == rest;
      var letters := [Unusable(e.gtid, e.version)];
      ok := DeadLetter(letters);
      assert letters[..0] == [] && letters[..1] == letters;
      if Unusable(e.gtid, e.version) in dlq.letters {
        at := State(rest, [], []);
        assert at == Taken(start);
        ReachesNext(batcher.limits, start, Take, at);
      }
    }

    /** Takes one event through. The mark moves before the documents are added, so a batch they
      * complete is recorded with this event's position and cursor. */
    method Handle(e: Event, now: int, ghost rest: seq<Event>) returns (ok: bool, ghost at: Core)
      requires Valid()
      modifies this`offered, this`pendingGtid, this`pendingEventMs, this`pendingCursor, this`pendingRows,
               batcher, sink.cluster, dlq, store
      ensures Valid()
      ensures at == State(at.queue, at.todo, at.inflight)
      ensures Reaches(batcher.limits, old(State([e] + rest, [], [])), at)
      ensures ok ==> at == State(rest, [], [])
      ensures CurrentMark() == if e.docs.Some? then NextMark(old(CurrentMark()), e) else old(CurrentMark())
      ensures e.docs.None? ==> batcher.pending == old(batcher.pending) && Row() == old(Row())
      ensures ok && e.docs.Some? ==> batcher.pending == PendingAfter(batcher.limits, old(batcher.pending), e.docs.value)
      ensures Grows(old(Logged()), Logged()) && ToSet(batcher.pending) <= ToSet(old(batcher.pending)) +
              ToSet(EventDocs(e))
      ensures !ok ==> Stopped(ToSet(old(batcher.pending)) + ToSet(EventDocs(e)), e.docs.None?, old(Logged()))
    {
      if e.docs.None? {
        ok, at := Bury(e, rest);
        if !ok {
          TroubleWider(sink.maxAttempts, hasDlq, {}, ToSet(batcher.pending) + ToSet(EventDocs(e)), true, true,
                       old(Logged()), old(Logged()), Logged());
        }
        return;
      }
      ghost var start := State([e] + rest, [], []);
      if e.gtid.Some? {
        pendingGtid := e.gtid;
      }
      if e.ms > pendingEventMs {
        pendingEventMs := e.ms;
      }
      if e.cursor.Some? {
        pendingCursor := e.cursor;
        pendingRows := e.rows;
      }
      ghost var taken := State(rest, e.docs.value, []);
      assert taken == Taken(start) by {
        assert ([e] + rest)[1..] == rest;
      }
      ReachesNext(batcher.limits, start, Take, taken);
      ok, at := AddEach(e.docs.value, now, rest);
      ReachesFurther(batcher.limits, start, taken, at);
    }

    /** On shutdown: one more try at what is pending. */
    method Drain(ghost queue: seq<Event>) returns (ghost left: seq<Doc>)
      requires Valid()
      modifies this`offered, batcher, sink.cluster, dlq, store
      ensures Valid() && batcher.pending == []
      ensures Reaches(batcher.limits, old(State(queue, [], [])), State(queue, [], left))
      ensures left == [] || left == old(batcher.pending)
      ensures Grows(old(Logged()), Logged())
      ensures left != [] ==> Stopped(ToSet(old(batcher.pending)), false, old(Logged()))
    {
      var _, rest := Flush(queue);
      left := rest;
    }

    /** `Flush` in the middle of a run that handles these documents and began when this was logged. */
    method FlushInRun(ghost queue: seq<Event>, ghost all: set<Doc>, ghost unusable: bool, ghost logged: Log)
      returns (ok: bool, ghost at: Core)
      requires Valid() && Grows(logged, Logged()) && ToSet(batcher.pending) <= all
      modifies this`offered, batcher, sink.cluster, dlq, store
      ensures Valid() && batcher.pending == []
      ensures at == State(queue, [], at.inflight) && (ok ==> at.inflight == [])
      ensures Reaches(batcher.limits, old(State(queue, [], [])), at)
      ensures Grows(logged, Logged()) && (!ok ==> Stopped(all, unusable, logged))
    {
      ghost var pending, sofar, left := ToSet(batcher.pending), Logged(), [];
      ok, left := Flush(queue);
      at := State(queue, [], left);
      if !ok {
        TroubleWider(sink.maxAttempts, hasDlq, pending, all, false, unusable, logged, sofar, Logged());
      }
    }

    /** And `Handle`. */
    method HandleInRun(e: Event, now: int, ghost rest: seq<Event>, ghost all: set<Doc>, ghost unusable: bool,
                       ghost logged: Log)
      returns (ok: bool, ghost at: Core)
      requires Valid() && Grows(logged, Logged()) && ToSet(batcher.pending) + ToSet(EventDocs(e)) <= all
      requires e.docs.None? ==> unusable
      modifies this`offered, this`pendingGtid, this`pendingEventMs, this`pendingCursor, this`pendingRows,
               batcher, sink.cluster, dlq, store
      ensures Valid() && ToSet(batcher.pending) <= all
      ensures at == State(at.queue, at.todo, at.inflight) && (ok ==> at == State(rest, [], []))
      ensures Reaches(batcher.limits, old(State([e] + rest, [], [])), at)
      ensures Grows(logged, Logged()) && (!ok ==> Stopped(all, unusable, logged))
    {
      ghost var docs, sofar := ToSet(batcher.pending) + ToSet(EventDocs(e)), Logged();
      ok, at := Handle(e, now, rest);
      if !ok {
        TroubleWider(sink.maxAttempts, hasDlq, docs, all, e.docs.None?, unusable, logged, sofar, Logged());
      }
    }

    /** Between two events others may reserve versions. */
    method Between(ghost queue: seq<Event>)
      requires Valid()
      modifies store`data, store`copies
      ensures Valid() && Logged() == old(Logged())
      ensures Reaches(batcher.limits, old(State(queue, [], [])), State(queue, [], []))
    {
      ghost var before := State(queue, [], []);
      store.OthersReserve(stream);
      ReachesNext(batcher.limits, before, Reserve(Row(), store.CopyOf(stream)), State(queue, [], []));
    }

    /** One turn of the loop, with what is left of the channel: the caller has cancelled, a deadline has come,
      * the channel is closed, or there is an event. */
    method TakeTurn(queue: seq<Event>, now: int, ghost all: set<Doc>, ghost unusable: bool, ghost logged: Log)
      returns (turn: Turn, ghost at: Core)
      requires Valid() && Grows(logged, Logged()) && ToSet(batcher.pending) <= all && AllDocs(queue) <= all
      requires HasUnencoded(queue) ==> unusable
      modifies this`offered, this`pendingGtid, this`pendingEventMs, this`pendingCursor, this`pendingRows,
               batcher, sink.cluster, dlq, store, ctx
      ensures Valid() && at == State(at.queue, at.todo, at.inflight)
      ensures Reaches(batcher.limits, old(State(queue, [], [])), at)
      ensures Grows(logged, Logged()) && ToSet(batcher.pending) <= all
      ensures turn == Failed ==> ctx.done || Stopped(all, unusable, logged)
      ensures turn == Finished ==> queue == [] && Idle(at)
      ensures turn == Flushed ==> at == State(queue, [], []) && old(batcher.pending) != [] && batcher.pending == []
      ensures turn == Took ==> queue != [] && at == State(queue[1..], [], [])
    {
      var deadline := batcher.NextDeadline();
      var due: bool := *;
      var cancelled := ctx.Done();
      if cancelled {
        ghost var left := Drain(queue);
        at := State(queue, [], left);
        return Failed, at;
      }
      var ok;
      if deadline.Some? && due {
        ok, at := FlushInRun(queue, all, unusable, logged);
        turn := if ok then Flushed else Failed;
      } else if |queue| == 0 {
        ok, at := FlushInRun(queue, all, unusable, logged);
        turn := if ok then Finished else Failed;
      } else {
        assert [queue[0]] + queue[1..] == queue;
        EventIsOneOfAll(queue, 0);
        ok, at := HandleInRun(queue[0], now, queue[1..], all, unusable, logged);
        turn := if ok then Took else Failed;
      }
    }

    /** Consumes the events of a channel until it closes. When it ends well, everything has gone through
      * and nothing is left behind; it ends otherwise only if the caller cancels or something outside it
      * went wrong. */
    method Run(events: seq<Event>) returns (ok: bool, ghost at: Core)
      requires Valid()
      modifies this`offered, this`pendingGtid, this`pendingEventMs, this`pendingCursor, this`pendingRows,
               batcher, sink.cluster, dlq, store, ctx
      ensures Valid()
      ensures at == State(at.queue, at.todo, at.inflight)
      ensures Reaches(batcher.limits, old(State(events, [], [])), at)
      ensures ok ==> Idle(at)
      ensures !ok ==> ctx.done ||
                      Stopped(ToSet(old(batcher.pending)) + AllDocs(events), HasUnencoded(events), old(Logged()))
    {
      ghost var lim, all, unusable := batcher.limits, ToSet(batcher.pending) + AllDocs(events), HasUnencoded(events);
      ghost var start, logged := State(events, [], []), Logged();
      at := start;
      ReachesItself(lim, start);
      var queue, clock := events, 0;
      while true
        invariant Valid() && at == State(queue, [], []) && Reaches(lim, start, at)
        invariant Grows(logged, Logged()) && ToSet(batcher.pending) <= all
        invariant AllDocs(queue) <= all && (HasUnencoded(queue) ==> unusable)
        decreases |queue|, |batcher.pending|
      {
        Between(queue);
        ghost var before := State(queue, [], []);
        ReachesFurther(lim, start, at, before);
        var later: int := *;
        clock := if later > clock then later else clock;
        var turn;
        turn, at := TakeTurn(queue, clock, all, unusable, logged);
        ReachesFurther(lim, start, before, at);
        if turn == Failed || turn == Finished {
          return turn == Finished, at;
        }
        if turn == Took {
          RestOfAll(queue);
          queue := queue[1..];
        }
      }
    }
  }

  /** How a turn of the loop ends. */
  datatype Turn = Took | Flushed | Finished | Failed

  lemma RestOfAll(events: seq<Event>)
    requires events != []
    ensures AllDocs(events[1..]) <= AllDocs(events) && (HasUnencoded(events[1..]) ==> HasUnencoded(events))
  {
    assert forall e :: e in events[1..] ==> e in events;
  }

  /** The documents of all the events. */
  function AllDocs(events: seq<Event>): set<Doc> { set e, d | e in events && d in EventDocs(e) :: d }

  lemma EventIsOneOfAll(events: seq<Event>, i: nat)
    requires i < |events|
    ensures ToSet(EventDocs(events[i])) <= AllDocs(events) && (events[i].docs.None? ==> HasUnencoded(events))
  {
    assert events[i] in events;
  }

  lemma AllSettled(c: Core, posts: seq<Exchange>, batch: seq<Doc>, r: Result, a: Account)
    requires Conserves(batch, r, a, []) && Backed(posts, r, a) && Reliable(c.dest, posts)
    requires Letters(RefusalLetters(r.rejected)) <= c.dead
    ensures forall d :: d in batch ==> Settled(c, d)
  {
    RejectedAreDocs(batch, r, a);
    forall d | d in batch ensures Settled(c, d) {
      if d in RejectedDocs(r.rejected) {
        var i :| 0 <= i < |r.rejected| && r.rejected[i].doc == d;
        assert RefusalLetters(r.rejected)[i] == Refused(d);
        assert Refused(d) in Letters(RefusalLetters(r.rejected));
      } else {
        BackedHolds(c.dest, posts, r, a, d);
      }
    }
  }
}
