/** From positions to the protocol: a source sends the transactions a position lacks, and the
 * reader turns them into exactly the changes the position does not cover. */
module Replay {
  import opened Documents
  import opened Source
  import opened Batching
  import Protocol
  import opened Binlog
  import opened Flat

  /** `parts` are the images of each of its row events; `commits` is false for a transaction that
    * ends without a commit event, such as DDL. */
  datatype Tx = Tx(id: TxId, events: seq<RowsEvent>, parts: seq<seq<Image>>, commits: bool) {
    function Images(): seq<Image> { Flatten(parts, |parts|) }

    /** Part i holds the images of row event i. */
    predicate IsPart(i: nat)
      requires i < |parts| == |events|
    {
      parts[i] == Binlog.Images(events[i])
    }
  }

  /** What an image does to the table, and whether the mapping makes documents of it. */
  type Mapping = Image -> Effect

  ghost predicate TxOk(tx: Tx) {
    && |tx.parts| == |tx.events| && (forall i {:trigger tx.IsPart(i)} :: 0 <= i < |tx.parts| ==> tx.IsPart(i))
    && (tx.Images() != [] ==> tx.commits)
  }

  /** How many changes the first n transactions make. */
  function Before(log: seq<Tx>, n: nat): nat
    requires n <= |log|
  {
    if n == 0 then 0 else Before(log, n - 1) + |log[n - 1].Images()|
  }

  /** The table's changes are the images of the log's transactions, in order. */
  ghost predicate Describes(t: Table, log: seq<Tx>, apply: Mapping) {
    && |t.changes| == Before(log, |log|)
    && forall n, i :: 0 <= n < |log| && 0 <= i < |log[n].Images()| ==> ChangeIs(t, log, apply, n, i)
  }

  ghost predicate ChangeIs(t: Table, log: seq<Tx>, apply: Mapping, n: nat, i: nat)
    requires n < |log| && i < |log[n].Images()|
  {
    var j := Before(log, n) + i;
    j < |t.changes| && t.changes[j] == Change(log[n].id, apply(log[n].Images()[i]))
  }

  /** A reader in the middle of a stream, with everything it has emitted. */
  datatype Stream = Stream(reader: Reader, out: seq<Tagged>)

  function OnEvent(s: Stream, e: BinEvent): Stream {
    Stream(Observed(s.reader, e), s.out + AllWith(EventImages(e), s.reader.executed))
  }

  function OnRows(s: Stream, events: seq<RowsEvent>, n: nat): Stream
    requires n <= |events|
  {
    if n == 0 then s else OnEvent(OnRows(s, events, n - 1), Rows(events[n - 1]))
  }

  /** What a whole transaction amounts to: its images under the position before it, and then its
    * id in the position if it commits. */
  function Sent(s: Stream, tx: Tx): Stream {
    Stream(
      if tx.commits then Reader(s.reader.executed + {tx.id}, None) else s.reader.(current := Some(tx.id)),
      s.out + AllWith(tx.Images(), s.reader.executed))
  }

  /** A source sends a transaction only to a reader whose start position lacks it. */
  function OnTx(s: Stream, tx: Tx, start: Position): Stream {
    if tx.id in start then s else Sent(s, tx)
  }

  /** Streaming the first n transactions of the log to a reader that starts at a position. */
  function OnLog(log: seq<Tx>, start: Position, n: nat): Stream
    requires n <= |log|
  {
    if n == 0 then Stream(Reader(start, None), []) else OnTx(OnLog(log, start, n - 1), log[n - 1], start)
  }

  predicate SameTx(log: seq<Tx>, i: nat, j: nat)
    requires i < |log| && j < |log|
  {
    log[i].id == log[j].id
  }

  ghost predicate LogOk(log: seq<Tx>) {
    && (forall i, j {:trigger SameTx(log, i, j)} :: 0 <= i < |log| && 0 <= j < |log| && i != j ==> !SameTx(log, i, j))
    && (forall i {:trigger TxOk(log[i])} :: 0 <= i < |log| ==> TxOk(log[i]))
  }

  // Where each change comes from -----------------------------------------------------------------------

  lemma {:induction false} BeforeGrows(log: seq<Tx>, m: nat, n: nat)
    requires m <= n <= |log|
    ensures Before(log, m) <= Before(log, n)
    decreases n
  {
    if m < n {
      BeforeGrows(log, m, n - 1);
    }
  }

  /** The transaction a change belongs to. */
  lemma {:induction false} Origin(t: Table, log: seq<Tx>, apply: Mapping, n: nat, j: nat) returns (m: nat)
    requires Describes(t, log, apply) && n <= |log| && j < Before(log, n)
    ensures m < n && Before(log, m) <= j < Before(log, m + 1)
    ensures j < |t.changes| && t.changes[j].tx == log[m].id && log[m].Images() != []
  {
    if j < Before(log, n - 1) {
      m := Origin(t, log, apply, n - 1, j);
    } else {
      m := n - 1;
      assert ChangeIs(t, log, apply, m, j - Before(log, m));
    }
  }

  ghost predicate CommittedBefore(log: seq<Tx>, n: nat, id: TxId)
    requires n <= |log|
  {
    exists m :: 0 <= m < n && log[m].id == id && log[m].commits
  }

  lemma AllWithConcat(a: seq<Image>, b: seq<Image>, p: Position)
    ensures AllWith(a + b, p) == AllWith(a, p) + AllWith(b, p)
  {
  }

  lemma OnRowsOne(s: Stream, e: RowsEvent, part: seq<Image>)
    requires part == Images(e)
    ensures OnEvent(s, Rows(e)) == Stream(s.reader, s.out + AllWith(part, s.reader.executed))
  {
  }

  lemma RowsEmitNext(s: Stream, before: Stream, e: RowsEvent, sofar: seq<Image>, part: seq<Image>)
    requires before == Stream(s.reader, s.out + AllWith(sofar, s.reader.executed)) && part == Binlog.Images(e)
    ensures OnEvent(before, Rows(e)) == Stream(s.reader, s.out + AllWith(sofar + part, s.reader.executed))
  {
    OnRowsOne(before, e, part);
    AllWithConcat(sofar, part, s.reader.executed);
    Grouped(s.out, AllWith(sofar, s.reader.executed), AllWith(part, s.reader.executed));
  }

  /** Row events leave the reader's position alone and emit their images in order. */
  lemma {:induction false} RowsEmit(s: Stream, tx: Tx, n: nat)
    requires TxOk(tx) && n <= |tx.events|
    ensures OnRows(s, tx.events, n) == Stream(s.reader, s.out + AllWith(Flatten(tx.parts, n), s.reader.executed))
  {
    if n == 0 {
      assert AllWith([], s.reader.executed) == [];
      assert s.out + [] == s.out;
    } else {
      RowsEmit(s, tx, n - 1);
      assert tx.IsPart(n - 1);
      RowsEmitNext(s, OnRows(s, tx.events, n - 1), tx.events[n - 1], Flatten(tx.parts, n - 1), tx.parts[n - 1]);
    }
  }

  lemma NothingEmitted(s: Stream, e: BinEvent)
    requires !e.Rows?
    ensures OnEvent(s, e) == Stream(Observed(s.reader, e), s.out)
  {
    assert AllWith([], s.reader.executed) == [];
  }

  /** Reading a transaction event by event, from its id to its end, sends it. */
  lemma EventsSendTheTransaction(s: Stream, tx: Tx)
    requires TxOk(tx)
    ensures OnEvent(OnRows(OnEvent(s, Gtid(tx.id)), tx.events, |tx.events|), if tx.commits then Xid else Query) ==
            Sent(s, tx)
  {
    var begun := OnEvent(s, Gtid(tx.id));
    NothingEmitted(s, Gtid(tx.id));
    RowsEmit(begun, tx, |tx.events|);
    NothingEmitted(OnRows(begun, tx.events, |tx.events|), if tx.commits then Xid else Query);
  }

  lemma CommittedNext(log: seq<Tx>, n: nat, id: TxId)
    requires 0 < n <= |log|
    ensures CommittedBefore(log, n, id) <==>
            CommittedBefore(log, n - 1, id) || (log[n - 1].id == id && log[n - 1].commits)
  {
  }

  /** The reader's position once the first n transactions have been sent. */
  lemma {:induction false} ExecutedAfter(log: seq<Tx>, start: Position, n: nat, id: TxId)
    requires n <= |log|
    ensures id in OnLog(log, start, n).reader.executed <==> id in start || CommittedBefore(log, n, id)
  {
    if n > 0 {
      ExecutedAfter(log, start, n - 1, id);
      CommittedNext(log, n, id);
    }
  }

  lemma CommittedExactlyWhen(log: seq<Tx>, n: nat, m: nat)
    requires LogOk(log) && n <= |log| && m < |log| && log[m].Images() != []
    ensures CommittedBefore(log, n, log[m].id) <==> m < n
  {
    assert TxOk(log[m]);
    if k :| 0 <= k < n && log[k].id == log[m].id {
      assert SameTx(log, k, m);
    }
  }

  /** Change j is covered before transaction n is sent exactly when it comes earlier. */
  lemma CoveredBefore(t: Table, log: seq<Tx>, apply: Mapping, start: Position, n: nat, j: nat)
    requires LogOk(log) && Describes(t, log, apply) && n <= |log| && j < |t.changes|
    requires Cut(t, start) <= Before(log, n) && IsPrefix(t, start)
    ensures t.changes[j].tx in OnLog(log, start, n).reader.executed <==> j < Before(log, n)
  {
    var m := Origin(t, log, apply, |log|, j);
    CommittedExactlyWhen(log, n, m);
    ExecutedAfter(log, start, n, log[m].id);
    EarlierExactlyWhen(log, n, m, j);
  }

  lemma EarlierExactlyWhen(log: seq<Tx>, n: nat, m: nat, j: nat)
    requires n <= |log| && m < |log| && Before(log, m) <= j < Before(log, m + 1)
    ensures j < Before(log, n) <==> m < n
  {
    if m < n {
      BeforeGrows(log, m + 1, n);
    } else {
      BeforeGrows(log, n, m);
    }
  }

  /** While transaction n is being sent, the position covers exactly the changes before it. */
  lemma PositionCoversEarlier(t: Table, log: seq<Tx>, apply: Mapping, start: Position, n: nat)
    requires LogOk(log) && Describes(t, log, apply) && IsPrefix(t, start)
    requires n < |log| && log[n].Images() != [] && log[n].id !in start
    ensures Cut(t, start) <= Before(log, n) < |t.changes|
    ensures var p := OnLog(log, start, n).reader.executed;
            IsPrefix(t, p) && Cut(t, p) == Before(log, n)
  {
    var c, p := Before(log, n), OnLog(log, start, n).reader.executed;
    assert ChangeIs(t, log, apply, n, 0);
    assert t.changes[c].tx !in start;
    forall j | 0 <= j < |t.changes| ensures t.changes[j].tx in p <==> j < c {
      CoveredBefore(t, log, apply, start, n, j);
    }
  }

  /** What a reader starting at the position must have emitted once `upTo` changes were sent. */
  ghost predicate Replayed(t: Table, apply: Mapping, start: Position, out: seq<Tagged>, upTo: nat)
    requires upTo <= |t.changes|
  {
    && |out| == (if upTo > Cut(t, start) then upTo - Cut(t, start) else 0)
    && forall e :: 0 <= e < |out| ==> EmittedRight(t, apply, start, out, e)
  }

  /** Emission e is the e-th change after the start, under a position that ends at or before it. */
  ghost predicate EmittedRight(t: Table, apply: Mapping, start: Position, out: seq<Tagged>, e: nat)
    requires e < |out|
  {
    && Cut(t, start) + e < |t.changes|
    && t.changes[Cut(t, start) + e].effect == apply(out[e].image)
    && Protocol.CoveringPosition(t, out[e].gtid, Cut(t, start), Cut(t, start) + e)
  }

  /** The changes from `upTo` on are these images'. */
  ghost predicate WritesAre(t: Table, apply: Mapping, upTo: nat, images: seq<Image>) {
    && upTo + |images| <= |t.changes|
    && forall i :: 0 <= i < |images| ==> t.changes[upTo + i].effect == apply(images[i])
  }

  lemma AppendFaithful(t: Table, apply: Mapping, start: Position, out: seq<Tagged>, upTo: nat, images: seq<Image>,
                       p: Position)
    requires Cut(t, start) <= upTo && WritesAre(t, apply, upTo, images)
    requires Replayed(t, apply, start, out, upTo)
    requires IsPrefix(t, p) && Cut(t, start) <= Cut(t, p) <= upTo
    ensures Replayed(t, apply, start, out + AllWith(images, p), upTo + |images|)
  {
    var longer: seq<Tagged> := out + AllWith(images, p);
    forall e | 0 <= e < |longer| ensures EmittedRight(t, apply, start, longer, e) {
      if e < |out| {
        assert EmittedRight(t, apply, start, out, e);
      } else {
        assert t.changes[upTo + (e - |out|)].effect == apply(images[e - |out|]);
      }
    }
  }

  lemma TxFaithful(t: Table, apply: Mapping, start: Position, s: Stream, tx: Tx, upTo: nat)
    requires TxOk(tx) && tx.id !in start && WritesAre(t, apply, upTo, tx.Images())
    requires Replayed(t, apply, start, s.out, upTo)
    requires tx.Images() != [] ==>
               IsPrefix(t, s.reader.executed) && Cut(t, start) <= upTo && Cut(t, s.reader.executed) == upTo
    ensures Replayed(t, apply, start, OnTx(s, tx, start).out, upTo + |tx.Images()|)
  {
    if tx.Images() != [] {
      AppendFaithful(t, apply, start, s.out, upTo, tx.Images(), s.reader.executed);
    } else {
      assert AllWith([], s.reader.executed) == [];
      assert s.out + [] == s.out;
    }
  }

  /** A transaction the start position holds is not sent, and its changes are not owed. */
  lemma SkippedTx(t: Table, apply: Mapping, start: Position, out: seq<Tagged>, tx: Tx, upTo: nat)
    requires tx.id in start && upTo + |tx.Images()| <= |t.changes| && IsPrefix(t, start)
    requires Replayed(t, apply, start, out, upTo)
    requires tx.Images() != [] ==> t.changes[upTo + |tx.Images()| - 1].tx == tx.id
    ensures Replayed(t, apply, start, out, upTo + |tx.Images()|)
  {
  }

  ghost predicate NextAre(t: Table, apply: Mapping, tx: Tx, upTo: nat) {
    && upTo + |tx.Images()| <= |t.changes|
    && forall i :: 0 <= i < |tx.Images()| ==> t.changes[upTo + i] == Change(tx.id, apply(tx.Images()[i]))
  }

  lemma TxStep(t: Table, apply: Mapping, start: Position, s: Stream, tx: Tx, upTo: nat)
    requires TxOk(tx) && IsPrefix(t, start) && upTo <= |t.changes|
    requires Replayed(t, apply, start, s.out, upTo)
    requires tx.Images() != [] && tx.id !in start ==>
               IsPrefix(t, s.reader.executed) && Cut(t, start) <= upTo && Cut(t, s.reader.executed) == upTo
    requires NextAre(t, apply, tx, upTo)
    ensures Replayed(t, apply, start, OnTx(s, tx, start).out, upTo + |tx.Images()|)
  {
    if tx.id in start {
      if tx.Images() != [] {
        var last := |tx.Images()| - 1;
        assert t.changes[upTo + last] == Change(tx.id, apply(tx.Images()[last]));
      }
      SkippedTx(t, apply, start, s.out, tx, upTo);
    } else {
      assert WritesAre(t, apply, upTo, tx.Images());
      TxFaithful(t, apply, start, s, tx, upTo);
    }
  }

  lemma {:induction false} NextChanges(t: Table, log: seq<Tx>, apply: Mapping, n: nat)
    requires Describes(t, log, apply) && n < |log|
    ensures NextAre(t, apply, log[n], Before(log, n))
  {
    BeforeGrows(log, n + 1, |log|);
    forall i | 0 <= i < |log[n].Images()|
      ensures t.changes[Before(log, n) + i] == Change(log[n].id, apply(log[n].Images()[i]))
    {
      assert ChangeIs(t, log, apply, n, i);
    }
  }

  ghost predicate ReplayedAt(t: Table, log: seq<Tx>, apply: Mapping, start: Position, n: nat)
    requires n <= |log|
  {
    Before(log, n) <= |t.changes| && Replayed(t, apply, start, OnLog(log, start, n).out, Before(log, n))
  }

  lemma ReplayStep(t: Table, log: seq<Tx>, apply: Mapping, start: Position, n: nat)
    requires LogOk(log) && Describes(t, log, apply) && IsPrefix(t, start) && 0 < n <= |log|
    requires ReplayedAt(t, log, apply, start, n - 1)
    ensures ReplayedAt(t, log, apply, start, n)
  {
    NextChanges(t, log, apply, n - 1);
    if log[n - 1].Images() != [] && log[n - 1].id !in start {
      PositionCoversEarlier(t, log, apply, start, n - 1);
    }
    assert TxOk(log[n - 1]);
    TxStep(t, apply, start, OnLog(log, start, n - 1), log[n - 1], Before(log, n - 1));
  }

  /** Restarting from a position replays exactly the changes it does not cover, in order, each with
    * a position that covers a prefix ending at or before it: what the protocol's reading step
    * asks of its source. Transactions without row changes leave harmless gaps. */
  lemma {:induction false} ReplayIsFaithful(t: Table, log: seq<Tx>, apply: Mapping, start: Position, n: nat)
    requires LogOk(log) && Describes(t, log, apply) && IsPrefix(t, start) && n <= |log|
    ensures ReplayedAt(t, log, apply, start, n)
  {
    if n > 0 {
      ReplayIsFaithful(t, log, apply, start, n - 1);
      ReplayStep(t, log, apply, start, n);
    }
  }

  /** What a reader in mid-stream asks of its source: each emission, handed on under a version above
    * the scan's and all earlier ones, is the protocol's reading step. */
  lemma ReadingIsAStep(t: Table, lim: Limits, apply: Mapping, start: Position, out: seq<Tagged>, e: nat,
                       w: Protocol.World, v: nat, ms: int)
    returns (w': Protocol.World)
    requires e < |out| && EmittedRight(t, apply, start, out, e)
    requires w.now <= |t.changes| && w.phase.Streaming? && w.phase.from == Cut(t, start) && |w.phase.vers| == e
    requires w.phase.from + e < w.now && v > w.core.row.base && forall u :: u in w.issued ==> u < v
    ensures Protocol.Step(t, lim, w, Protocol.ReadChange(v, out[e].gtid, ms), w')
    ensures w'.core.queue == w.core.queue + [EventOf(apply, out[e], v, ms)]
    ensures w'.phase == Protocol.Streaming(w.phase.from, w.phase.vers + [v])
  {
    var i := w.phase.from + e;
    w' := w.(core := w.core.(queue := w.core.queue + [EventOf(apply, out[e], v, ms)]),
             phase := Protocol.Streaming(w.phase.from, w.phase.vers + [v]), issued := w.issued[v := i]);
  }

  /** An emission as the pipeline takes it. */
  function EventOf(apply: Mapping, p: Tagged, v: nat, ms: int): Protocol.Event {
    Protocol.Event(
      if apply(p.image).Unencoded? then None else Some(DocsFor(apply(p.image).writes, v)), Some(p.gtid), None, 0, ms, v)
  }

  /** So from wherever streaming starts, the reader's next emission is a step: it follows from the whole
    * log up to any point that has it. */
  lemma NextEmissionIsAStep(t: Table, log: seq<Tx>, lim: Limits, apply: Mapping, start: Position, n: nat,
                            w: Protocol.World, v: nat, ms: int)
    returns (w': Protocol.World)
    requires LogOk(log) && Describes(t, log, apply) && IsPrefix(t, start) && n <= |log|
    requires w.now <= |t.changes| && w.phase.Streaming? && w.phase.from == Cut(t, start)
    requires |w.phase.vers| < |OnLog(log, start, n).out| && w.phase.from + |w.phase.vers| < w.now
    requires v > w.core.row.base && forall u :: u in w.issued ==> u < v
    ensures Protocol.Step(t, lim, w, Protocol.ReadChange(v, OnLog(log, start, n).out[|w.phase.vers|].gtid, ms), w')
    ensures w'.core.queue == w.core.queue + [EventOf(apply, OnLog(log, start, n).out[|w.phase.vers|], v, ms)]
  {
    var out, e := OnLog(log, start, n).out, |w.phase.vers|;
    ReplayIsFaithful(t, log, apply, start, n);
    assert EmittedRight(t, apply, start, out, e);
    w' := ReadingIsAStep(t, lim, apply, start, out, e, w, v, ms);
  }

  /** Why row changes must end in a commit event: a transaction without one never enters a
    * position, so the position saved after a later transaction has a hole in it. */
  lemma UncommittedRowsLeaveAHole(t: Table, log: seq<Tx>, apply: Mapping, start: Position, m: nat, n: nat)
    requires Describes(t, log, apply) && m < n < |log|
    requires forall i, j {:trigger SameTx(log, i, j)} :: 0 <= i < |log| && 0 <= j < |log| && i != j ==>
             !SameTx(log, i, j)
    requires log[m].Images() != [] && !log[m].commits && log[m].id !in start
    requires log[n].Images() != [] && log[n].commits
    ensures !IsPrefix(t, OnLog(log, start, n + 1).reader.executed)
  {
    var p := OnLog(log, start, n + 1).reader.executed;
    ExecutedAfter(log, start, n + 1, log[m].id);
    ExecutedAfter(log, start, n + 1, log[n].id);
    assert CommittedBefore(log, n + 1, log[n].id);
    if k :| 0 <= k < n + 1 && log[k].id == log[m].id && log[k].commits {
      assert SameTx(log, k, m);
    }
    assert log[m].id !in p && log[n].id in p;
    BeforeGrows(log, m + 1, n);
    assert ChangeIs(t, log, apply, m, 0) && ChangeIs(t, log, apply, n, 0);
    assert t.changes[Before(log, m)].tx == log[m].id && t.changes[Before(log, n)].tx == log[n].id;
  }
}

/** Joining parts end to end. */
module Flat {
  function Flatten<T>(parts: seq<seq<T>>, n: nat): seq<T>
    requires n <= |parts|
  {
    if n == 0 then [] else Flatten(parts, n - 1) + parts[n - 1]
  }
}
