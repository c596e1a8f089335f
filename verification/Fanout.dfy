/** One log, one reader, many queues: what each stream's queue holds of the log. */
module Fanout {
  import opened Documents
  import opened Source
  import opened Binlog
  import opened Replay
  import opened Routing

  type TableOf = Image -> Option<string>

  /** A transaction's row changes as the router sees them. */
  function TxRouted(tx: Tx, tableOf: TableOf): (rs: seq<Routed>)
    ensures |rs| == |tx.Images()|
    ensures forall i :: 0 <= i < |rs| ==> rs[i] == Routed(tableOf(tx.Images()[i]), tx.id, tx.Images()[i])
  {
    seq(|tx.Images()|, i requires 0 <= i < |tx.Images()| => Routed(tableOf(tx.Images()[i]), tx.id, tx.Images()[i]))
  }

  /** The row changes of the first n transactions. */
  function LogRouted(log: seq<Tx>, tableOf: TableOf, n: nat): seq<Routed>
    requires n <= |log|
  {
    if n == 0 then [] else LogRouted(log, tableOf, n - 1) + TxRouted(log[n - 1], tableOf)
  }

  function RoutedImages(rs: seq<Routed>): (r: seq<Image>)
    ensures |r| == |rs| && forall i :: 0 <= i < |rs| ==> r[i] == rs[i].image
  {
    seq(|rs|, i requires 0 <= i < |rs| => rs[i].image)
  }

  function SentImages(out: seq<Tagged>): (r: seq<Image>)
    ensures |r| == |out| && forall i :: 0 <= i < |out| ==> r[i] == out[i].image
  {
    seq(|out|, i requires 0 <= i < |out| => out[i].image)
  }

  function Kept(p: Position, e: Routed): seq<Routed> { if e.tx !in p then [e] else [] }

  lemma {:induction false} BeyondConcat(p: Position, a: seq<Routed>, b: seq<Routed>)
    ensures Beyond(p, a + b) == Beyond(p, a) + Beyond(p, b)
  {
    if b == [] {
      assert a + b == a;
    } else {
      var front, e := b[..|b| - 1], b[|b| - 1];
      BeyondConcat(p, a, front);
      Snoc(a, b);
      BeyondOneMore(p, a + front, e);
      BeyondOneMore(p, front, e);
      Grouped(Beyond(p, a), Beyond(p, front), Kept(p, e));
    }
  }

  lemma {:induction false} BeyondOneTx(p: Position, rs: seq<Routed>, tx: TxId)
    requires forall i :: 0 <= i < |rs| ==> rs[i].tx == tx
    ensures Beyond(p, rs) == if tx in p then [] else rs
  {
    if rs != [] {
      BeyondOneTx(p, rs[..|rs| - 1], tx);
      assert rs == rs[..|rs| - 1] + [rs[|rs| - 1]];
    }
  }

  lemma ImagesConcat(a: seq<Routed>, b: seq<Routed>)
    ensures RoutedImages(a + b) == RoutedImages(a) + RoutedImages(b)
  {
  }

  lemma TxImages(tx: Tx, tableOf: TableOf, out: seq<Tagged>, p: Position)
    ensures SentImages(out + AllWith(tx.Images(), p)) == SentImages(out) + RoutedImages(TxRouted(tx, tableOf))
  {
  }

  lemma BeyondNext(log: seq<Tx>, start: Position, tableOf: TableOf, n: nat)
    requires 0 < n <= |log|
    ensures Beyond(start, LogRouted(log, tableOf, n)) ==
            Beyond(start, LogRouted(log, tableOf, n - 1)) +
            if log[n - 1].id in start then [] else TxRouted(log[n - 1], tableOf)
  {
    BeyondConcat(start, LogRouted(log, tableOf, n - 1), TxRouted(log[n - 1], tableOf));
    BeyondOneTx(start, TxRouted(log[n - 1], tableOf), log[n - 1].id);
  }

  /** The reader that starts at a position sends exactly the row changes beyond it, in order. */
  lemma {:induction false} ReaderSendsWhatIsBeyond(log: seq<Tx>, start: Position, tableOf: TableOf, n: nat)
    requires n <= |log|
    ensures SentImages(OnLog(log, start, n).out) == RoutedImages(Beyond(start, LogRouted(log, tableOf, n)))
  {
    if n > 0 {
      ReaderSendsWhatIsBeyond(log, start, tableOf, n - 1);
      BeyondNext(log, start, tableOf, n);
      TxSendsItsImages(OnLog(log, start, n - 1), log[n - 1], start, tableOf,
                       Beyond(start, LogRouted(log, tableOf, n - 1)));
    }
  }

  lemma TxSendsItsImages(s: Stream, tx: Tx, start: Position, tableOf: TableOf, sent: seq<Routed>)
    requires SentImages(s.out) == RoutedImages(sent)
    ensures SentImages(OnTx(s, tx, start).out) ==
            RoutedImages(sent + if tx.id in start then [] else TxRouted(tx, tableOf))
  {
    if tx.id in start {
      assert sent + [] == sent;
    } else {
      ImagesConcat(sent, TxRouted(tx, tableOf));
      TxImages(tx, tableOf, s.out, s.reader.executed);
    }
  }

  /** Once the router has passed on what a reader sent from the shared start, each stream's queue holds,
    * after what the stream has already seen, exactly its own table's row changes beyond its own
    * position: nothing is missed, added or reordered. */
  lemma QueueMissesNothing(
      router: Router, q: nat, start: Position, own: Position, log: seq<Tx>, tableOf: TableOf, n: nat)
    requires router.Valid() && router.Delivered() && q < |router.queues| && n <= |log| && start <= own
    requires router.events == Beyond(start, LogRouted(log, tableOf, n))
    ensures RoutedImages(router.events) == SentImages(OnLog(log, start, n).out)
    ensures Beyond(own, router.queues[q]) == Only(router.tables[q], Beyond(own, LogRouted(log, tableOf, n)))
  {
    ReaderSendsWhatIsBeyond(log, start, tableOf, n);
    NoStreamMissesAnEvent(router.tables[q], start, own, LogRouted(log, tableOf, n));
  }
}
