/** Scanning a table in key order, a page at a time, while others change it. A key is its place in
 * the table's order. */
module Keyset {
  import opened Documents
  import opened Contexts

  ghost predicate InKeyOrder(ks: seq<real>) {
    forall i, j :: 0 <= i < j < |ks| ==> ks[i] < ks[j]
  }

  lemma {:induction false} LeastExists(s: set<real>, x: real) returns (k: real)
    requires x in s
    ensures k in s && forall j :: j in s ==> k <= j
    decreases s
  {
    if y :| y in s && y < x {
      k := LeastExists(s - {x}, y);
      assert forall j :: j in s ==> j == x || j in s - {x};
    } else {
      k := x;
    }
  }

  datatype Row = Row(key: real, body: Bytes)

  function RowKeys(rs: seq<Row>): (ks: seq<real>)
    ensures |ks| == |rs| && forall i :: 0 <= i < |rs| ==> ks[i] == rs[i].key
  {
    seq(|rs|, i requires 0 <= i < |rs| => rs[i].key)
  }

  function AllRows(rows: map<real, Bytes>): set<Row> { set k | k in rows :: Row(k, rows[k]) }

  /** A table that other sessions may change a limited number of times. For the statements below it
    * remembers every row it ever held and every key that never left. */
  class Table {
    var rows: map<real, Bytes>
    var changesLeft: nat
    var failures: nat // readings that failed
    ghost var everHeld: set<Row>
    ghost var neverLeft: set<real>

    ghost predicate Valid()
      reads this
    {
      neverLeft <= rows.Keys && AllRows(rows) <= everHeld
    }

    constructor (rows: map<real, Bytes>, changesLeft: nat)
      ensures Valid() && this.rows == rows && this.changesLeft == changesLeft && neverLeft == rows.Keys &&
              everHeld == AllRows(rows)
    {
      this.rows, this.changesLeft, failures := rows, changesLeft, 0;
      neverLeft, everHeld := rows.Keys, AllRows(rows);
    }

    /** Other sessions commit, or not. */
    method Interfere()
      requires Valid()
      modifies this`rows, this`changesLeft, this`everHeld, this`neverLeft
      ensures Valid() && neverLeft <= old(neverLeft) && old(everHeld) <= everHeld
      ensures changesLeft <= old(changesLeft)
      ensures changesLeft == old(changesLeft) ==>
                rows == old(rows) && neverLeft == old(neverLeft) && everHeld == old(everHeld)
    {
      var busy: bool := *;
      if busy && changesLeft > 0 {
        changesLeft := changesLeft - 1;
        rows := *;
        neverLeft := neverLeft * rows.Keys;
        everHeld := everHeld + AllRows(rows);
      }
    }

    /** One page: the rows with the least keys past the cursor, in order, up to a limit. */
    method Query(from: Option<real>, limit: nat) returns (page: seq<Row>)
      requires Valid()
      ensures IsPageOf(rows, from, limit, page)
    {
      page := [];
      ghost var keys: seq<real> := [];
      var rest := set k | k in rows && Past(from, k);
      while |page| < limit && rest != {}
        invariant |page| <= limit && RowKeys(page) == keys && InKeyOrder(keys)
        invariant forall i :: 0 <= i < |keys| ==> keys[i] in rows && Past(from, keys[i])
        invariant forall i :: 0 <= i < |page| ==> page[i].key in rows && page[i].body == rows[page[i].key]
        invariant forall i, k :: 0 <= i < |keys| && k in rest ==> keys[i] < k
        invariant forall k :: k in rest ==> k in rows && Past(from, k)
        invariant forall k :: k in rows && Past(from, k) ==> k in rest || k in keys
        decreases rest
      {
        var some :| some in rest;
        ghost var least := LeastExists(rest, some);
        var k :| k in rest && forall j :: j in rest ==> k <= j;
        page, keys := page + [Row(k, rows[k])], keys + [k];
        rest := rest - {k};
      }
    }

    /** Whether the next reading gets through. */
    method Reachable() returns (ok: bool)
      modifies this`failures
      ensures failures == old(failures) + if ok then 0 else 1
    {
      ok := *;
      if !ok {
        failures := failures + 1;
      }
    }

    /** A page as a scan gets it: others may commit before it is read and before it is sent. `moment`
      * is the table as it was read. */
    method ReadChunk(from: Option<real>, limit: nat) returns (page: seq<Row>, ghost moment: map<real, Bytes>)
      requires Valid()
      modifies this`rows, this`changesLeft, this`everHeld, this`neverLeft
      ensures Valid() && neverLeft <= old(neverLeft) && old(everHeld) <= everHeld
      ensures IsPageOf(moment, from, limit, page) && AllRows(moment) <= everHeld
      ensures CoversPage(neverLeft, from, limit, RowKeys(page))
      ensures changesLeft <= old(changesLeft)
      ensures changesLeft == old(changesLeft) ==>
                rows == old(rows) == moment && neverLeft == old(neverLeft) && everHeld == old(everHeld)
    {
      Interfere();
      page := Query(from, limit);
      moment := rows;
      Interfere();
      PageOfFewer(moment.Keys, neverLeft, from, limit, RowKeys(page));
    }
  }

  ghost predicate IsPage(keys: set<real>, from: Option<real>, limit: nat, page: seq<real>) {
    && |page| <= limit && InKeyOrder(page)
    && (forall i :: 0 <= i < |page| ==> page[i] in keys && Past(from, page[i]))
    && (forall k :: k in keys && Past(from, k) && (|page| < limit || (page != [] && k <= page[|page| - 1])) ==>
        k in page)
  }

  /** The rows of a page are the table's. */
  ghost predicate IsPageOf(rows: map<real, Bytes>, from: Option<real>, limit: nat, page: seq<Row>) {
    && IsPage(rows.Keys, from, limit, RowKeys(page))
    && forall i :: 0 <= i < |page| ==> page[i].key in rows && page[i].body == rows[page[i].key]
  }

  /** What a page promises about the keys of an older or smaller table. */
  ghost predicate CoversPage(keys: set<real>, from: Option<real>, limit: nat, page: seq<real>) {
    && |page| <= limit && InKeyOrder(page)
    && (forall i :: 0 <= i < |page| ==> Past(from, page[i]))
    && (forall k :: k in keys && Past(from, k) && (|page| < limit || (page != [] && k <= page[|page| - 1])) ==>
        k in page)
  }

  datatype Emitted = Emitted(key: real, body: Bytes, version: nat, cursor: Option<real>, rowsScanned: nat)

  function KeysOf(es: seq<Emitted>): (ks: seq<real>)
    ensures |ks| == |es| && forall i :: 0 <= i < |es| ==> ks[i] == es[i].key
  {
    seq(|es|, i requires 0 <= i < |es| => es[i].key)
  }

  /** The scan went upwards from a cursor without leaving out any key that was there throughout:
    * none at all if it finished, none up to the last one it reached otherwise. */
  ghost predicate Swept(from: Option<real>, keys: seq<real>, present: set<real>, finished: bool) {
    && InKeyOrder(keys)
    && (forall i :: 0 <= i < |keys| ==> Past(from, keys[i]))
    && (forall k :: k in present && Past(from, k) && (finished || (keys != [] && k <= keys[|keys| - 1])) ==> k in keys)
  }

  /** Every event carries a row the table held and the scan's version; the cursor is the event's own
    * key, with the number of rows sent so far. */
  ghost predicate EventOk(e: Emitted, i: nat, version: nat, held: set<Row>) {
    && Row(e.key, e.body) in held && e.version == version
    && (e.cursor.Some? ==> e.cursor.value == e.key && e.rowsScanned == i + 1)
  }

  ghost predicate EventsOk(es: seq<Emitted>, version: nat, held: set<Row>) {
    forall i :: 0 <= i < |es| ==> EventOk(es[i], i, version, held)
  }

  lemma PageOfFewer(keys: set<real>, fewer: set<real>, from: Option<real>, limit: nat, page: seq<real>)
    requires IsPage(keys, from, limit, page) && fewer <= keys
    ensures CoversPage(fewer, from, limit, page)
  {
  }

  function LastOr(ks: seq<real>, from: Option<real>): Option<real> {
    if ks == [] then from else Some(ks[|ks| - 1])
  }

  /** Sending the first rows of a page takes the sweep further. */
  lemma SweptFurther(from: Option<real>, a: seq<real>, present: set<real>, page: seq<real>, limit: nat, sent: nat)
    requires Swept(from, a, present, false)
    requires CoversPage(present, LastOr(a, from), limit, page) && sent <= |page|
    ensures Swept(from, a + page[..sent], present, sent == |page| < limit)
  {
    var all := a + page[..sent];
    forall k | k in present && Past(from, k) && (sent == |page| < limit || (all != [] && k <= all[|all| - 1]))
      ensures k in all
    {
      if a != [] && k <= a[|a| - 1] {
        assert k in a;
      } else {
        assert sent > 0 ==> all[|all| - 1] == page[sent - 1];
        assert k in page;
        var j :| 0 <= j < |page| && page[j] == k;
        assert page[..sent][j] == k;
      }
    }
  }

  function Remaining(keys: set<real>, from: Option<real>): set<real> {
    set k | k in keys && Past(from, k)
  }

  lemma SweptLess(from: Option<real>, keys: seq<real>, present: set<real>, fewer: set<real>)
    requires Swept(from, keys, present, false) && fewer <= present
    ensures Swept(from, keys, fewer, false)
  {
  }

  lemma RemainingShrinks(keys: set<real>, from: Option<real>, k: real)
    requires k in keys && Past(from, k)
    ensures Remaining(keys, Some(k)) < Remaining(keys, from)
  {
    assert k in Remaining(keys, from) && k !in Remaining(keys, Some(k));
  }

  /** A page as it is sent: the cursor and the count ride on its last row. */
  function SentPage(page: seq<Row>, version: nat, already: nat): (es: seq<Emitted>)
    ensures |es| == |page| && forall i :: 0 <= i < |page| ==> es[i] == SentRow(page, version, already, i)
  {
    seq(|page|, i requires 0 <= i < |page| => SentRow(page, version, already, i))
  }

  function SentRow(page: seq<Row>, version: nat, already: nat, i: nat): Emitted
    requires i < |page|
  {
    if i == |page| - 1 then Emitted(page[i].key, page[i].body, version, Some(page[i].key), already + |page|)
    else Emitted(page[i].key, page[i].body, version, None, 0)
  }

  lemma SentKeys(es: seq<Emitted>, page: seq<Row>, version: nat, already: nat, n: nat)
    requires n <= |page|
    ensures KeysOf(es + SentPage(page, version, already)[..n]) == KeysOf(es) + RowKeys(page)[..n]
  {
  }

  lemma SentIsOk(es: seq<Emitted>, page: seq<Row>, version: nat, held: set<Row>, n: nat)
    requires n <= |page| && EventsOk(es, version, held) && forall i :: 0 <= i < |page| ==> page[i] in held
    ensures EventsOk(es + SentPage(page, version, |es|)[..n], version, held)
  {
    var all := es + SentPage(page, version, |es|)[..n];
    forall i | 0 <= i < |all| ensures EventOk(all[i], i, version, held) {
      if i < |es| {
        assert EventOk(es[i], i, version, held);
      } else {
        assert all[i] == SentRow(page, version, |es|, i - |es|) && page[i - |es|] in held;
      }
    }
  }

  lemma PageRowsHeld(moment: map<real, Bytes>, from: Option<real>, limit: nat, page: seq<Row>, held: set<Row>)
    requires IsPageOf(moment, from, limit, page) && AllRows(moment) <= held
    ensures forall i :: 0 <= i < |page| ==> page[i] in held
  {
    forall i | 0 <= i < |page| ensures page[i] in held {
      assert page[i] == Row(page[i].key, moment[page[i].key]);
      assert page[i] in AllRows(moment);
    }
  }

  class Snapshotter {
    const table: Table
    const chunkSize: nat
    const base: nat
    const start: Option<real>
    const ctx: Context
    var rowsRead: nat
    var out: seq<Emitted>

    constructor (table: Table, chunkSize: nat, base: nat, start: Option<real>, ctx: Context)
      requires chunkSize >= 1 && base > 0
      ensures this.table == table && this.chunkSize == chunkSize && this.base == base && this.start == start
      ensures this.ctx == ctx && rowsRead == 0 && out == []
    {
      this.table, this.chunkSize, this.base, this.start, this.ctx := table, chunkSize, base, start, ctx;
      rowsRead, out := 0, [];
    }

    /** Sends a page. A cancelled scan stops part of the way. */
    method EmitChunk(page: seq<Row>) returns (ok: bool, ghost sent: nat)
      requires page != []
      modifies this, ctx
      ensures sent <= |page| && (ok <==> sent == |page|) && (!ok ==> ctx.done)
      ensures out == old(out) + SentPage(page, base, old(rowsRead))[..sent]
      ensures rowsRead == old(rowsRead) + if ok then |page| else 0
    {
      ghost var whole := SentPage(page, base, rowsRead);
      var rowsAfterChunk := rowsRead + |page|;
      assert out + whole[..0] == out;
      for i := 0 to |page|
        invariant rowsRead == old(rowsRead) && out == old(out) + whole[..i]
      {
        var cancelled := ctx.Done();
        if cancelled {
          return false, i;
        }
        var cursor, rows := None, 0;
        if i == |page| - 1 {
          cursor, rows := Some(page[i].key), rowsAfterChunk;
        }
        out := out + [Emitted(page[i].key, page[i].body, base, cursor, rows)];
        assert whole[..i + 1] == whole[..i] + [whole[i]];
      }
      rowsRead := rowsAfterChunk;
      ok, sent := true, |page|;
    }

    /** Sending a page takes the sweep to the page's last row, or as far as it got. */
    method SendChunk(page: seq<Row>) returns (ok: bool)
      requires page != [] && rowsRead == |out|
      requires EventsOk(out, base, table.everHeld) && forall i :: 0 <= i < |page| ==> page[i] in table.everHeld
      requires Swept(start, KeysOf(out), table.neverLeft, false)
      requires CoversPage(table.neverLeft, LastOr(KeysOf(out), start), chunkSize, RowKeys(page))
      modifies this, ctx
      ensures EventsOk(out, base, table.everHeld) && (!ok ==> ctx.done)
      ensures Swept(start, KeysOf(out), table.neverLeft, ok && |page| < chunkSize)
      ensures ok ==> rowsRead == |out| && LastOr(KeysOf(out), start) == Some(page[|page| - 1].key)
    {
      ghost var before, sent := out, 0;
      ok, sent := EmitChunk(page);
      SentKeys(before, page, base, |before|, sent);
      SentIsOk(before, page, base, table.everHeld, sent);
      SweptFurther(start, KeysOf(before), table.neverLeft, RowKeys(page), chunkSize, sent);
      assert ok ==> KeysOf(out)[|KeysOf(out)| - 1] == RowKeys(page)[|page| - 1];
    }

    /** Scans from the start cursor to the end of the table. It ends if others stop changing the
      * table, and when it ends well every key that never left was sent, once and in order. It ends
      * otherwise only if the caller cancels or a reading fails. */
    method Run() returns (ok: bool)
      requires table.Valid() && chunkSize >= 1 && rowsRead == 0 && out == []
      modifies this, table, ctx
      ensures table.Valid() && EventsOk(out, base, table.everHeld)
      ensures !ok ==> ctx.done || table.failures > old(table.failures)
      ensures Swept(start, KeysOf(out), table.neverLeft, ok)
      ensures old(table.changesLeft) == 0 ==>
                table.rows == old(table.rows) && table.neverLeft == old(table.neverLeft) &&
                table.everHeld == old(table.everHeld)
    {
      var cursor := start;
      while true
        invariant table.Valid() && rowsRead == |out| && cursor == LastOr(KeysOf(out), start)
        invariant EventsOk(out, base, table.everHeld)
        invariant Swept(start, KeysOf(out), table.neverLeft, false)
        invariant table.changesLeft <= old(table.changesLeft) && table.failures == old(table.failures)
        invariant table.changesLeft == old(table.changesLeft) ==>
                    table.rows == old(table.rows) && table.neverLeft == old(table.neverLeft) &&
                    table.everHeld == old(table.everHeld)
        decreases table.changesLeft, Remaining(table.rows.Keys, cursor)
      {
        ghost var keysThen, thenPresent, left, from := table.rows.Keys, table.neverLeft, table.changesLeft, cursor;
        var reachable := table.Reachable();
        if !reachable {
          return false;
        }
        var page;
        ghost var moment;
        page, moment := table.ReadChunk(cursor, chunkSize);
        PageRowsHeld(moment, cursor, chunkSize, page, table.everHeld);
        SweptLess(start, KeysOf(out), thenPresent, table.neverLeft);
        if |page| == 0 {
          SweptFurther(start, KeysOf(out), table.neverLeft, RowKeys(page), chunkSize, 0);
          assert KeysOf(out) + RowKeys(page)[..0] == KeysOf(out);
          return true;
        }
        ok := SendChunk(page);
        if !ok {
          return;
        }
        cursor := Some(page[|page| - 1].key);
        var cancelled := ctx.Done();
        if cancelled {
          return false;
        }
        if |page| < chunkSize {
          return true;
        }
        if table.changesLeft == left {
          RemainingShrinks(keysThen, from, page[|page| - 1].key);
        }
      }
    }
  }

  // What a sweep amounts to ---------------------------------------------------------------------

  /** Each key that never left is sent at exactly one place. */
  lemma SweptExactlyOnce(from: Option<real>, keys: seq<real>, present: set<real>, k: real)
    requires Swept(from, keys, present, true) && k in present && Past(from, k)
    ensures exists i :: 0 <= i < |keys| && keys[i] == k && forall j :: 0 <= j < |keys| && keys[j] == k ==> i == j
  {
    var i :| 0 <= i < |keys| && keys[i] == k;
    assert forall j :: 0 <= j < |keys| && keys[j] == k ==> i == j;
  }

  lemma WithoutLast(a: seq<real>, k: real)
    requires InKeyOrder(a) && a != []
    ensures k in a[..|a| - 1] <==> k in a && k != a[|a| - 1]
    ensures k in a ==> k <= a[|a| - 1]
  {
    var a' := a[..|a| - 1];
    assert a == a' + [a[|a| - 1]];
  }

  lemma {:induction false} AscendingUnique(a: seq<real>, b: seq<real>)
    requires InKeyOrder(a) && InKeyOrder(b) && forall k :: k in a <==> k in b
    ensures a == b
    decreases |a|
  {
    if a == [] {
      assert forall i :: 0 <= i < |b| ==> b[i] in a;
    } else {
      assert a[|a| - 1] in b && b[|b| - 1] in a;
      WithoutLast(a, b[|b| - 1]);
      WithoutLast(b, a[|a| - 1]);
      var a', b' := a[..|a| - 1], b[..|b| - 1];
      forall k ensures k in a' <==> k in b' {
        WithoutLast(a, k);
        WithoutLast(b, k);
      }
      AscendingUnique(a', b');
      assert a == a' + [a[|a| - 1]] && b == b' + [b[|b| - 1]];
    }
  }

  ghost predicate OnlyFrom(keys: seq<real>, table: set<real>) {
    forall i :: 0 <= i < |keys| ==> keys[i] in table
  }

  /** Of a table nobody changes, every finished scan sends the same keys in the same order, whatever
    * the chunk size. */
  lemma StaticScansAgree(from: Option<real>, table: set<real>, a: seq<real>, b: seq<real>)
    requires Swept(from, a, table, true) && OnlyFrom(a, table)
    requires Swept(from, b, table, true) && OnlyFrom(b, table)
    ensures a == b
    ensures forall k :: k in a <==> k in table && Past(from, k)
  {
    AscendingUnique(a, b);
  }

  /** Resumed from the cursor of any row it sent, it sends exactly the rows that were left. */
  lemma ResumedScanSendsTheRest(from: Option<real>, table: set<real>, a: seq<real>, i: nat, b: seq<real>)
    requires Swept(from, a, table, true) && OnlyFrom(a, table) && i < |a|
    requires Swept(Some(a[i]), b, table, true) && OnlyFrom(b, table)
    ensures b == a[i + 1..]
  {
    forall k ensures k in b <==> k in a[i + 1..] {
      if k in b {
        assert k in a;
        var j :| 0 <= j < |a| && a[j] == k;
        assert j > i && a[i + 1..][j - i - 1] == k;
      }
    }
    AscendingUnique(b, a[i + 1..]);
  }

  /** However a scan was interrupted, resuming it from the cursor of a row it sent completes the
    * sweep: every key present from beginning to end was sent before the cursor or after it, once. */
  lemma ResumedScanCompletes(from: Option<real>, a: seq<real>, earlier: set<real>, i: nat, b: seq<real>,
                             present: set<real>, finished: bool)
    requires Swept(from, a, earlier, false) && i < |a| && present <= earlier
    requires Swept(Some(a[i]), b, present, finished)
    ensures Swept(from, a[..i + 1] + b, present, finished)
  {
    var all := a[..i + 1] + b;
    forall k | k in present && Past(from, k) && (finished || k <= all[|all| - 1]) ensures k in all {
      if k <= a[i] {
        assert k in a;
        var j :| 0 <= j < |a| && a[j] == k;
        assert a[..i + 1][j] == k;
      } else {
        assert k in b;
      }
    }
  }
}
