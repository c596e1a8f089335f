/** Reading the replication stream: which position each row event carries, and why restarting
 * from such a position replays exactly what is missing. */
module Binlog {
  import opened Documents
  import opened Source

  /** A row image; what it holds does not matter here. */
  type Row = nat

  datatype Operation = Insert | Update | Delete

  /** One row change as it leaves the reader. */
  datatype Image = Image(operation: Operation, before: Option<Row>, after: Option<Row>)

  datatype RowsKind = WriteRows | UpdateRows | DeleteRows | UnknownRows

  datatype RowsEvent = RowsEvent(kind: RowsKind, watched: bool, rows: seq<Row>)

  datatype BinEvent = Gtid(id: TxId) | Xid | Query | Rows(event: RowsEvent) | Other

  datatype Emission = Emission(image: Image, gtid: Position, version: nat)

  /** The images of one rows event: updates come as before/after pairs. */
  function Images(e: RowsEvent): seq<Image> {
    if !e.watched || e.kind == UnknownRows then []
    else if e.kind == UpdateRows then Pairs(e.rows)
    else seq(|e.rows|, i requires 0 <= i < |e.rows| => Single(e.kind, e.rows[i]))
  }

  function Single(kind: RowsKind, row: Row): (r: Image)
    ensures kind == DeleteRows ==> r.operation == Delete && r.before == Some(row) && r.after == None
    ensures kind != DeleteRows ==> r.operation == Insert && r.before == None && r.after == Some(row)
  {
    if kind == DeleteRows then Image(Delete, Some(row), None) else Image(Insert, None, Some(row))
  }

  function Pairs(rows: seq<Row>): (r: seq<Image>)
    ensures |r| == |rows| / 2
    ensures forall i :: 0 <= i < |r| ==>
              r[i].operation == Update && r[i].before == Some(rows[2 * i]) && r[i].after == Some(rows[2 * i + 1])
  {
    seq(|rows| / 2, i requires 0 <= i < |rows| / 2 => Image(Update, Some(rows[2 * i]), Some(rows[2 * i + 1])))
  }

  /** What the images of an event are: an update's come from its rows two by two, the row before first; a
    * deletion's carry only the row before and an insertion's only the row after. */
  lemma ImagesAreTheRows(e: RowsEvent, i: nat)
    requires i < |Images(e)|
    ensures e.watched && e.kind != UnknownRows
    ensures e.kind == UpdateRows ==>
              2 * i + 1 < |e.rows| && Images(e)[i] == Image(Update, Some(e.rows[2 * i]), Some(e.rows[2 * i + 1]))
    ensures e.kind == DeleteRows ==> i < |e.rows| && Images(e)[i] == Image(Delete, Some(e.rows[i]), None)
    ensures e.kind == WriteRows ==> i < |e.rows| && Images(e)[i] == Image(Insert, None, Some(e.rows[i]))
    ensures |Images(e)| == if e.kind == UpdateRows then |e.rows| / 2 else |e.rows|
  {
  }

  /** A table as the rows it holds, however often. */
  type TableRows = multiset<Row>

  function Replaced(rows: TableRows, image: Image): TableRows {
    rows - (if image.before.Some? then multiset{image.before.value} else multiset{})
    + (if image.after.Some? then multiset{image.after.value} else multiset{})
  }

  function ReplacedAll(rows: TableRows, images: seq<Image>): TableRows {
    if images == [] then rows else Replaced(ReplacedAll(rows, images[..|images| - 1]), images[|images| - 1])
  }

  /** What the server did to the table: the rows of an insertion came, those of a deletion went, and of an
    * update's rows each second one took the place of the one before it, in that order. */
  function ServerDid(rows: TableRows, kind: RowsKind, changed: seq<Row>): TableRows
    decreases |changed|
  {
    if kind == UpdateRows then
      if |changed| < 2 then rows
      else ServerDid(rows - multiset{changed[0]} + multiset{changed[1]}, kind, changed[2..])
    else if changed == [] then rows
    else ServerDid(if kind == DeleteRows then rows - multiset{changed[0]} else rows + multiset{changed[0]}, kind,
                   changed[1..])
  }

  lemma {:induction false} ReplacedFirst(rows: TableRows, image: Image, images: seq<Image>)
    ensures ReplacedAll(rows, [image] + images) == ReplacedAll(Replaced(rows, image), images)
  {
    var all := [image] + images;
    if images == [] {
      assert all[..0] == [] && all[0] == image;
    } else {
      assert all[..|all| - 1] == [image] + images[..|images| - 1];
      ReplacedFirst(rows, image, images[..|images| - 1]);
    }
  }

  lemma NextPair(rows: seq<Row>, i: nat)
    requires |rows| >= 2 && i < |Pairs(rows[2..])|
    ensures i + 1 < |Pairs(rows)| && Pairs(rows[2..])[i] == Pairs(rows)[i + 1]
  {
    var rest := rows[2..];
    assert rest[2 * i] == rows[2 * (i + 1)] && rest[2 * i + 1] == rows[2 * (i + 1) + 1];
    assert Pairs(rest)[i] == Image(Update, Some(rest[2 * i]), Some(rest[2 * i + 1]));
    assert Pairs(rows)[i + 1] == Image(Update, Some(rows[2 * (i + 1)]), Some(rows[2 * (i + 1) + 1]));
  }

  lemma PairsSplit(rows: seq<Row>)
    requires |rows| >= 2
    ensures Pairs(rows) != [] && Pairs(rows) == [Pairs(rows)[0]] + Pairs(rows[2..])
  {
    forall i | 0 <= i < |Pairs(rows[2..])| ensures Pairs(rows[2..])[i] == Pairs(rows)[i + 1] {
      NextPair(rows, i);
    }
  }

  lemma ImagesSplit(e: RowsEvent, n: nat)
    requires e.watched && e.kind != UnknownRows && n == (if e.kind == UpdateRows then 2 else 1) && |e.rows| >= n
    ensures Images(e) != [] && Images(e) == [Images(e)[0]] + Images(e.(rows := e.rows[n..]))
  {
    if e.kind == UpdateRows {
      PairsSplit(e.rows);
    }
  }

  lemma ServerDidFirst(rows: TableRows, e: RowsEvent, n: nat)
    requires e.watched && e.kind != UnknownRows && n == (if e.kind == UpdateRows then 2 else 1) && |e.rows| >= n
    ensures Images(e) != []
    ensures ServerDid(rows, e.kind, e.rows) == ServerDid(Replaced(rows, Images(e)[0]), e.kind, e.rows[n..])
  {
    ImagesSplit(e, n);
    ImagesAreTheRows(e, 0);
    assert rows - multiset{} == rows;
    assert e.kind == WriteRows ==> Replaced(rows, Images(e)[0]) == rows + multiset{e.rows[0]};
    assert e.kind == DeleteRows ==> Replaced(rows, Images(e)[0]) == rows - multiset{e.rows[0]};
  }

  /** Replaying an event's images, each replacing its row before by its row after, does to the table what
    * the server did. */
  lemma {:induction false} ImagesDoWhatTheServerDid(rows: TableRows, e: RowsEvent)
    requires e.watched && e.kind != UnknownRows
    ensures ReplacedAll(rows, Images(e)) == ServerDid(rows, e.kind, e.rows)
    decreases |e.rows|
  {
    var n := if e.kind == UpdateRows then 2 else 1;
    if |e.rows| >= n {
      var rest := e.(rows := e.rows[n..]);
      ImagesSplit(e, n);
      ServerDidFirst(rows, e, n);
      ReplacedFirst(rows, Images(e)[0], Images(rest));
      ImagesDoWhatTheServerDid(Replaced(rows, Images(e)[0]), rest);
    }
  }

  /** The reader's position after a sequence of events. */
  datatype Reader = Reader(executed: Position, current: Option<TxId>)

  function Observed(r: Reader, e: BinEvent): Reader {
    match e
    case Gtid(id) => r.(current := Some(id))
    case Xid => if r.current.Some? then Reader(r.executed + {r.current.value}, None) else r
    case _ => r
  }

  function ReaderAfter(start: Position, evs: seq<BinEvent>): Reader {
    if evs == [] then Reader(start, None) else Observed(ReaderAfter(start, evs[..|evs| - 1]), evs[|evs| - 1])
  }

  function EventImages(e: BinEvent): seq<Image> {
    if e.Rows? then Images(e.event) else []
  }

  /** Each image the events give rise to, with the position it carries. */
  datatype Tagged = Tagged(image: Image, gtid: Position)

  function AllWith(images: seq<Image>, p: Position): (r: seq<Tagged>)
    ensures |r| == |images|
  {
    seq(|images|, i requires 0 <= i < |images| => Tagged(images[i], p))
  }

  // The reader itself ------------------------------------------------------------------------------

  class Streamer {
    var executed: Position
    var current: Option<TxId>
    var out: seq<Emission>

    ghost function State(): Reader
      reads this
    {
      Reader(executed, current)
    }

    constructor (start: Position)
      ensures State() == ReaderAfter(start, []) && out == []
    {
      executed, current, out := start, None, [];
    }

    /** `versions` are the numbers the sequencer hands out during the call; it fails after them. */
    method Handle(ev: BinEvent, versions: seq<nat>) returns (ok: bool)
      modifies this
      ensures State() == Observed(old(State()), ev)
      ensures ok <==> |EventImages(ev)| <= |versions|
      ensures |out| == |old(out)| + (if ok then |EventImages(ev)| else |versions|)
      ensures out[..|old(out)|] == old(out)
      ensures forall i :: |old(out)| <= i < |out| ==>
                out[i] == Emission(EventImages(ev)[i - |old(out)|], old(executed), versions[i - |old(out)|])
    {
      ok := true;
      match ev
      case Gtid(id) => current := Some(id);
      case Xid =>
        if current.Some? {
          executed, current := executed + {current.value}, None;
        }
      case Rows(e) =>
        if e.kind != UnknownRows && e.watched {
          if e.kind == UpdateRows {
            ok := EmitUpdates(e.rows, executed, versions);
          } else {
            ok := EmitEach(e.kind, e.rows, executed, versions);
          }
        }
      case _ =>
    }

    method EmitUpdates(rows: seq<Row>, gtid: Position, versions: seq<nat>) returns (ok: bool)
      modifies this`out
      ensures ok <==> |rows| / 2 <= |versions|
      ensures |out| == |old(out)| + (if ok then |rows| / 2 else |versions|) && out[..|old(out)|] == old(out)
      ensures forall i :: |old(out)| <= i < |out| ==>
                out[i] == Emission(Pairs(rows)[i - |old(out)|], gtid, versions[i - |old(out)|])
    {
      var i := 0;
      while i + 1 < |rows|
        invariant 0 <= i <= |rows| && i % 2 == 0 && i / 2 <= |versions|
        invariant |out| == |old(out)| + i / 2 && out[..|old(out)|] == old(out)
        invariant forall j :: |old(out)| <= j < |out| ==>
                    out[j] == Emission(Pairs(rows)[j - |old(out)|], gtid, versions[j - |old(out)|])
      {
        if i / 2 >= |versions| {
          return false;
        }
        out := out + [Emission(Image(Update, Some(rows[i]), Some(rows[i + 1])), gtid, versions[i / 2])];
        i := i + 2;
      }
      return true;
    }

    method EmitEach(kind: RowsKind, rows: seq<Row>, gtid: Position, versions: seq<nat>) returns (ok: bool)
      modifies this`out
      ensures ok <==> |rows| <= |versions|
      ensures |out| == |old(out)| + (if ok then |rows| else |versions|) && out[..|old(out)|] == old(out)
      ensures forall i :: |old(out)| <= i < |out| ==>
                out[i] == Emission(Single(kind, rows[i - |old(out)|]), gtid, versions[i - |old(out)|])
    {
      var i := 0;
      while i < |rows|
        invariant 0 <= i <= |rows| && i <= |versions|
        invariant |out| == |old(out)| + i && out[..|old(out)|] == old(out)
        invariant forall j :: |old(out)| <= j < |out| ==>
                    out[j] == Emission(Single(kind, rows[j - |old(out)|]), gtid, versions[j - |old(out)|])
      {
        if i >= |versions| {
          return false;
        }
        var before, after: Option<Row> := None, None;
        if kind == DeleteRows {
          before := Some(rows[i]);
        } else {
          after := Some(rows[i]);
        }
        var operation := if kind == DeleteRows then Delete else Insert;
        out := out + [Emission(Image(operation, before, after), gtid, versions[i])];
        i := i + 1;
      }
      return true;
    }
  }

  // Positions over every event sequence --------------------------------------------------------------

  /** No transaction starts or ends strictly between the two places. */
  ghost predicate Quiet(evs: seq<BinEvent>, lo: int, hi: int)
    requires -1 <= lo && hi <= |evs|
  {
    forall m :: lo < m < hi ==> !evs[m].Gtid? && !evs[m].Xid?
  }

  /** The event at x commits the transaction announced at g. */
  ghost predicate Closes(evs: seq<BinEvent>, g: int, x: int)
    requires 0 <= g < x < |evs|
  {
    evs[g].Gtid? && evs[x].Xid? && Quiet(evs, g, x)
  }

  /** The event at i belongs to the transaction announced at g. */
  ghost predicate Owns(evs: seq<BinEvent>, g: int, i: int)
    requires 0 <= g < i <= |evs|
  {
    evs[g].Gtid? && Quiet(evs, g, i)
  }

  ghost predicate Committed(evs: seq<BinEvent>, id: TxId) {
    exists g, x :: 0 <= g < x < |evs| && Closes(evs, g, x) && evs[g].id == id
  }

  lemma CommittedGrows(evs: seq<BinEvent>, n: nat, id: TxId)
    requires n <= |evs| && Committed(evs[..n], id)
    ensures Committed(evs, id)
  {
    var g, x :| 0 <= g < x < |evs[..n]| && Closes(evs[..n], g, x) && evs[..n][g].id == id;
    assert Closes(evs, g, x) by {
      assert forall m :: g < m < x ==> evs[m] == evs[..n][m];
    }
  }

  /** For every event sequence, the position is the start plus exactly the transactions whose
    * commit was seen; the current transaction is the one announced and not yet committed. */
  lemma {:induction false} PositionIsStartPlusCommitted(start: Position, evs: seq<BinEvent>)
    ensures forall id :: id in ReaderAfter(start, evs).executed <==> id in start || Committed(evs, id)
    ensures var c := ReaderAfter(start, evs).current;
            (c.Some? ==> exists g :: 0 <= g < |evs| && Owns(evs, g, |evs|) && evs[g].id == c.value)
            && (forall g :: 0 <= g < |evs| && Owns(evs, g, |evs|) ==> c == Some(evs[g].id))
  {
    if evs != [] {
      var n := |evs| - 1;
      var front := evs[..n];
      PositionIsStartPlusCommitted(start, front);
      var r := ReaderAfter(start, front);
      forall g | 0 <= g < n ensures Owns(front, g, n) <==> Owns(evs, g, n) {
        assert forall m :: g < m < n ==> evs[m] == front[m];
      }
      forall id ensures id in ReaderAfter(start, evs).executed <==> id in start || Committed(evs, id) {
        if Committed(front, id) {
          CommittedGrows(evs, n, id);
        }
        if Committed(evs, id) {
          var g, x :| 0 <= g < x < |evs| && Closes(evs, g, x) && evs[g].id == id;
          if x < n {
            assert Closes(front, g, x) by {
              assert forall m :: g < m < x ==> evs[m] == front[m];
            }
          } else {
            assert Owns(front, g, n);
          }
        }
        if evs[n].Xid? && r.current == Some(id) {
          var g :| 0 <= g < n && Owns(front, g, n) && front[g].id == id;
          assert Closes(evs, g, n);
        }
      }
      var c := ReaderAfter(start, evs).current;
      if c.Some? {
        if evs[n].Gtid? {
          assert Owns(evs, n, |evs|);
        } else {
          var g :| 0 <= g < n && Owns(front, g, n) && front[g].id == c.value;
          assert Owns(evs, g, |evs|);
        }
      }
      forall g | 0 <= g < |evs| && Owns(evs, g, |evs|) ensures c == Some(evs[g].id) {
        if g < n {
          assert Owns(front, g, n);
        }
      }
    }
  }

  ghost predicate IdsDistinct(evs: seq<BinEvent>) {
    forall g, h :: 0 <= g < h < |evs| && evs[g].Gtid? && evs[h].Gtid? ==> evs[g].id != evs[h].id
  }

  /** A row event never carries its own transaction. */
  lemma OwnTransactionIsExcluded(start: Position, evs: seq<BinEvent>, g: nat, i: nat)
    requires g < i <= |evs| && Owns(evs, g, i) && IdsDistinct(evs) && evs[g].id !in start
    ensures evs[g].id !in ReaderAfter(start, evs[..i]).executed
  {
    var front := evs[..i];
    PositionIsStartPlusCommitted(start, front);
  }

  /** A position contains, beyond its start, only transactions all of whose events came before. */
  lemma OnlyFinishedTransactions(start: Position, evs: seq<BinEvent>, i: nat, g: nat, r: nat)
    requires i <= |evs| && IdsDistinct(evs) && g < r < |evs| && Owns(evs, g, r)
    requires evs[g].id in ReaderAfter(start, evs[..i]).executed && evs[g].id !in start
    ensures r < i
  {
    var front := evs[..i];
    PositionIsStartPlusCommitted(start, front);
    var h, x :| 0 <= h < x < |front| && Closes(front, h, x) && front[h].id == evs[g].id;
    assert evs[h].Gtid? && evs[x].Xid?;
    assert h == g;
  }

  /** Positions only grow along the stream. */
  lemma PositionsGrow(start: Position, evs: seq<BinEvent>, i: nat, j: nat)
    requires i <= j <= |evs|
    ensures ReaderAfter(start, evs[..i]).executed <= ReaderAfter(start, evs[..j]).executed
  {
    PositionIsStartPlusCommitted(start, evs[..i]);
    PositionIsStartPlusCommitted(start, evs[..j]);
    forall id | id in ReaderAfter(start, evs[..i]).executed ensures id in ReaderAfter(start, evs[..j]).executed {
      if id !in start {
        assert evs[..j][..i] == evs[..i];
        CommittedGrows(evs[..j], i, id);
      }
    }
  }
}
