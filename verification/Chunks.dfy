/** The pages a scan reads are the chunks the protocol takes. */
module Chunks {
  import opened Documents
  import opened Source
  import opened Batching
  import opened Protocol
  import Keyset

  /** How the mapping turns a row into a key and a body, None when it cannot. */
  type RowMapping = Keyset.Row -> Option<(Bytes, Bytes)>

  /** The rows stored at some moment are the protocol's table: each row has the key that is in its place,
    * with the body the mapping gives it or none it can give, and each key the table holds has its row. */
  ghost predicate Shows(t: Table, now: nat, rows: map<real, Bytes>, apply: RowMapping)
    requires now <= |t.changes|
  {
    && (forall r :: r in rows ==> RowShows(t, now, Keyset.Row(r, rows[r]), apply))
    && (forall k {:trigger ValueAt(t, now, k)} :: ValueAt(t, now, k) != Absent ==>
          t.rank(k) in rows && KeyShows(t, now, k, apply(Keyset.Row(t.rank(k), rows[t.rank(k)]))))
  }

  predicate RowShows(t: Table, now: nat, row: Keyset.Row, apply: RowMapping)
    requires now <= |t.changes|
  {
    match apply(row)
    case None => true
    case Some((k, body)) => t.rank(k) == row.key && ValueAt(t, now, k) == Body(body)
  }

  predicate KeyShows(t: Table, now: nat, k: Bytes, mapped: Option<(Bytes, Bytes)>)
    requires now <= |t.changes|
  {
    ValueAt(t, now, k).Body? <==> mapped.Some?
  }

  /** A sent row as the pipeline takes it. */
  function RowEventOf(e: Keyset.Emitted, apply: RowMapping): Event {
    Event(
      match apply(Keyset.Row(e.key, e.body))
        case None => None
        case Some((k, body)) => Some([Doc(k, e.version, false, body)]),
      None, e.cursor, e.rowsScanned, 0, e.version)
  }

  function RowEventsOf(es: seq<Keyset.Emitted>, apply: RowMapping): (evs: seq<Event>)
    ensures |evs| == |es| && forall i :: 0 <= i < |es| ==> evs[i] == RowEventOf(es[i], apply)
  {
    seq(|es|, i requires 0 <= i < |es| => RowEventOf(es[i], apply))
  }

  /** The events of a page. */
  function PageEvents(page: seq<Keyset.Row>, base: nat, already: nat, apply: RowMapping): (evs: seq<Event>)
    ensures |evs| == |page|
    ensures forall i :: 0 <= i < |page| ==> evs[i] == RowEventOf(Keyset.SentRow(page, base, already, i), apply)
  {
    RowEventsOf(Keyset.SentPage(page, base, already), apply)
  }

  lemma PageRowShows(t: Table, now: nat, rows: map<real, Bytes>, apply: RowMapping,
                     from: Option<real>, limit: nat, page: seq<Keyset.Row>, i: nat)
    requires now <= |t.changes| && Shows(t, now, rows, apply) && i < |page|
    requires Keyset.IsPageOf(rows, from, limit, page)
    ensures RowShows(t, now, page[i], apply) && Past(from, page[i].key)
  {
    assert Past(from, Keyset.RowKeys(page)[i]);
    assert page[i] == Keyset.Row(page[i].key, rows[page[i].key]);
  }

  /** The document of event i, if there is one, is the row's, in the row's place. */
  lemma PageEventDoc(t: Table, now: nat, apply: RowMapping, from: Option<real>,
                     page: seq<Keyset.Row>, base: nat, already: nat, i: nat)
    requires now <= |t.changes| && i < |page| && RowShows(t, now, page[i], apply) && Past(from, page[i].key)
    ensures var e := PageEvents(page, base, already, apply)[i];
            && e.gtid.None? && e.version == base && (e.cursor.Some? <==> i == |page| - 1)
            && (e.cursor.Some? ==> e.cursor.value == page[i].key)
            && (e.docs.Some? ==> IsScanned(t, now, from, base, e.docs.value))
            && forall d :: d in EventDocs(e) ==> t.rank(d.key) == page[i].key
  {
  }

  lemma {:induction false} EventDocIsThere(evs: seq<Event>, i: nat, d: Doc)
    requires i < |evs| && d in EventDocs(evs[i])
    ensures d in DocsOf(evs)
  {
    if i < |evs| - 1 {
      EventDocIsThere(evs[..|evs| - 1], i, d);
    }
  }

  /** Each event has at most one document, in a place of its own, and the places rise. */
  ghost predicate InPlaces(t: Table, evs: seq<Event>, places: seq<real>) {
    && |evs| == |places| && Keyset.InKeyOrder(places)
    && forall i :: 0 <= i < |evs| ==> InPlace(t, evs[i], places[i])
  }

  ghost predicate InPlace(t: Table, e: Event, r: real) {
    |EventDocs(e)| <= 1 && forall d :: d in EventDocs(e) ==> t.rank(d.key) == r
  }

  lemma AscendingOneMore(t: Table, ds: seq<Doc>, more: seq<Doc>, r: real)
    requires Protocol.Ascending(t, ds) && (forall d :: d in ds ==> t.rank(d.key) < r)
    requires |more| <= 1 && forall d :: d in more ==> t.rank(d.key) == r
    ensures Protocol.Ascending(t, ds + more) && forall d :: d in ds + more ==> t.rank(d.key) <= r
  {
    var all := ds + more;
    forall i, j | 0 <= i < j < |all| ensures t.rank(all[i].key) < t.rank(all[j].key) {
      if j == |ds| {
        assert all[i] in ds && all[j] in more;
      }
    }
  }

  lemma {:induction false} PlacesAscend(t: Table, evs: seq<Event>, places: seq<real>, n: nat)
    requires n <= |evs| && InPlaces(t, evs, places)
    ensures Protocol.Ascending(t, DocsOf(evs[..n]))
    ensures forall d :: d in DocsOf(evs[..n]) ==> n > 0 && t.rank(d.key) <= places[n - 1]
  {
    if n > 0 {
      PlacesAscend(t, evs, places, n - 1);
      assert evs[..n][..n - 1] == evs[..n - 1];
      assert InPlace(t, evs[n - 1], places[n - 1]);
      assert n > 1 ==> places[n - 2] < places[n - 1];
      AscendingOneMore(t, DocsOf(evs[..n - 1]), EventDocs(evs[n - 1]), places[n - 1]);
    }
  }

  lemma PageInPlaces(t: Table, now: nat, rows: map<real, Bytes>, apply: RowMapping, from: Option<real>, size: nat,
                     page: seq<Keyset.Row>, base: nat, already: nat)
    requires now <= |t.changes| && Shows(t, now, rows, apply) && Keyset.IsPageOf(rows, from, size, page)
    ensures InPlaces(t, PageEvents(page, base, already, apply), Keyset.RowKeys(page))
  {
    var evs := PageEvents(page, base, already, apply);
    forall i | 0 <= i < |evs| ensures InPlace(t, evs[i], Keyset.RowKeys(page)[i]) {
      PageRowShows(t, now, rows, apply, from, size, page, i);
      PageEventDoc(t, now, apply, from, page, base, already, i);
    }
  }

  /** Every row in the page's range is in the page: a document of it, or an event without documents. */
  lemma PageHasKey(t: Table, now: nat, rows: map<real, Bytes>, apply: RowMapping, from: Option<real>, size: nat,
                   page: seq<Keyset.Row>, base: nat, already: nat, k: Bytes)
    requires Valid(t) && now <= |t.changes| && Shows(t, now, rows, apply) && Keyset.IsPageOf(rows, from, size, page)
    requires Past(from, t.rank(k)) && (|page| < size || (page != [] && t.rank(k) <= page[|page| - 1].key))
    ensures ValueAt(t, now, k).Body? ==> HasKey(DocsOf(PageEvents(page, base, already, apply)), k)
    ensures ValueAt(t, now, k).Unencodable? ==> HasUnencoded(PageEvents(page, base, already, apply))
  {
    var evs := PageEvents(page, base, already, apply);
    if ValueAt(t, now, k) != Absent {
      assert t.rank(k) in rows.Keys;
      assert t.rank(k) in Keyset.RowKeys(page);
      var i :| 0 <= i < |page| && Keyset.RowKeys(page)[i] == t.rank(k);
      PageRowShows(t, now, rows, apply, from, size, page, i);
      assert page[i] == Keyset.Row(t.rank(k), rows[t.rank(k)]);
      if ValueAt(t, now, k).Body? {
        var d := EventDocs(evs[i])[0];
        assert d in EventDocs(evs[i]) && d.key == k;
        EventDocIsThere(evs, i, d);
      } else {
        assert evs[i] in evs && evs[i].docs.None?;
      }
    }
  }

  /** A page read by the scanner at some moment and sent as events is a chunk of that moment, rows that
    * cannot be encoded included. */
  lemma PageIsChunk(t: Table, now: nat, rows: map<real, Bytes>, apply: RowMapping, from: Option<real>, size: nat,
                    page: seq<Keyset.Row>, base: nat, already: nat)
    requires Valid(t) && now <= |t.changes| && size >= 1
    requires Shows(t, now, rows, apply) && Keyset.IsPageOf(rows, from, size, page)
    ensures IsChunk(t, now, from, base, size, PageEvents(page, base, already, apply))
  {
    var evs := PageEvents(page, base, already, apply);
    forall i | 0 <= i < |evs|
      ensures evs[i].gtid.None? && evs[i].version == base && (evs[i].cursor.Some? <==> i == |evs| - 1)
      ensures evs[i].cursor.Some? ==> evs[i].cursor.value == page[i].key
      ensures evs[i].docs.Some? ==> IsScanned(t, now, from, base, evs[i].docs.value)
      ensures forall d :: d in EventDocs(evs[i]) ==> t.rank(d.key) == page[i].key
    {
      PageRowShows(t, now, rows, apply, from, size, page, i);
      PageEventDoc(t, now, apply, from, page, base, already, i);
    }
    PageInPlaces(t, now, rows, apply, from, size, page, base, already);
    PlacesAscend(t, evs, Keyset.RowKeys(page), |evs|);
    assert evs[..|evs|] == evs;
    if evs != [] {
      assert Past(from, Keyset.RowKeys(page)[|page| - 1]);
    }
    forall k | Past(from, t.rank(k)) && (|evs| < size || t.rank(k) <= evs[|evs| - 1].cursor.value)
      ensures ValueAt(t, now, k).Body? ==> HasKey(DocsOf(evs), k)
      ensures ValueAt(t, now, k).Unencodable? ==> HasUnencoded(evs)
    {
      PageHasKey(t, now, rows, apply, from, size, page, base, already, k);
    }
  }

  /** The page the scanner reads next from where the protocol's scan stands, sent by `EmitChunk`, is the
    * protocol's reading step. */
  lemma SentPageIsAStep(t: Table, lim: Limits, w: World, rows: map<real, Bytes>, apply: RowMapping, size: nat,
                        page: seq<Keyset.Row>, already: nat)
    returns (w': World)
    requires Valid(t) && w.now <= |t.changes| && w.phase.Scanning? && !w.phase.exhausted && size >= 1
    requires Shows(t, w.now, rows, apply) && Keyset.IsPageOf(rows, w.phase.at, size, page)
    ensures Step(t, lim, w, ReadChunk(size, PageEvents(page, w.core.row.base, already, apply)), w')
    ensures w'.core.queue == w.core.queue + RowEventsOf(Keyset.SentPage(page, w.core.row.base, already), apply)
    ensures w'.phase == Scanning(Keyset.LastOr(Keyset.RowKeys(page), w.phase.at), |page| < size)
  {
    var evs := PageEvents(page, w.core.row.base, already, apply);
    PageIsChunk(t, w.now, rows, apply, w.phase.at, size, page, w.core.row.base, already);
    w' := w.(core := w.core.(queue := w.core.queue + evs),
             phase := Scanning(Keyset.LastOr(Keyset.RowKeys(page), w.phase.at), |page| < size));
    if page != [] {
      assert evs[|evs| - 1].cursor == Some(page[|page| - 1].key);
    }
  }
}
