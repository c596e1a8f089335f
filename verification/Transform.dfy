/** Turning a row change into documents. */
module Transform {
  import opened Documents
  import opened Text
  import opened KeyText
  import opened Bodies
  import Source
  import RowText
  import BulkText
  import Rekeying

  datatype Dialect = Elasticsearch | ClickHouse

  datatype Operation = Insert | Update | Delete | Snapshot

  /** `before` and `after` are None where the event carries no such image. */
  datatype RowEvent = RowEvent(op: Operation, before: Option<Row>, after: Option<Row>, version: nat) {
    function Values(): Option<Row> { if op.Delete? then before else after }
  }

  /** A compiled mapping. Every position is one of the table's columns. */
  datatype Plan = Plan(
    dialect: Dialect, width: nat, fields: seq<Field>, keyFields: seq<Field>, keyPositions: seq<nat>,
    digest: Digest, utf8: Bytes -> bool)
  {
    predicate Compiled() {
      && keyPositions != [] && (forall i :: 0 <= i < |keyPositions| ==> keyPositions[i] < width)
      && (forall i :: 0 <= i < |fields| ==> fields[i].position < width)
      && (forall i :: 0 <= i < |keyFields| ==> keyFields[i].position < width)
    }

    predicate Wide(row: Option<Row>) { row.Some? && |row.value| >= width }
  }

  function KeyString(v: Value): Option<Bytes> {
    match v
    case Null => None
    case Text(b) => Some(b)
    case Number(n) => Some(SignedDecimal(n))
  }

  function KeyColumns(p: Plan, row: Row): (vs: KeyValues)
    requires p.Compiled() && p.Wide(Some(row))
    ensures |vs| == |p.keyPositions| && forall i :: 0 <= i < |vs| ==> vs[i] == KeyString(row[p.keyPositions[i]])
  {
    seq(|p.keyPositions|, i requires 0 <= i < |p.keyPositions| => KeyString(row[p.keyPositions[i]]))
  }

  /** A row that can be told from others: no key column is null. */
  predicate HasIdentity(p: Plan, row: Row)
    requires p.Compiled() && p.Wide(Some(row))
  {
    NoNulls(KeyColumns(p, row))
  }

  function Identity(p: Plan, row: Row): seq<Bytes>
    requires p.Compiled() && p.Wide(Some(row)) && HasIdentity(p, row)
  {
    Parts(KeyColumns(p, row))
  }

  function KeyOfRow(p: Plan, row: Row): Option<Bytes>
    requires p.Compiled() && p.Wide(Some(row))
  {
    if HasIdentity(p, row) then Some(KeyOf(p.digest, Identity(p, row))) else None
  }

  function Body(p: Plan, row: Row): Option<Bytes>
    requires p.Compiled() && p.Wide(Some(row))
  {
    EncodedFields(p.utf8, p.fields, row)
  }

  /** The documents an event implies; None when it cannot be turned into any. */
  function Applied(p: Plan, e: RowEvent): Option<seq<Doc>>
    requires p.Compiled()
  {
    if !p.Wide(e.Values()) then None
    else if e.op.Delete? then
      match KeyOfRow(p, e.before.value)
      case None => None
      case Some(key) =>
        if p.dialect.Elasticsearch? then Some([Doc(key, e.version, true, [])]) else
          match EncodedFields(p.utf8, p.keyFields, e.before.value)
          case None => None
          case Some(body) => Some([Doc(key, e.version, true, body)])
    else
      match (KeyOfRow(p, e.after.value), Body(p, e.after.value))
      case (Some(key), Some(body)) =>
        if e.op.Update? && e.before.Some? then
          if !p.Wide(e.before) then None else
            match KeyOfRow(p, e.before.value)
            case None => None
            case Some(oldKey) =>
              if oldKey != key then Some([Doc(oldKey, e.version, true, []), Doc(key, e.version, false, body)])
              else Some([Doc(key, e.version, false, body)])
        else Some([Doc(key, e.version, false, body)])
      case _ => None
  }

  // When there are documents ---------------------------------------------------------------------

  /** The row is there, has a value for every column, and no key column of it is null. */
  predicate Keyed(p: Plan, row: Option<Row>)
    requires p.Compiled()
  {
    && row.Some? && |row.value| >= p.width
    && forall i :: 0 <= i < |p.keyPositions| ==> row.value[p.keyPositions[i]] != Null
  }

  /** Every field's column of the row has a text. */
  predicate Encodes(p: Plan, fields: seq<Field>, row: Row) {
    forall i :: 0 <= i < |fields| ==>
      fields[i].position < |row| && EncodedValue(p.utf8, fields[i].kind, row[fields[i].position]).Some?
  }

  lemma KeyedExactlyWhen(p: Plan, row: Option<Row>)
    requires p.Compiled()
    ensures Keyed(p, row) <==> p.Wide(row) && KeyOfRow(p, row.value).Some?
  {
    if p.Wide(row) {
      assert forall i :: 0 <= i < |p.keyPositions| ==>
        (KeyColumns(p, row.value)[i].Some? <==> row.value[p.keyPositions[i]] != Null);
    }
  }

  lemma EncodesExactlyWhen(p: Plan, fields: seq<Field>, row: Row)
    requires Fits(fields, row)
    ensures Encodes(p, fields, row) <==> EncodedFields(p.utf8, fields, row).Some?
  {
    assert forall i :: 0 <= i < |fields| ==>
      (FieldText(p.utf8, fields[i], row).Some? <==>
       EncodedValue(p.utf8, fields[i].kind, row[fields[i].position]).Some?);
  }

  /** An event makes documents exactly when: a deletion's row before has its key, and for ClickHouse its key
    * fields have texts; any other event's row after has its key and every field a text, and an update's row
    * before, if there is one, has its key. */
  lemma DocumentsAreMadeExactly(p: Plan, e: RowEvent)
    requires p.Compiled()
    ensures Applied(p, e).Some? <==>
            if e.op.Delete? then
              Keyed(p, e.before) && (p.dialect.ClickHouse? ==> Encodes(p, p.keyFields, e.before.value))
            else
              && Keyed(p, e.after) && Encodes(p, p.fields, e.after.value)
              && (e.op.Update? && e.before.Some? ==> Keyed(p, e.before))
  {
    KeyedExactlyWhen(p, e.before);
    KeyedExactlyWhen(p, e.after);
    if Keyed(p, e.before) {
      EncodesExactlyWhen(p, p.keyFields, e.before.value);
    }
    if Keyed(p, e.after) {
      EncodesExactlyWhen(p, p.fields, e.after.value);
    }
  }

  /** And these are they: a tombstone for a deletion; the row after under its key; and where an update moved
    * the row, a tombstone under the old key first. All carry the event's version. */
  lemma DocumentsAre(p: Plan, e: RowEvent)
    requires p.Compiled() && Applied(p, e).Some?
    ensures forall d :: d in Applied(p, e).value ==> d.version == e.version
    ensures e.op.Delete? ==>
              |Applied(p, e).value| == 1 && Applied(p, e).value[0].deleted &&
              Some(Applied(p, e).value[0].key) == KeyOfRow(p, e.before.value)
    ensures !e.op.Delete? ==>
              var docs := Applied(p, e).value;
              var put := docs[|docs| - 1];
              !put.deleted && Some(put.key) == KeyOfRow(p, e.after.value) && Some(put.body) == Body(p, e.after.value)
    ensures !e.op.Delete? ==>
              var docs := Applied(p, e).value;
              if e.op.Update? && e.before.Some? && KeyOfRow(p, e.before.value) != KeyOfRow(p, e.after.value) then
                |docs| == 2 && docs[0].deleted && Some(docs[0].key) == KeyOfRow(p, e.before.value)
              else |docs| == 1
  {
  }

  /** A key column's text tells its value: a text is itself, a number is read back from its digits. */
  lemma KeyStringsReadBack(v: Value)
    ensures v.Null? <==> KeyString(v).None?
    ensures v.Text? ==> KeyString(v) == Some(v.bytes)
    ensures v.Number? ==> ReadInteger(KeyString(v).value) == Some((v.n, []))
  {
    if v.Number? {
      IntegerReadsBack(v.n, []);
      assert SignedDecimal(v.n) + [] == SignedDecimal(v.n);
    }
  }

  /** So rows with the same identity have the same values in their key columns, as far as both are numbers or
    * both are texts. */
  lemma IdentityTellsValues(p: Plan, a: Row, b: Row, i: nat)
    requires p.Compiled() && p.Wide(Some(a)) && p.Wide(Some(b)) && HasIdentity(p, a) && HasIdentity(p, b)
    requires Identity(p, a) == Identity(p, b) && i < |p.keyPositions|
    requires a[p.keyPositions[i]].Number? <==> b[p.keyPositions[i]].Number?
    ensures a[p.keyPositions[i]] == b[p.keyPositions[i]]
  {
    assert Identity(p, a)[i] == Identity(p, b)[i];
    KeyStringsReadBack(a[p.keyPositions[i]]);
    KeyStringsReadBack(b[p.keyPositions[i]]);
  }

  method Apply(p: Plan, e: RowEvent) returns (docs: Option<seq<Doc>>)
    requires p.Compiled()
    ensures docs == Applied(p, e)
  {
    var values := e.Values();
    if !p.Wide(values) {
      return None;
    }
    if e.op.Delete? {
      var key := Key(p.digest, KeyColumns(p, values.value));
      if key.None? {
        return None;
      }
      var body: Bytes := [];
      if p.dialect.ClickHouse? {
        var encoded := EncodeFields(p.utf8, p.keyFields, values.value);
        if encoded.None? {
          return None;
        }
        body := encoded.value;
      }
      return Some([Doc(key.value, e.version, true, body)]);
    }
    var newKey := Key(p.digest, KeyColumns(p, values.value));
    if newKey.None? {
      return None;
    }
    var body := EncodeFields(p.utf8, p.fields, values.value);
    if body.None? {
      return None;
    }
    if e.op.Update? && e.before.Some? {
      if !p.Wide(e.before) {
        return None;
      }
      var oldKey := Key(p.digest, KeyColumns(p, e.before.value));
      if oldKey.None? {
        return None;
      }
      if oldKey.value != newKey.value {
        return Some([Doc(oldKey.value, e.version, true, []), Doc(newKey.value, e.version, false, body.value)]);
      }
    }
    return Some([Doc(newKey.value, e.version, false, body.value)]);
  }

  // Refinement ----------------------------------------------------------------------------------

  /** A table, by row identity. */
  type Rows = map<seq<Bytes>, Row>

  /** A row as the source stores it under its identity, which the mapping can encode. */
  predicate Proper(p: Plan, id: seq<Bytes>, row: Row)
    requires p.Compiled()
  {
    p.Wide(Some(row)) && HasIdentity(p, row) && Identity(p, row) == id && Body(p, row).Some?
  }

  ghost predicate Consistent(p: Plan, rows: Rows)
    requires p.Compiled()
  {
    forall id :: id in rows ==> Proper(p, id, rows[id])
  }

  function KeyFor(p: Plan): seq<Bytes> -> Bytes { id => KeyOf(p.digest, id) }

  ghost function BodiesOf(p: Plan, rows: Rows): map<seq<Bytes>, Bytes>
    requires p.Compiled() && Consistent(p, rows)
  {
    map id | id in rows :: Body(p, rows[id]).value
  }

  /** What a reader of the destination sees is the table, row by row and nothing else. */
  ghost predicate Mirrors(p: Plan, rows: Rows, seen: map<Bytes, Bytes>)
    requires p.Compiled() && Consistent(p, rows)
  {
    Rekeying.Mirrors(KeyFor(p), BodiesOf(p, rows), seen)
  }

  function Seen(seen: map<Bytes, Bytes>, d: Doc): map<Bytes, Bytes> {
    if d.deleted then seen - {d.key} else seen[d.key := d.body]
  }

  function SeenAll(seen: map<Bytes, Bytes>, ds: seq<Doc>): map<Bytes, Bytes> {
    if ds == [] then seen else Seen(SeenAll(seen, ds[..|ds| - 1]), ds[|ds| - 1])
  }

  predicate Identified(p: Plan, row: Option<Row>)
    requires p.Compiled()
  {
    p.Wide(row) && HasIdentity(p, row.value)
  }

  /** The change the source made: what the event says was there was there, and an updated row moves
    * only to an identity that was free. */
  ghost predicate Changes(p: Plan, rows: Rows, e: RowEvent, rows': Rows)
    requires p.Compiled()
  {
    match e.op
    case Delete =>
      && Identified(p, e.before) && Identity(p, e.before.value) in rows
      && rows' == rows - {Identity(p, e.before.value)}
    case Update =>
      && Identified(p, e.before) && Identified(p, e.after)
      && var (id, id') := (Identity(p, e.before.value), Identity(p, e.after.value));
      id in rows && (id' == id || id' !in rows) && rows' == (rows - {id})[id' := e.after.value]
    case _ =>
      Identified(p, e.after) && rows' == rows[Identity(p, e.after.value) := e.after.value]
  }

  lemma BodiesPut(p: Plan, rows: Rows, id: seq<Bytes>, row: Row)
    requires p.Compiled() && Consistent(p, rows) && Proper(p, id, row)
    ensures Consistent(p, rows[id := row])
    ensures BodiesOf(p, rows[id := row]) == BodiesOf(p, rows)[id := Body(p, row).value]
    ensures BodiesOf(p, rows).Keys == rows.Keys
  {
    var rows' := rows[id := row];
    forall i | i in rows' ensures Proper(p, i, rows'[i]) {
      if i != id {
        assert Proper(p, i, rows[i]);
      }
    }
  }

  lemma BodiesDrop(p: Plan, rows: Rows, id: seq<Bytes>)
    requires p.Compiled() && Consistent(p, rows)
    ensures Consistent(p, rows - {id})
    ensures BodiesOf(p, rows - {id}) == BodiesOf(p, rows) - {id}
    ensures BodiesOf(p, rows).Keys == rows.Keys
  {
    var rows' := rows - {id};
    forall i | i in rows' ensures Proper(p, i, rows'[i]) {
      assert Proper(p, i, rows[i]);
    }
  }

  lemma PutMirrors(p: Plan, rows: Rows, seen: map<Bytes, Bytes>, id: seq<Bytes>, row: Row, d: Doc)
    requires p.Compiled() && Consistent(p, rows) && Mirrors(p, rows, seen) && Proper(p, id, row)
    requires Rekeying.TellsApart(KeyFor(p), rows.Keys + {id})
    requires d == Doc(KeyFor(p)(id), d.version, false, Body(p, row).value)
    ensures Consistent(p, rows[id := row]) && Mirrors(p, rows[id := row], Seen(seen, d))
  {
    BodiesPut(p, rows, id, row);
    Rekeying.PutMirrors(KeyFor(p), BodiesOf(p, rows), seen, id, d.body);
  }

  lemma DropMirrors(p: Plan, rows: Rows, seen: map<Bytes, Bytes>, id: seq<Bytes>, d: Doc)
    requires p.Compiled() && Consistent(p, rows) && Mirrors(p, rows, seen) && id in rows
    requires Rekeying.TellsApart(KeyFor(p), rows.Keys)
    requires d.deleted && d.key == KeyFor(p)(id)
    ensures Consistent(p, rows - {id}) && Mirrors(p, rows - {id}, Seen(seen, d))
  {
    BodiesDrop(p, rows, id);
    Rekeying.DropMirrors(KeyFor(p), BodiesOf(p, rows), seen, id);
  }

  lemma SeenOne(seen: map<Bytes, Bytes>, d: Doc)
    ensures SeenAll(seen, [d]) == Seen(seen, d)
  {
    assert [d][..0] == [];
  }

  lemma SeenTwo(seen: map<Bytes, Bytes>, d: Doc, e: Doc)
    ensures SeenAll(seen, [d, e]) == Seen(Seen(seen, d), e)
  {
    assert [d, e][..1] == [d];
    SeenOne(seen, d);
  }

  /** A row that moves: its old key is dropped, then its new one put. */
  lemma MoveMirrors(p: Plan, rows: Rows, seen: map<Bytes, Bytes>, id: seq<Bytes>, id': seq<Bytes>, row: Row, tomb: Doc,
                    put: Doc)
    requires p.Compiled() && Consistent(p, rows) && Mirrors(p, rows, seen) && id in rows && Proper(p, id', row)
    requires Rekeying.TellsApart(KeyFor(p), rows.Keys + {id'})
    requires tomb.deleted && tomb.key == KeyFor(p)(id)
    requires put == Doc(KeyFor(p)(id'), put.version, false, Body(p, row).value)
    ensures Consistent(p, (rows - {id})[id' := row])
    ensures Mirrors(p, (rows - {id})[id' := row], SeenAll(seen, [tomb, put]))
  {
    SeenTwo(seen, tomb, put);
    Rekeying.FewerTellApart(KeyFor(p), rows.Keys + {id'}, rows.Keys);
    Rekeying.FewerTellApart(KeyFor(p), rows.Keys + {id'}, (rows - {id}).Keys + {id'});
    DropMirrors(p, rows, seen, id, tomb);
    PutMirrors(p, rows - {id}, Seen(seen, tomb), id', row, put);
  }

  lemma DeletedDocs(p: Plan, e: RowEvent)
    requires p.Compiled() && e.op.Delete? && Identified(p, e.before) && Applied(p, e).Some?
    ensures var docs := Applied(p, e).value;
            |docs| == 1 && docs[0].deleted && docs[0].key == KeyFor(p)(Identity(p, e.before.value))
  {
  }

  lemma UpsertDocs(p: Plan, e: RowEvent)
    requires p.Compiled() && !e.op.Delete? && Identified(p, e.after) && Applied(p, e).Some?
    requires e.op.Update? ==> Identified(p, e.before)
    ensures Body(p, e.after.value).Some?
    ensures var docs := Applied(p, e).value;
            var put := Doc(KeyFor(p)(Identity(p, e.after.value)), e.version, false, Body(p, e.after.value).value);
            if e.op.Update? && KeyFor(p)(Identity(p, e.before.value)) != put.key
            then docs == [Doc(KeyFor(p)(Identity(p, e.before.value)), e.version, true, []), put]
            else docs == [put]
  {
  }

  lemma DropOne(p: Plan, rows: Rows, seen: map<Bytes, Bytes>, id: seq<Bytes>, d: Doc, ids: set<seq<Bytes>>)
    requires p.Compiled() && Consistent(p, rows) && Mirrors(p, rows, seen) && id in rows
    requires Rekeying.TellsApart(KeyFor(p), ids) && rows.Keys <= ids && d.deleted && d.key == KeyFor(p)(id)
    ensures Consistent(p, rows - {id}) && Mirrors(p, rows - {id}, SeenAll(seen, [d]))
  {
    SeenOne(seen, d);
    Rekeying.FewerTellApart(KeyFor(p), ids, rows.Keys);
    DropMirrors(p, rows, seen, id, d);
  }

  lemma DeleteRefines(p: Plan, rows: Rows, seen: map<Bytes, Bytes>, e: RowEvent, rows': Rows, ids: set<seq<Bytes>>)
    requires p.Compiled() && Consistent(p, rows) && Mirrors(p, rows, seen) && e.op.Delete?
    requires Changes(p, rows, e, rows') && Applied(p, e).Some?
    requires Rekeying.TellsApart(KeyFor(p), ids) && rows.Keys <= ids
    ensures Consistent(p, rows') && Mirrors(p, rows', SeenAll(seen, Applied(p, e).value))
  {
    var docs := Applied(p, e).value;
    DeletedDocs(p, e);
    assert docs == [docs[0]];
    DropOne(p, rows, seen, Identity(p, e.before.value), docs[0], ids);
  }

  lemma MoveRefines(p: Plan, rows: Rows, seen: map<Bytes, Bytes>, e: RowEvent, rows': Rows, ids: set<seq<Bytes>>)
    requires p.Compiled() && Consistent(p, rows) && Mirrors(p, rows, seen) && e.op.Update?
    requires Changes(p, rows, e, rows') && Applied(p, e).Some?
    requires Identity(p, e.before.value) != Identity(p, e.after.value)
    requires Rekeying.TellsApart(KeyFor(p), ids) && rows.Keys + rows'.Keys <= ids
    ensures Consistent(p, rows') && Mirrors(p, rows', SeenAll(seen, Applied(p, e).value))
  {
    var docs, id, id' := Applied(p, e).value, Identity(p, e.before.value), Identity(p, e.after.value);
    UpsertDocs(p, e);
    assert id in rows && id' in rows';
    assert KeyFor(p)(id) != KeyFor(p)(id');
    Rekeying.FewerTellApart(KeyFor(p), ids, rows.Keys + {id'});
    MoveMirrors(p, rows, seen, id, id', e.after.value, docs[0], docs[1]);
    assert docs == [docs[0], docs[1]];
  }

  lemma ChangedRows(p: Plan, rows: Rows, e: RowEvent, rows': Rows)
    requires p.Compiled() && !e.op.Delete? && Changes(p, rows, e, rows')
    requires e.op.Update? ==> Identity(p, e.before.value) == Identity(p, e.after.value)
    ensures rows' == rows[Identity(p, e.after.value) := e.after.value]
  {
  }

  lemma PutOne(p: Plan, rows: Rows, seen: map<Bytes, Bytes>, id: seq<Bytes>, row: Row, d: Doc, ids: set<seq<Bytes>>)
    requires p.Compiled() && Consistent(p, rows) && Mirrors(p, rows, seen) && Proper(p, id, row)
    requires Rekeying.TellsApart(KeyFor(p), ids) && rows.Keys + {id} <= ids
    requires d == Doc(KeyFor(p)(id), d.version, false, Body(p, row).value)
    ensures Consistent(p, rows[id := row]) && Mirrors(p, rows[id := row], SeenAll(seen, [d]))
  {
    SeenOne(seen, d);
    Rekeying.FewerTellApart(KeyFor(p), ids, rows.Keys + {id});
    PutMirrors(p, rows, seen, id, row, d);
  }

  lemma PutRefines(p: Plan, rows: Rows, seen: map<Bytes, Bytes>, e: RowEvent, rows': Rows, ids: set<seq<Bytes>>)
    requires p.Compiled() && Consistent(p, rows) && Mirrors(p, rows, seen) && !e.op.Delete?
    requires Changes(p, rows, e, rows') && Applied(p, e).Some?
    requires e.op.Update? ==> Identity(p, e.before.value) == Identity(p, e.after.value)
    requires Rekeying.TellsApart(KeyFor(p), ids) && rows.Keys + rows'.Keys <= ids
    ensures Consistent(p, rows') && Mirrors(p, rows', SeenAll(seen, Applied(p, e).value))
  {
    var docs, id := Applied(p, e).value, Identity(p, e.after.value);
    UpsertDocs(p, e);
    ChangedRows(p, rows, e, rows');
    assert docs == [docs[0]];
    PutOne(p, rows, seen, id, e.after.value, docs[0], ids);
  }

  lemma ChangesMakeDocuments(p: Plan, rows: Rows, e: RowEvent, rows': Rows)
    requires p.Compiled() && Changes(p, rows, e, rows') && Consistent(p, rows')
    requires p.dialect.ClickHouse? && e.op.Delete? ==> Encodes(p, p.keyFields, e.before.value)
    ensures Applied(p, e).Some?
  {
    DocumentsAreMadeExactly(p, e);
    KeyedExactlyWhen(p, e.before);
    KeyedExactlyWhen(p, e.after);
    if !e.op.Delete? {
      assert Proper(p, Identity(p, e.after.value), rows'[Identity(p, e.after.value)]);
      EncodesExactlyWhen(p, p.fields, e.after.value);
    }
  }

  /** Applying an event's documents to what the destination shows of a table shows the changed
    * table: a row that moved to another key is shown there and no longer under its old one. */
  lemma ApplyRefinesTheChange(p: Plan, rows: Rows, seen: map<Bytes, Bytes>, e: RowEvent, rows': Rows)
    requires p.Compiled() && Consistent(p, rows) && Mirrors(p, rows, seen)
    requires Changes(p, rows, e, rows') && Rekeying.TellsApart(KeyFor(p), rows.Keys + rows'.Keys)
    requires Consistent(p, rows')
    requires p.dialect.ClickHouse? && e.op.Delete? ==> Encodes(p, p.keyFields, e.before.value)
    ensures Applied(p, e).Some? && Mirrors(p, rows', SeenAll(seen, Applied(p, e).value))
  {
    ChangesMakeDocuments(p, rows, e, rows');
    if e.op.Delete? {
      DeleteRefines(p, rows, seen, e, rows', rows.Keys + rows'.Keys);
    } else if e.op.Update? && Identity(p, e.before.value) != Identity(p, e.after.value) {
      MoveRefines(p, rows, seen, e, rows', rows.Keys + rows'.Keys);
    } else {
      PutRefines(p, rows, seen, e, rows', rows.Keys + rows'.Keys);
    }
  }

  /** Tuples whose plain keys fit the limit always have different keys. */
  lemma FittingKeysTellApart(p: Plan, ids: set<seq<Bytes>>)
    requires forall id :: id in ids ==> id != [] && |PlainKey(id)| <= MAX_KEY_BYTES
    ensures Rekeying.TellsApart(KeyFor(p), ids)
  {
    forall a, b | a in ids && b in ids && KeyFor(p)(a) == KeyFor(p)(b) ensures a == b {
      PlainKeysDiffer(a, b);
    }
  }

  // Towards the destinations --------------------------------------------------------------------

  /** A document that puts the event's new row. */
  predicate Puts(p: Plan, e: RowEvent, d: Doc)
    requires p.Compiled()
  {
    !d.deleted && p.Wide(e.after) && Body(p, e.after.value) == Some(d.body)
  }

  /** One document, or a tombstone under the old key and a document under the new one. */
  predicate DocsShape(p: Plan, e: RowEvent, docs: seq<Doc>)
    requires p.Compiled()
  {
    && 1 <= |docs| <= 2
    && (forall i :: 0 <= i < |docs| ==> docs[i].version == e.version && (docs[i].deleted || Puts(p, e, docs[i])))
    && (|docs| == 2 ==> docs[0].key != docs[1].key && docs[0].deleted && docs[0].body == [] && !docs[1].deleted)
    && (p.dialect.Elasticsearch? ==> forall i :: 0 <= i < |docs| && docs[i].deleted ==> docs[i].body == [])
  }

  lemma AppliedShape(p: Plan, e: RowEvent)
    requires p.Compiled() && Applied(p, e).Some?
    ensures DocsShape(p, e, Applied(p, e).value)
  {
  }

  /** What the protocol's table holds under the row's key. */
  function HeldOf(p: Plan, row: Row): (h: Held)
    requires p.Compiled() && p.Wide(Some(row))
    ensures h != Absent && (h.Unencodable? <==> Body(p, row).None?) && (h.Body? ==> Body(p, row) == Some(h.body))
  {
    match Body(p, row)
    case None => Unencodable
    case Some(body) => Held.Body(body)
  }

  /** What an event does to the table, by the keys of the rows that have one, whether or not documents can
    * be made of it. */
  function WritesOf(p: Plan, e: RowEvent): seq<Source.Write>
    requires p.Compiled()
  {
    var removed :=
      if (e.op.Delete? || e.op.Update?) && Identified(p, e.before) then
        [Source.Write(KeyOf(p.digest, Identity(p, e.before.value)), Absent)]
      else [];
    var added :=
      if !e.op.Delete? && Identified(p, e.after) then
        [Source.Write(KeyOf(p.digest, Identity(p, e.after.value)), HeldOf(p, e.after.value))]
      else [];
    if removed != [] && added != [] && removed[0].key == added[0].key then added else removed + added
  }

  /** The event as a change of the protocol. */
  function EffectOf(p: Plan, e: RowEvent): Source.Effect
    requires p.Compiled()
  {
    if Applied(p, e).Some? then Source.Encoded(WritesOf(p, e)) else Source.Unencoded(WritesOf(p, e))
  }

  lemma AppliedWrites(p: Plan, e: RowEvent)
    requires p.Compiled() && p.dialect.Elasticsearch? && Applied(p, e).Some?
    ensures var ws, docs := WritesOf(p, e), Applied(p, e).value;
            && |ws| == |docs| && 1 <= |ws| <= 2
            && forall i :: 0 <= i < |ws| ==> docs[i] == Source.DocFor(ws[i], e.version) && !ws[i].value.Unencodable?
  {
  }

  lemma KeysAreWrittenOnce(p: Plan, e: RowEvent)
    requires p.Compiled()
    ensures var ws := WritesOf(p, e);
            forall i, j :: 0 <= i < |ws| && 0 <= j < |ws| && ws[i].key == ws[j].key ==> i == j
  {
    assert |WritesOf(p, e)| <= 2;
  }

  /** For Elasticsearch, an event is one change of the protocol: never two writes to one key, and the
    * documents, when it makes any, are those of one or two writes under one version. */
  lemma ApplyMakesAChange(p: Plan, e: RowEvent, tx: Source.TxId)
    requires p.Compiled() && p.dialect.Elasticsearch?
    ensures Source.WellFormed(Source.Change(tx, EffectOf(p, e)))
    ensures Applied(p, e).Some? <==> EffectOf(p, e).Encoded?
    ensures Applied(p, e).Some? ==>
              Applied(p, e).value == Source.DocsFor(EffectOf(p, e).writes, e.version) &&
                  1 <= |EffectOf(p, e).writes| <= 2
  {
    KeysAreWrittenOnce(p, e);
    if Applied(p, e).Some? {
      AppliedWrites(p, e);
      assert Applied(p, e).value == Source.DocsFor(WritesOf(p, e), e.version);
    }
  }

  /** Every row is stored under its identity; some may have no body. */
  ghost predicate Stored(p: Plan, rows: Rows)
    requires p.Compiled()
  {
    forall id :: id in rows ==> Identified(p, Some(rows[id])) && Identity(p, rows[id]) == id
  }

  ghost function HeldAt(p: Plan, rows: Rows, k: Bytes): Held
    requires p.Compiled() && Stored(p, rows)
  {
    if id :| id in rows && KeyFor(p)(id) == k then HeldOf(p, rows[id]) else Absent
  }

  lemma HeldAtIs(p: Plan, rows: Rows, ids: set<seq<Bytes>>, id: seq<Bytes>)
    requires p.Compiled() && Stored(p, rows) && Rekeying.TellsApart(KeyFor(p), ids) && rows.Keys <= ids && id in ids
    ensures HeldAt(p, rows, KeyFor(p)(id)) == if id in rows then HeldOf(p, rows[id]) else Absent
  {
  }

  lemma ChangesStore(p: Plan, rows: Rows, e: RowEvent, rows': Rows)
    requires p.Compiled() && Stored(p, rows) && Changes(p, rows, e, rows')
    ensures Stored(p, rows')
  {
  }

  lemma NotWritten(p: Plan, e: RowEvent, k: Bytes)
    requires p.Compiled() && Source.Find(WritesOf(p, e), k).None?
    ensures (e.op.Delete? || e.op.Update?) && Identified(p, e.before) ==> KeyFor(p)(Identity(p, e.before.value)) != k
    ensures !e.op.Delete? && Identified(p, e.after) ==> KeyFor(p)(Identity(p, e.after.value)) != k
  {
  }

  lemma OtherRowsStay(p: Plan, rows: Rows, e: RowEvent, rows': Rows, id: seq<Bytes>)
    requires p.Compiled() && Changes(p, rows, e, rows') && Source.Find(WritesOf(p, e), KeyFor(p)(id)).None?
    ensures id in rows <==> id in rows'
    ensures id in rows ==> rows'[id] == rows[id]
  {
    NotWritten(p, e, KeyFor(p)(id));
  }

  lemma OtherKeysStay(p: Plan, rows: Rows, e: RowEvent, rows': Rows, k: Bytes)
    requires p.Compiled() && Stored(p, rows) && Changes(p, rows, e, rows') && Stored(p, rows')
    requires Rekeying.TellsApart(KeyFor(p), rows.Keys + rows'.Keys) && Source.Find(WritesOf(p, e), k).None?
    ensures HeldAt(p, rows', k) == HeldAt(p, rows, k)
  {
    if id :| id in rows.Keys + rows'.Keys && KeyFor(p)(id) == k {
      OtherRowsStay(p, rows, e, rows', id);
      HeldAtIs(p, rows, rows.Keys + rows'.Keys, id);
      HeldAtIs(p, rows', rows.Keys + rows'.Keys, id);
    }
  }

  lemma NewRowIsWritten(p: Plan, e: RowEvent)
    requires p.Compiled() && !e.op.Delete? && Identified(p, e.after)
    ensures Source.Find(WritesOf(p, e), KeyFor(p)(Identity(p, e.after.value))) == Some(HeldOf(p, e.after.value))
  {
  }

  lemma OldRowIsWritten(p: Plan, e: RowEvent)
    requires p.Compiled() && (e.op.Delete? || e.op.Update?) && Identified(p, e.before)
    requires e.op.Update? && Identified(p, e.after) ==>
               KeyFor(p)(Identity(p, e.after.value)) != KeyFor(p)(Identity(p, e.before.value))
    ensures Source.Find(WritesOf(p, e), KeyFor(p)(Identity(p, e.before.value))) == Some(Absent)
  {
  }

  /** Encodable or not, an event leaves under every key what its change says, and everything else alone. */
  lemma EffectIsTheChange(p: Plan, rows: Rows, e: RowEvent, rows': Rows, k: Bytes)
    requires p.Compiled() && Stored(p, rows) && Changes(p, rows, e, rows')
    requires Rekeying.TellsApart(KeyFor(p), rows.Keys + rows'.Keys)
    ensures Stored(p, rows')
    ensures HeldAt(p, rows', k) ==
            match Source.Find(EffectOf(p, e).writes, k) case Some(v) => v case None => HeldAt(p, rows, k)
  {
    ChangesStore(p, rows, e, rows');
    if Source.Find(WritesOf(p, e), k).None? {
      OtherKeysStay(p, rows, e, rows', k);
    } else if !e.op.Delete? && KeyFor(p)(Identity(p, e.after.value)) == k {
      NewRowIsWritten(p, e);
      HeldAtIs(p, rows', rows.Keys + rows'.Keys, Identity(p, e.after.value));
    } else {
      OldRowIsWritten(p, e);
      HeldAtIs(p, rows', rows.Keys + rows'.Keys, Identity(p, e.before.value));
    }
  }

  /** The update moves a row to another key. */
  predicate MovesKey(p: Plan, e: RowEvent)
    requires p.Compiled()
  {
    e.op.Update? && p.Wide(e.before) && p.Wide(e.after) && KeyOfRow(p, e.before.value) != KeyOfRow(p, e.after.value)
  }

  /** ClickHouse can be sent an event's documents exactly when the event does not move a row to
    * another key: the tombstone such a move makes has no body, which an insert needs. */
  lemma ClickHouseTakesExactly(p: Plan, e: RowEvent)
    requires p.Compiled() && p.dialect.ClickHouse? && Applied(p, e).Some?
    ensures RowText.AllObjects(Applied(p, e).value) <==> !MovesKey(p, e)
  {
    var docs := Applied(p, e).value;
    if e.op.Delete? {
      BodyIsObject(p.utf8, p.keyFields, e.before.value);
      assert RowText.IsObject(docs[0].body);
    } else {
      BodyIsObject(p.utf8, p.fields, e.after.value);
      if MovesKey(p, e) {
        assert !RowText.IsObject(docs[0].body);
      } else {
        assert RowText.IsObject(docs[0].body);
      }
    }
  }

  lemma PutIsSendable(p: Plan, e: RowEvent, d: Doc)
    requires p.Compiled() && (d.deleted || Puts(p, e, d))
    ensures BulkText.Sendable(d) <==> d.key != []
  {
    if !d.deleted {
      BodyIsObject(p.utf8, p.fields, e.after.value);
    }
  }

  /** Elasticsearch can be sent every event's documents, except those of a row whose one key column
    * is an empty text. */
  lemma ElasticsearchTakesExactly(p: Plan, e: RowEvent, i: nat)
    requires p.Compiled() && p.dialect.Elasticsearch? && Applied(p, e).Some? && i < |Applied(p, e).value|
    ensures BulkText.Sendable(Applied(p, e).value[i]) <==> Applied(p, e).value[i].key != []
  {
    AppliedShape(p, e);
    PutIsSendable(p, e, Applied(p, e).value[i]);
  }
}

/** Showing a collection under different names for its members. */
module Rekeying {
  import opened Documents

  /** Different members have different names. */
  ghost predicate TellsApart<T(!new)>(key: T -> Bytes, ids: set<T>) {
    forall a, b :: a in ids && b in ids && key(a) == key(b) ==> a == b
  }

  /** Every member is seen under its name, and nothing else is seen. */
  ghost predicate Mirrors<T(!new)>(key: T -> Bytes, bodies: map<T, Bytes>, seen: map<Bytes, Bytes>) {
    && (forall id :: id in bodies ==> key(id) in seen && seen[key(id)] == bodies[id])
    && (forall k :: k in seen ==> exists id :: id in bodies && key(id) == k)
  }

  lemma FewerTellApart<T(!new)>(key: T -> Bytes, ids: set<T>, fewer: set<T>)
    requires TellsApart(key, ids) && fewer <= ids
    ensures TellsApart(key, fewer)
  {
  }

  lemma {:induction false} PutMirrors<T(!new)>(key: T -> Bytes, bodies: map<T, Bytes>, seen: map<Bytes, Bytes>, id: T,
                                               body: Bytes)
    requires Mirrors(key, bodies, seen) && TellsApart(key, bodies.Keys + {id})
    ensures Mirrors(key, bodies[id := body], seen[key(id) := body])
  {
    var bodies', seen' := bodies[id := body], seen[key(id) := body];
    forall k | k in seen' ensures exists i :: i in bodies' && key(i) == k {
      if k == key(id) {
        assert id in bodies';
      } else {
        var i :| i in bodies && key(i) == k;
        assert i in bodies';
      }
    }
  }

  lemma {:induction false} DropMirrors<T(!new)>(key: T -> Bytes, bodies: map<T, Bytes>, seen: map<Bytes, Bytes>, id: T)
    requires Mirrors(key, bodies, seen) && id in bodies && TellsApart(key, bodies.Keys)
    ensures Mirrors(key, bodies - {id}, seen - {key(id)})
  {
    var bodies', seen' := bodies - {id}, seen - {key(id)};
    forall k | k in seen' ensures exists i :: i in bodies' && key(i) == k {
      var i :| i in bodies && key(i) == k;
      assert i in bodies';
    }
  }
}
