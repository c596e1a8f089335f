/** The documents a stream writes and the version-guarded destination that keeps them.
 *
 * A destination remembers one document per key and accepts a write only when its version is
 * strictly greater than the remembered one; a deletion is remembered as a tombstone. */
module Documents {
  type Byte = b: int | 0 <= b < 256
  type Bytes = seq<Byte>

  datatype Option<+T> = None | Some(value: T)

  predicate Rising(vs: seq<nat>) {
    forall i, j :: 0 <= i < j < |vs| ==> vs[i] < vs[j]
  }

  /** What a table holds under a key: no row, a row with this body, or a row the mapping cannot encode. */
  datatype Held = Absent | Body(body: Bytes) | Unencodable

  /** A place in the scan order past a cursor, where None is before everything. */
  predicate Past(at: Option<real>, r: real) { at.None? || r > at.value }

  datatype Doc = Doc(key: Bytes, version: nat, deleted: bool, body: Bytes) {
    /** What the document contributes to a batch's byte budget. */
    function Size(): nat { |key| + |body| }

    /** What a reader of the destination sees once the document is the remembered one. */
    function Value(): Held { if deleted then Absent else Body(body) }
  }

  lemma Grouped<T>(a: seq<T>, b: seq<T>, c: seq<T>)
    ensures a + b + c == a + (b + c)
  {
  }

  lemma DropConcat<T>(a: seq<T>, b: seq<T>, n: nat)
    requires n <= |a|
    ensures (a + b)[n..] == a[n..] + b
  {
  }

  lemma Snoc<T>(a: seq<T>, b: seq<T>)
    requires b != []
    ensures a + b == a + b[..|b| - 1] + [b[|b| - 1]]
    ensures b == b[..|b| - 1] + [b[|b| - 1]]
  {
  }

  type Dest = map<Bytes, Doc>

  function Lookup(dest: Dest, k: Bytes): Held {
    if k in dest then dest[k].Value() else Absent
  }

  /** One request reaching the destination. */
  function Deliver(dest: Dest, d: Doc): Dest {
    if d.key in dest && dest[d.key].version >= d.version then dest else dest[d.key := d]
  }

  function DeliverAll(dest: Dest, ds: seq<Doc>): Dest {
    if ds == [] then dest else Deliver(DeliverAll(dest, ds[..|ds| - 1]), ds[|ds| - 1])
  }

  /** The destination holds this document or a newer one for its key. */
  predicate Holds(dest: Dest, d: Doc) {
    d.key in dest && dest[d.key].version >= d.version
  }

  ghost predicate Keyed(dest: Dest) {
    forall k :: k in dest ==> dest[k].key == k
  }

  /** No two different documents compete for one key with one version. */
  ghost predicate Distinct(ds: set<Doc>) {
    forall a, b :: a in ds && b in ds && a.key == b.key && a.version == b.version ==> a == b
  }

  function ToSet(ds: seq<Doc>): (s: set<Doc>)
    ensures forall d :: d in s <==> d in ds
  {
    set d | d in ds
  }

  lemma {:induction false} DeliverAllAppend(dest: Dest, a: seq<Doc>, b: seq<Doc>)
    ensures DeliverAll(dest, a + b) == DeliverAll(DeliverAll(dest, a), b)
  {
    if b == [] {
      assert a + b == a;
    } else {
      assert (a + b)[..|a + b| - 1] == a + b[..|b| - 1];
      DeliverAllAppend(dest, a, b[..|b| - 1]);
    }
  }

  lemma FromNothing(ds: seq<Doc>, s: set<Doc>)
    requires forall d :: d in ds ==> d in s
    ensures s == {} ==> ds == []
  {
    if ds != [] {
      assert ds[0] in s;
    }
  }

  /** Whatever arrives, a key's version never falls, a key never disappears, and what is
    * remembered is something that was remembered before or something that arrived. */
  lemma {:induction false} DeliveryOnlyAdvances(dest: Dest, ds: seq<Doc>, k: Bytes)
    requires Keyed(dest)
    ensures Keyed(DeliverAll(dest, ds))
    ensures k in dest ==> k in DeliverAll(dest, ds) && DeliverAll(dest, ds)[k].version >= dest[k].version
    ensures k in DeliverAll(dest, ds) ==>
              (k in dest && DeliverAll(dest, ds)[k] == dest[k]) || DeliverAll(dest, ds)[k] in ds
    ensures forall d :: d in ds && d.key == k ==> Holds(DeliverAll(dest, ds), d)
  {
    if ds != [] {
      DeliveryOnlyAdvances(dest, ds[..|ds| - 1], k);
      assert ds == ds[..|ds| - 1] + [ds[|ds| - 1]];
    }
  }

  /** Every key ends at the highest-version document that was there or ever arrived. */
  lemma HighestVersionWins(dest: Dest, ds: seq<Doc>, k: Bytes)
    requires Keyed(dest)
    ensures k in DeliverAll(dest, ds) <==> k in dest || exists d :: d in ds && d.key == k
    ensures k in DeliverAll(dest, ds) ==>
              var winner := DeliverAll(dest, ds)[k];
              && (winner in ds || (k in dest && winner == dest[k]))
              && (k in dest ==> dest[k].version <= winner.version)
              && forall d :: d in ds && d.key == k ==> d.version <= winner.version
  {
    DeliveryOnlyAdvances(dest, ds, k);
  }

  /** Two deliveries of the same documents, in any orders and with any repetitions, agree. */
  lemma {:induction false} DeliveryOrderIsIrrelevant(dest: Dest, ds: seq<Doc>, es: seq<Doc>)
    requires Keyed(dest) && ToSet(ds) == ToSet(es)
    requires Distinct(ToSet(ds) + dest.Values)
    ensures DeliverAll(dest, ds) == DeliverAll(dest, es)
  {
    forall k ensures k in DeliverAll(dest, ds) <==> k in DeliverAll(dest, es)
      ensures k in DeliverAll(dest, ds) ==> DeliverAll(dest, ds)[k] == DeliverAll(dest, es)[k]
    {
      DeliveryOnlyAdvances(dest, ds, k);
      DeliveryOnlyAdvances(dest, es, k);
      assert forall d :: d in ds <==> d in ToSet(ds);
      assert forall d :: d in es <==> d in ToSet(es);
      if k in DeliverAll(dest, ds) && k in DeliverAll(dest, es) {
        var a, b := DeliverAll(dest, ds)[k], DeliverAll(dest, es)[k];
        assert a in ToSet(ds) + dest.Values && b in ToSet(ds) + dest.Values;
        assert a.key == k && b.key == k;
      }
    }
  }

  /** A document that arrives after a newer one for its key changes nothing. */
  lemma LateArrivalIsHarmless(dest: Dest, ds: seq<Doc>, late: Doc, newer: Doc)
    requires Keyed(dest) && newer in ds && newer.key == late.key && newer.version >= late.version
    ensures DeliverAll(dest, ds + [late]) == DeliverAll(dest, ds)
  {
    DeliveryOnlyAdvances(dest, ds, late.key);
    DeliverAllAppend(dest, ds, [late]);
    assert [late][..0] == [];
    assert DeliverAll(DeliverAll(dest, ds), [late]) == Deliver(DeliverAll(dest, ds), late);
  }
}
