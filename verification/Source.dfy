/** The table being copied, by the keys its rows become, and the committed changes that will ever be
 * made to it. A change is one row event; a key-changing update makes two writes. A row event that
 * cannot be turned into documents still changes the table. */
module Source {
  import opened Documents

  type TxId = nat
  type Position = set<TxId>

  datatype Write = Write(key: Bytes, value: Held)

  /** What a change does to the table, and whether the mapping makes documents of it. */
  datatype Effect = Encoded(writes: seq<Write>) | Unencoded(writes: seq<Write>)

  datatype Change = Change(tx: TxId, effect: Effect)

  /** `rank` places each key in the table's scan order; keys are compared through it only. */
  datatype Table = Table(initial: map<Bytes, Held>, changes: seq<Change>, rank: Bytes -> real)

  function DocFor(w: Write, version: nat): Doc {
    Doc(w.key, version, !w.value.Body?, if w.value.Body? then w.value.body else [])
  }

  function DocsFor(ws: seq<Write>, version: nat): (ds: seq<Doc>)
    ensures |ds| == |ws| && forall i :: 0 <= i < |ws| ==> ds[i] == DocFor(ws[i], version)
  {
    seq(|ws|, i requires 0 <= i < |ws| => DocFor(ws[i], version))
  }

  /** What a change leaves under a key, or None when it does not mention the key. */
  function Put(c: Change, k: Bytes): Option<Held> { Find(c.effect.writes, k) }

  function Find(ws: seq<Write>, k: Bytes): (r: Option<Held>)
    ensures r.Some? ==> Write(k, r.value) in ws
    ensures r.None? ==> forall w :: w in ws ==> w.key != k
  {
    if ws == [] then None
    else if ws[0].key == k then Some(ws[0].value)
    else Find(ws[1..], k)
  }

  /** A change never mentions one key twice, and documents are made only of rows that can be encoded. */
  ghost predicate WellFormed(c: Change) {
    && (forall v, w :: v in c.effect.writes && w in c.effect.writes && v.key == w.key ==> v == w)
    && (c.effect.Encoded? ==> forall w :: w in c.effect.writes ==> !w.value.Unencodable?)
  }

  ghost predicate Valid(t: Table) {
    && (forall i :: 0 <= i < |t.changes| ==> WellFormed(t.changes[i]))
    && (forall j, k :: t.rank(j) == t.rank(k) ==> j == k)
  }

  /** What the source holds under a key once the first n changes are committed. */
  function ValueAt(t: Table, n: nat, k: Bytes): Held
    requires n <= |t.changes|
  {
    if n == 0 then (if k in t.initial then t.initial[k] else Absent)
    else match Put(t.changes[n - 1], k)
      case Some(v) => v
      case None => ValueAt(t, n - 1, k)
  }

  ghost predicate Untouched(t: Table, lo: nat, hi: nat, k: Bytes)
    requires hi <= |t.changes|
  {
    forall i :: lo <= i < hi ==> Put(t.changes[i], k).None?
  }

  lemma {:induction false} UntouchedKeepsValue(t: Table, lo: nat, hi: nat, k: Bytes)
    requires lo <= hi <= |t.changes| && Untouched(t, lo, hi, k)
    ensures ValueAt(t, lo, k) == ValueAt(t, hi, k)
    decreases hi
  {
    if lo < hi {
      UntouchedKeepsValue(t, lo, hi - 1, k);
      assert Put(t.changes[hi - 1], k).None?;
    }
  }

  // What documents can tell ---------------------------------------------------------------------

  /** Two readings of the log for a stream whose scan began after s changes. `Latest` is the source
    * itself, but knows nothing of a key whose last change since then made no documents. `Spoken` is what
    * the last change since then that did make documents put under the key, whatever came after it. */
  datatype Reading = Latest | Spoken

  /** What a reading says the source holds under a key after n changes; None when it cannot tell. */
  function Expected(t: Table, r: Reading, s: nat, n: nat, k: Bytes): Option<Held>
    requires n <= |t.changes|
  {
    if n <= s || n == 0 then (if r.Spoken? || ValueAt(t, n, k).Unencodable? then None else Some(ValueAt(t, n, k)))
    else if !Mentions(t, r, n - 1, k) then Expected(t, r, s, n - 1, k)
    else if t.changes[n - 1].effect.Encoded? then Put(t.changes[n - 1], k)
    else None
  }

  /** The reading takes notice of what the change says about the key. */
  predicate Mentions(t: Table, r: Reading, i: nat, k: Bytes)
    requires i < |t.changes|
  {
    Put(t.changes[i], k).Some? && (t.changes[i].effect.Encoded? || r.Latest?)
  }

  ghost predicate Silent(t: Table, r: Reading, lo: nat, hi: nat, k: Bytes)
    requires hi <= |t.changes|
  {
    forall i :: lo <= i < hi ==> !Mentions(t, r, i, k)
  }

  predicate Allows(expected: Option<Held>, v: Held) { expected.None? || expected.value == v }

  /** The reading allows this value for the key at some moment from lo to hi. */
  ghost predicate FreshIn(t: Table, r: Reading, s: nat, v: Held, k: Bytes, lo: nat, hi: nat)
    requires hi <= |t.changes|
  {
    exists m: nat :: lo <= m <= hi && Allows(Expected(t, r, s, m, k), v)
  }

  ghost predicate Fresh(t: Table, s: nat, v: Held, k: Bytes, lo: nat, hi: nat)
    requires hi <= |t.changes|
  {
    FreshIn(t, Latest, s, v, k, lo, hi) && FreshIn(t, Spoken, s, v, k, lo, hi)
  }

  /** What the latest reading tells is true, and it never tells of a row that cannot be encoded. */
  lemma {:induction false} LatestIsTrue(t: Table, s: nat, n: nat, k: Bytes)
    requires Valid(t) && n <= |t.changes|
    ensures Expected(t, Latest, s, n, k).Some? ==> Expected(t, Latest, s, n, k) == Some(ValueAt(t, n, k))
    ensures ValueAt(t, n, k).Unencodable? ==> Expected(t, Latest, s, n, k).None?
  {
    if n > s && n > 0 {
      LatestIsTrue(t, s, n - 1, k);
      assert WellFormed(t.changes[n - 1]);
    }
  }

  /** The last change of the key from s to n made no documents. */
  ghost predicate LastMadeNone(t: Table, s: nat, n: nat, k: Bytes)
    requires n <= |t.changes|
  {
    exists i :: s <= i < n && IsLast(t, i, n, k) && t.changes[i].effect.Unencoded?
  }

  ghost predicate IsLast(t: Table, i: nat, n: nat, k: Bytes)
    requires i < n <= |t.changes|
  {
    Put(t.changes[i], k).Some? && Untouched(t, i + 1, n, k)
  }

  lemma LastIsNewest(t: Table, i: nat, n: nat, k: Bytes)
    requires i < n <= |t.changes|
    ensures Put(t.changes[n - 1], k).Some? ==> (IsLast(t, i, n, k) <==> i == n - 1)
    ensures Put(t.changes[n - 1], k).None? && i < n - 1 ==> (IsLast(t, i, n, k) <==> IsLast(t, i, n - 1, k))
    ensures Put(t.changes[n - 1], k).None? && i == n - 1 ==> !IsLast(t, i, n, k)
  {
  }

  lemma LastMadeNoneNext(t: Table, s: nat, n: nat, k: Bytes)
    requires s < n <= |t.changes|
    ensures LastMadeNone(t, s, n, k) <==>
            if Put(t.changes[n - 1], k).Some? then t.changes[n - 1].effect.Unencoded? else LastMadeNone(t, s, n - 1, k)
  {
    forall i | s <= i < n ensures IsLast(t, i, n, k) <==>
        if Put(t.changes[n - 1], k).Some? then i == n - 1 else i < n - 1 && IsLast(t, i, n - 1, k)
    {
      LastIsNewest(t, i, n, k);
    }
    assert s <= n - 1;
  }

  /** Exactly when it cannot tell: the row cannot be encoded, or the last change of the key since the
    * scan began made no documents. */
  lemma {:induction false} LatestExactlyWhen(t: Table, s: nat, n: nat, k: Bytes)
    requires Valid(t) && s <= n <= |t.changes|
    ensures Expected(t, Latest, s, n, k).None? <==> ValueAt(t, n, k).Unencodable? || LastMadeNone(t, s, n, k)
  {
    if n > s {
      LatestExactlyWhen(t, s, n - 1, k);
      LastMadeNoneNext(t, s, n, k);
      assert WellFormed(t.changes[n - 1]);
    }
  }

  /** Exactly when the other reading tells a value: some change since the scan began made documents of
    * the key, and the last to do so put that value. */
  lemma {:induction false} SpokenExactlyWhen(t: Table, s: nat, n: nat, k: Bytes, v: Held)
    requires s <= n <= |t.changes|
    ensures Expected(t, Spoken, s, n, k) == Some(v) <==> LastMade(t, s, n, k, v)
  {
    if n > s {
      SpokenExactlyWhen(t, s, n - 1, k, v);
      if Mentions(t, Spoken, n - 1, k) {
        assert Silent(t, Spoken, n, n, k);
      }
    }
  }

  /** The last change of the key from s to n that made documents put this. */
  ghost predicate LastMade(t: Table, s: nat, n: nat, k: Bytes, v: Held)
    requires n <= |t.changes|
  {
    exists i :: s <= i < n && Mentions(t, Spoken, i, k) && Put(t.changes[i], k) == Some(v) &&
        Silent(t, Spoken, i + 1, n, k)
  }

  lemma {:induction false} SilentKeepsExpected(t: Table, r: Reading, s: nat, lo: nat, hi: nat, k: Bytes)
    requires lo <= hi <= |t.changes| && Silent(t, r, lo, hi, k)
    ensures Expected(t, r, s, lo, k) == Expected(t, r, s, hi, k)
    decreases hi
  {
    if lo < hi {
      SilentKeepsExpected(t, r, s, lo, hi - 1, k);
      assert !Mentions(t, r, hi - 1, k);
    }
  }

  lemma FreshLater(t: Table, r: Reading, s: nat, v: Held, k: Bytes, lo: nat, lo': nat, hi: nat, hi': nat)
    requires hi <= hi' <= |t.changes| && lo <= lo' <= hi'
    requires FreshIn(t, r, s, v, k, lo, hi) && Silent(t, r, lo, lo', k)
    ensures FreshIn(t, r, s, v, k, lo', hi')
  {
    var m: nat :| lo <= m <= hi && Allows(Expected(t, r, s, m, k), v);
    if m < lo' {
      SilentKeepsExpected(t, r, s, m, lo', k);
      assert Allows(Expected(t, r, s, lo', k), v);
    }
  }

  lemma ExpectedAfter(t: Table, r: Reading, s: nat, i: nat, k: Bytes)
    requires Valid(t) && i < |t.changes| && Put(t.changes[i], k).Some?
    ensures t.changes[i].effect.Encoded? ==> Allows(Expected(t, r, s, i + 1, k), Put(t.changes[i], k).value)
    ensures t.changes[i].effect.Unencoded? && r.Latest? && s <= i ==> Expected(t, r, s, i + 1, k).None?
  {
    assert WellFormed(t.changes[i]);
  }

  /** The value put by a change that makes documents is current from just after it, for as long as the
    * key is left alone. */
  lemma PutIsFreshIn(t: Table, r: Reading, s: nat, i: nat, k: Bytes, lo: nat, hi: nat)
    requires Valid(t) && i < hi <= |t.changes| && lo <= hi && Put(t.changes[i], k).Some?
    requires t.changes[i].effect.Encoded? && (lo <= i + 1 || Silent(t, r, i + 1, lo, k))
    ensures FreshIn(t, r, s, Put(t.changes[i], k).value, k, lo, hi)
  {
    ExpectedAfter(t, r, s, i, k);
    if i + 1 < lo {
      SilentKeepsExpected(t, r, s, i + 1, lo, k);
      assert Allows(Expected(t, r, s, lo, k), Put(t.changes[i], k).value);
    }
  }

  lemma PutIsFresh(t: Table, s: nat, i: nat, k: Bytes, lo: nat, hi: nat)
    requires Valid(t) && i < hi <= |t.changes| && lo <= i + 1 && Put(t.changes[i], k).Some?
    requires t.changes[i].effect.Encoded?
    ensures Fresh(t, s, Put(t.changes[i], k).value, k, lo, hi)
  {
    PutIsFreshIn(t, Latest, s, i, k, lo, hi);
    PutIsFreshIn(t, Spoken, s, i, k, lo, hi);
  }

  /** What a scan sees, at a moment when nothing but scanning has been recorded: the value, or nothing
    * in place of a row that cannot be encoded. */
  lemma ScanIsFresh(t: Table, s: nat, now: nat, k: Bytes)
    requires Valid(t) && s <= now <= |t.changes|
    ensures Fresh(t, s, if ValueAt(t, now, k).Body? then ValueAt(t, now, k) else Absent, k, s, now)
  {
    var v := if ValueAt(t, now, k).Body? then ValueAt(t, now, k) else Absent;
    LatestIsTrue(t, s, now, k);
    assert Allows(Expected(t, Latest, s, now, k), v);
    assert Allows(Expected(t, Spoken, s, s, k), v);
  }

  lemma FindsEveryWrite(c: Change, w: Write)
    requires WellFormed(c) && w in c.effect.writes
    ensures Put(c, w.key) == Some(w.value)
  {
  }

  /** How many leading changes belong to transactions of the position. */
  function Cut(t: Table, p: Position): (n: nat)
    ensures n <= |t.changes|
    ensures forall i :: 0 <= i < n ==> t.changes[i].tx in p
    ensures n < |t.changes| ==> t.changes[n].tx !in p
  {
    CutFrom(t, p, 0)
  }

  function CutFrom(t: Table, p: Position, i: nat): (n: nat)
    requires i <= |t.changes|
    ensures i <= n <= |t.changes|
    ensures forall j :: i <= j < n ==> t.changes[j].tx in p
    ensures n < |t.changes| ==> t.changes[n].tx !in p
    decreases |t.changes| - i
  {
    if i == |t.changes| || t.changes[i].tx !in p then i else CutFrom(t, p, i + 1)
  }

  /** The position holds the transactions of a prefix of the changes and of none after it. */
  ghost predicate IsPrefix(t: Table, p: Position) {
    forall i :: Cut(t, p) <= i < |t.changes| ==> t.changes[i].tx !in p
  }
}
