/** What holds over every run of the protocol. */
module Convergence {
  import opened Documents
  import opened Source
  import opened Checkpoints
  import opened Batching
  import opened Protocol
  import opened Invariant
  import opened AckSteps
  import opened Steps

  /** The invariant holds in every world of every run, and of what a reservation under way may make of
    * its row. */
  lemma {:induction false} RunKeeps(t: Table, lim: Limits, ws: seq<World>, ls: seq<Label>, n: nat)
    requires IsRun(t, lim, ws, ls) && n < |ws|
    ensures Safe(t, ws[n])
  {
    if n == 0 {
      InitInv(t, ws[0]);
    } else {
      RunKeeps(t, lim, ws, ls, n - 1);
      assert StepAt(t, lim, ws, ls, n - 1);
      StepKeepsSafe(t, lim, ws[n - 1], ls[n - 1], ws[n]);
    }
  }

  // Convergence ---------------------------------------------------------------------------------

  /** A document for the key was refused, and the destination holds nothing as new. */
  ghost predicate Unresolved(c: Core, k: Bytes) {
    exists r :: Refused(r) in c.dead && r.key == k && !Holds(c.dest, r)
  }

  /** A crash skipped the key's row, and nothing was written for it since. */
  predicate Missed(w: World, k: Bytes) {
    k in w.skipped && k !in w.core.dest
  }

  lemma ResolvedIsNotOverruled(c: Core, k: Bytes)
    requires Keyed(c.dest) && !Unresolved(c, k)
    ensures k in c.dest ==> !Overruled(c.dead, c.dest[k])
    ensures k !in c.dest ==> !DeadKey(c.dead, k)
  {
  }

  lemma ResolvedKeyIsFresh(t: Table, w: World, k: Bytes)
    requires Inv(t, w) && w.core.row.done && !Unresolved(w.core, k) && !Missed(w, k)
    ensures KeyFresh(t, w, Lookup(w.core.dest, k), k)
  {
    assert Ok(t, w, k);
    ResolvedIsNotOverruled(w.core, k);
    if k in w.core.dest {
      var d := w.core.dest[k];
      assert d in w.core.sent && Live(w.core.dest, d);
      assert DocFresh(t, w, d);
    }
  }

  /** No document tells how the key stands after n changes: its row cannot be encoded, or its last change
    * since the scan began could not be. */
  ghost predicate Untold(t: Table, row: Checkpoint, n: nat, k: Bytes)
    requires n <= |t.changes|
  {
    ValueAt(t, n, k).Unencodable? || LastMadeNone(t, Since(t, row), n, k)
  }

  /** That was so at some moment since the saved position. */
  ghost predicate Obscured(t: Table, w: World, k: Bytes)
    requires w.now <= |t.changes|
  {
    exists m: nat :: Low(t, w.core.row) <= m <= w.now && Untold(t, w.core.row, m, k)
  }

  lemma FreshIsTrue(t: Table, w: World, v: Held, k: Bytes)
    requires Valid(t) && w.now <= |t.changes| && Since(t, w.core.row) <= Low(t, w.core.row) && KeyFresh(t, w, v, k)
    ensures Obscured(t, w, k) || exists m: nat :: Low(t, w.core.row) <= m <= w.now && v == ValueAt(t, m, k)
  {
    var s := Since(t, w.core.row);
    var m: nat :| Low(t, w.core.row) <= m <= w.now && Allows(Expected(t, Latest, s, m, k), v);
    LatestIsTrue(t, s, m, k);
    LatestExactlyWhen(t, s, m, k);
    if Expected(t, Latest, s, m, k).None? {
      assert Untold(t, w.core.row, m, k);
    } else {
      assert v == ValueAt(t, m, k);
    }
  }

  /** At every moment of every run whose scan is done, whatever failed, crashed, was replayed or
    * arrived late: each key has the value the source had for it at some prefix of the log no shorter
    * than the saved position. The exceptions: a document was refused that is newer than what the
    * destination holds, a crash skipped the key's row and nothing was written for it since, or at some
    * moment since the saved position no document told how the key stands. */
  lemma EveryKeyIsAtSomePrefix(t: Table, lim: Limits, ws: seq<World>, ls: seq<Label>, n: nat, k: Bytes)
    requires IsRun(t, lim, ws, ls) && n < |ws|
    requires ws[n].now <= |t.changes| && ws[n].core.row.done && !Unresolved(ws[n].core, k) && !Missed(ws[n], k)
    requires !Obscured(t, ws[n], k)
    ensures exists m: nat :: Low(t, ws[n].core.row) <= m <= ws[n].now && Lookup(ws[n].core.dest, k) == ValueAt(t, m, k)
  {
    RunKeeps(t, lim, ws, ls, n);
    ResolvedKeyIsFresh(t, ws[n], k);
    FreshIsTrue(t, ws[n], Lookup(ws[n].core.dest, k), k);
  }

  lemma SpokenOrSilent(t: Table, s: nat, n: nat, k: Bytes)
    requires s <= n <= |t.changes|
    ensures Expected(t, Spoken, s, n, k).None? <==> Silent(t, Spoken, s, n, k)
    ensures Expected(t, Spoken, s, n, k).Some? ==> LastMade(t, s, n, k, Expected(t, Spoken, s, n, k).value)
  {
    if Expected(t, Spoken, s, n, k).Some? {
      SpokenExactlyWhen(t, s, n, k, Expected(t, Spoken, s, n, k).value);
    } else if !Silent(t, Spoken, s, n, k) {
      var i := LastTouch(t, Spoken, s, n, k);
      SpokenExactlyWhen(t, s, n, k, Put(t.changes[i], k).value);
    }
  }

  lemma FreshIsSpoken(t: Table, w: World, v: Held, k: Bytes)
    requires w.now <= |t.changes| && Since(t, w.core.row) <= Low(t, w.core.row) && KeyFresh(t, w, v, k)
    ensures exists m: nat :: Low(t, w.core.row) <= m <= w.now && SpokenAt(t, w.core.row, m, k, v)
  {
    var s := Since(t, w.core.row);
    var m: nat :| Low(t, w.core.row) <= m <= w.now && Allows(Expected(t, Spoken, s, m, k), v);
    SpokenExactlyWhen(t, s, m, k, v);
    SpokenOrSilent(t, s, m, k);
    assert SpokenAt(t, w.core.row, m, k, v);
  }

  /** After n changes this is what the last change of the key since the scan began that made documents put,
    * or there was none. */
  ghost predicate SpokenAt(t: Table, row: Checkpoint, n: nat, k: Bytes, v: Held)
    requires n <= |t.changes|
  {
    LastMade(t, Since(t, row), n, k, v) || Silent(t, Spoken, Since(t, row), n, k)
  }

  /** And whether or not documents told everything: at every moment after the scan a key shows what its
    * last encodable change put at some prefix of the log no shorter than the saved position, unless it had
    * none up to there. */
  lemma EveryKeyShowsAnEncodedChange(t: Table, lim: Limits, ws: seq<World>, ls: seq<Label>, n: nat, k: Bytes)
    requires IsRun(t, lim, ws, ls) && n < |ws|
    requires ws[n].now <= |t.changes| && ws[n].core.row.done && !Unresolved(ws[n].core, k) && !Missed(ws[n], k)
    ensures exists m: nat :: && Low(t, ws[n].core.row) <= m <= ws[n].now
                             && SpokenAt(t, ws[n].core.row, m, k, Lookup(ws[n].core.dest, k))
  {
    RunKeeps(t, lim, ws, ls, n);
    ResolvedKeyIsFresh(t, ws[n], k);
    FreshIsSpoken(t, ws[n], Lookup(ws[n].core.dest, k), k);
  }

  /** And without any exception, in every world of every run: what the destination shows under a key is
    * nothing, or what the source held there at some moment since the scan began. */
  lemma NothingIsInvented(t: Table, lim: Limits, ws: seq<World>, ls: seq<Label>, n: nat, k: Bytes)
    requires IsRun(t, lim, ws, ls) && n < |ws|
    ensures ws[n].now <= |t.changes|
    ensures Lookup(ws[n].core.dest, k) == Absent || Witnessed(t, ws[n], Lookup(ws[n].core.dest, k), k)
  {
    RunKeeps(t, lim, ws, ls, n);
    if k in ws[n].core.dest {
      StampedIsWitnessed(t, ws[n], ws[n].core.dest[k]);
    }
  }

  lemma StampedIsWitnessed(t: Table, w: World, d: Doc)
    requires w.now <= |t.changes| && RowInv(t, w) && Stamped(t, w, d)
    ensures Witnessed(t, w, d.Value(), d.key)
  {
    if d.version in w.issued && StampedBy(t, w.issued[d.version], d) {
      var i := w.issued[d.version];
      assert ValueAt(t, i + 1, d.key) == d.Value();
    }
  }

  /** Streaming has read and written everything committed so far. */
  ghost predicate Drained(w: World) {
    w.phase.Streaming? && Idle(w.core) && w.phase.from + |w.phase.vers| == w.now
  }

  lemma IdleHandledIsFinished(t: Table, c: Core, i: nat, v: nat)
    requires i < |t.changes| && Idle(c) && Handled(t, c, i, v)
    ensures Finished(t, c, i, v)
  {
    if t.changes[i].effect.Encoded? {
      forall x | x in t.changes[i].effect.writes ensures Settled(c, DocFor(x, v)) {
        assert InHand(c, DocFor(x, v));
      }
    }
  }

  lemma DrainedIsFinished(t: Table, w: World)
    requires w.now <= |t.changes| && StreamInv(t, w) && Drained(w)
    ensures FinishedHere(t, w, Low(t, w.core.row), w.now)
  {
    var from, vers := w.phase.from, w.phase.vers;
    forall j | Low(t, w.core.row) - from <= j < w.now - from ensures Finished(t, w.core, from + j, vers[j]) {
      assert Handled(t, w.core, from + j, vers[j]);
      IdleHandledIsFinished(t, w.core, from + j, vers[j]);
    }
  }

  lemma DrainedKeyIsFresh(t: Table, w: World, k: Bytes)
    requires Inv(t, w) && Drained(w) && !Unresolved(w.core, k) && !Missed(w, k)
    ensures Fresh(t, Since(t, w.core.row), Lookup(w.core.dest, k), k, w.now, w.now)
  {
    DrainedIsFinished(t, w);
    assert Ok(t, w, k);
    ResolvedIsNotOverruled(w.core, k);
    if k in w.core.dest {
      assert w.core.dest[k] in w.core.sent && Live(w.core.dest, w.core.dest[k]);
      FinishedMakesFresh(t, w, w.now, w.core.dest[k]);
    } else {
      FinishedOwesNothing(t, w, w.now, k);
    }
  }

  lemma FreshNowIsTrue(t: Table, row: Checkpoint, n: nat, k: Bytes, u: Held)
    requires Valid(t) && Since(t, row) <= n <= |t.changes| && Fresh(t, Since(t, row), u, k, n, n)
    requires !Untold(t, row, n, k)
    ensures u == ValueAt(t, n, k)
  {
    LatestIsTrue(t, Since(t, row), n, k);
    LatestExactlyWhen(t, Since(t, row), n, k);
  }

  lemma FreshNowIsSpoken(t: Table, s: nat, n: nat, k: Bytes, u: Held, v: Held)
    requires s <= n <= |t.changes| && Fresh(t, s, u, k, n, n) && LastMade(t, s, n, k, v)
    ensures u == v
  {
    SpokenExactlyWhen(t, s, n, k, v);
  }

  lemma DrainedKeyEqualsSource(t: Table, w: World, k: Bytes)
    requires Inv(t, w) && Drained(w) && !Unresolved(w.core, k) && !Missed(w, k)
    requires !Untold(t, w.core.row, w.now, k)
    ensures Lookup(w.core.dest, k) == ValueAt(t, w.now, k)
  {
    DrainedKeyIsFresh(t, w, k);
    FreshNowIsTrue(t, w.core.row, w.now, k, Lookup(w.core.dest, k));
  }

  /** Once a run has drained, the destination is the source, key by key, with the same exceptions: the
    * scan, the changes made while it ran, and every replay included. */
  lemma DrainedEqualsSource(t: Table, lim: Limits, ws: seq<World>, ls: seq<Label>, n: nat, k: Bytes)
    requires IsRun(t, lim, ws, ls) && n < |ws|
    requires Drained(ws[n]) && ws[n].now <= |t.changes| && !Unresolved(ws[n].core, k) && !Missed(ws[n], k)
    requires !Untold(t, ws[n].core.row, ws[n].now, k)
    ensures Lookup(ws[n].core.dest, k) == ValueAt(t, ws[n].now, k)
  {
    RunKeeps(t, lim, ws, ls, n);
    DrainedKeyEqualsSource(t, ws[n], k);
  }

  lemma DrainedKeyIsSpoken(t: Table, w: World, k: Bytes, v: Held)
    requires Inv(t, w) && Drained(w) && !Unresolved(w.core, k) && !Missed(w, k)
    requires LastMade(t, Since(t, w.core.row), w.now, k, v)
    ensures Lookup(w.core.dest, k) == v
  {
    DrainedKeyIsFresh(t, w, k);
    FreshNowIsSpoken(t, Since(t, w.core.row), w.now, k, Lookup(w.core.dest, k), v);
  }

  /** A key that changed since the scan began, in a way that made documents, ends with what the last such
    * change put, however many changes that could not be encoded came after it. */
  lemma DrainedHoldsTheLastEncoded(
      t: Table, lim: Limits, ws: seq<World>, ls: seq<Label>, n: nat, k: Bytes, v: Held)
    requires IsRun(t, lim, ws, ls) && n < |ws|
    requires Drained(ws[n]) && ws[n].now <= |t.changes| && !Unresolved(ws[n].core, k) && !Missed(ws[n], k)
    requires LastMade(t, Since(t, ws[n].core.row), ws[n].now, k, v)
    ensures Lookup(ws[n].core.dest, k) == v
  {
    RunKeeps(t, lim, ws, ls, n);
    DrainedKeyIsSpoken(t, ws[n], k, v);
  }

  /** Every change of the key since the scan began could not be encoded, and there was one: what the
    * destination shows is left to the moment its page was read. */
  ghost predicate LeftToTheScan(t: Table, s: nat, n: nat, k: Bytes)
    requires n <= |t.changes|
  {
    LastMadeNone(t, s, n, k) && Silent(t, Spoken, s, n, k)
  }

  /** The source's value can be encoded, and no later change that could not be encoded hides it: it is
    * what the last change that made documents put. */
  ghost predicate Conveyed(t: Table, s: nat, n: nat, k: Bytes)
    requires n <= |t.changes|
  {
    !ValueAt(t, n, k).Unencodable? && (LastMadeNone(t, s, n, k) ==> LastMade(t, s, n, k, ValueAt(t, n, k)))
  }

  lemma NeverShowsUnencodable(dest: Dest, k: Bytes)
    ensures !Lookup(dest, k).Unencodable?
  {
  }

  /** Exactly when a drained run equals the source at a key: when the value was conveyed. The one family
    * for which the log does not decide is `LeftToTheScan`, and even there never if the row cannot be
    * encoded. */
  lemma DrainedExactlyWhen(t: Table, lim: Limits, ws: seq<World>, ls: seq<Label>, n: nat, k: Bytes)
    requires IsRun(t, lim, ws, ls) && n < |ws|
    requires Drained(ws[n]) && ws[n].now <= |t.changes| && !Unresolved(ws[n].core, k) && !Missed(ws[n], k)
    ensures ValueAt(t, ws[n].now, k).Unencodable? || !LeftToTheScan(t, Since(t, ws[n].core.row), ws[n].now, k) ==>
              (Lookup(ws[n].core.dest, k) == ValueAt(t, ws[n].now, k) <==>
               Conveyed(t, Since(t, ws[n].core.row), ws[n].now, k))
  {
    var w, s := ws[n], Since(t, ws[n].core.row);
    RunKeeps(t, lim, ws, ls, n);
    NeverShowsUnencodable(w.core.dest, k);
    if !LastMadeNone(t, s, w.now, k) && !ValueAt(t, w.now, k).Unencodable? {
      DrainedEqualsSource(t, lim, ws, ls, n, k);
    } else if !Silent(t, Spoken, s, w.now, k) {
      SpokenOrSilent(t, s, w.now, k);
      var v := Expected(t, Spoken, s, w.now, k).value;
      DrainedHoldsTheLastEncoded(t, lim, ws, ls, n, k, v);
      SpokenExactlyWhen(t, s, w.now, k, v);
      SpokenExactlyWhen(t, s, w.now, k, ValueAt(t, w.now, k));
    }
  }

  lemma DrainedEncodedEverything(t: Table, w: World, i: nat)
    requires Inv(t, w) && Drained(w) && w.core.dead == {}
    requires w.core.row.start.Some? && Cut(t, w.core.row.start.value) <= i < w.now
    ensures t.changes[i].effect.Encoded?
  {
    DrainedIsFinished(t, w);
    if i < Low(t, w.core.row) {
      assert Accounted(t, w, i);
    } else {
      assert Finished(t, w.core, w.phase.from + (i - w.phase.from), w.phase.vers[i - w.phase.from]);
    }
  }

  lemma EncodableNext(t: Table, n: nat, k: Bytes)
    requires Valid(t) && n < |t.changes| && t.changes[n].effect.Encoded? && !ValueAt(t, n, k).Unencodable?
    ensures !ValueAt(t, n + 1, k).Unencodable?
  {
    assert WellFormed(t.changes[n]);
  }

  lemma {:induction false} StaysEncodable(t: Table, m: nat, n: nat, k: Bytes)
    requires Valid(t) && m <= n <= |t.changes| && !ValueAt(t, m, k).Unencodable?
    requires forall i :: m <= i < n ==> t.changes[i].effect.Encoded?
    ensures !ValueAt(t, n, k).Unencodable?
  {
    if m < n {
      StaysEncodable(t, m, n - 1, k);
      EncodableNext(t, n - 1, k);
    }
  }

  lemma DrainedAllTold(t: Table, w: World, k: Bytes)
    requires Inv(t, w) && Drained(w) && w.core.dead == {} && w.core.row.start.Some?
    requires forall i :: Cut(t, w.core.row.start.value) <= i < w.now ==> t.changes[i].effect.Encoded?
    ensures !Untold(t, w.core.row, w.now, k)
  {
    assert NoneUnusable(w.core.dead) && OnceEncodable(t, w, k);
    var m: nat :| Since(t, w.core.row) <= m <= w.now && !ValueAt(t, m, k).Unencodable?;
    StaysEncodable(t, m, w.now, k);
  }

  /** With an empty dead-letter record and nothing skipped, a drained destination is the whole source,
    * every row of which can be encoded, and so could every change streamed since the scan began. */
  lemma DrainedWithoutDeadLetters(t: Table, lim: Limits, ws: seq<World>, ls: seq<Label>, n: nat)
    requires IsRun(t, lim, ws, ls) && n < |ws|
    requires Drained(ws[n]) && ws[n].now <= |t.changes| && ws[n].core.dead == {} && ws[n].skipped == {}
    ensures forall k :: Lookup(ws[n].core.dest, k) == ValueAt(t, ws[n].now, k)
    ensures ws[n].core.row.start.Some?
    ensures forall i :: Cut(t, ws[n].core.row.start.value) <= i < ws[n].now ==> t.changes[i].effect.Encoded?
  {
    RunKeeps(t, lim, ws, ls, n);
    forall i | Cut(t, ws[n].core.row.start.value) <= i < ws[n].now ensures t.changes[i].effect.Encoded? {
      DrainedEncodedEverything(t, ws[n], i);
    }
    forall k ensures Lookup(ws[n].core.dest, k) == ValueAt(t, ws[n].now, k) {
      DrainedAllTold(t, ws[n], k);
      DrainedKeyEqualsSource(t, ws[n], k);
    }
  }

  /** A saved position contains a transaction only if every change of it read since the scan began
    * was applied, found stale or dead-lettered, under one version the change was given: a change
    * that could not be encoded has its own letter, with that version and a position that ends at or
    * before the change. */
  lemma SavedMeansAccounted(t: Table, lim: Limits, ws: seq<World>, ls: seq<Label>, n: nat, i: nat)
    requires IsRun(t, lim, ws, ls) && n < |ws|
    requires ws[n].core.row.gtid.Some? && i < |t.changes| && t.changes[i].tx in ws[n].core.row.gtid.value
    ensures ws[n].core.row.start.Some?
    ensures Cut(t, ws[n].core.row.start.value) <= i ==> Accounted(t, ws[n], i)
  {
    RunKeeps(t, lim, ws, ls, n);
    assert i < Cut(t, ws[n].core.row.gtid.value);
  }

  // The scan's cursor ---------------------------------------------------------------------------

  /** Nothing is owed for the key: it was written, refused or skipped by a crash, or since the scan began
    * there was a moment without a row of it, or one at which no document told how it stands. */
  ghost predicate Squared(t: Table, w: World, k: Bytes)
    requires w.now <= |t.changes|
  {
    k in w.core.dest || DeadKey(w.core.dead, k) || k in w.skipped || Witnessed(t, w, Absent, k) || Obscured(t, w, k)
  }

  lemma OkIsSquared(t: Table, w: World, k: Bytes)
    requires Inv(t, w) && Ok(t, w, k)
    ensures Squared(t, w, k)
  {
    if KeyFresh(t, w, Absent, k) {
      FreshIsTrue(t, w, Absent, k);
    }
  }

  /** At every moment of a scan nothing is owed for a key at or below the saved cursor, unless its
    * document is the one document a batch left behind; and there is never more than one such document.
    * If no event made no documents, each of those keys could be encoded at some moment. */
  lemma CursorCoversAllButOne(t: Table, lim: Limits, ws: seq<World>, ls: seq<Label>, n: nat)
    requires IsRun(t, lim, ws, ls) && n < |ws| && ws[n].phase.Scanning?
    ensures ws[n].now <= |t.changes|
    ensures forall k :: UpTo(t, ws[n].core.row.cursor, k) ==> Squared(t, ws[n], k) || HasKey(Line(ws[n].core), k)
    ensures AtMostOneUpTo(t, ws[n].core.row.cursor, OnTheWay(ws[n].core))
    ensures forall k :: UpTo(t, ws[n].core.row.cursor, k) ==> Squared(t, ws[n], k) || k in HeldBack(t, ws[n])
    ensures NoneUnusable(ws[n].core.dead) ==>
              forall k :: UpTo(t, ws[n].core.row.cursor, k) ==> OnceEncodable(t, ws[n], k)
  {
    RunKeeps(t, lim, ws, ls, n);
    forall k | UpTo(t, ws[n].core.row.cursor, k)
      ensures Squared(t, ws[n], k) || HasKey(Line(ws[n].core), k)
      ensures Squared(t, ws[n], k) || k in HeldBack(t, ws[n])
    {
      CoveredOrHeldBack(t, ws[n], k);
      if Ok(t, ws[n], k) {
        OkIsSquared(t, ws[n], k);
      }
    }
    OneAtTheCursor(t, ws[n]);
  }

  lemma CoveredOrHeldBack(t: Table, w: World, k: Bytes)
    requires w.now <= |t.changes| && CoverInv(t, w) && w.phase.Scanning? && UpTo(t, w.core.row.cursor, k)
    ensures Ok(t, w, k) || HasKey(Line(w.core), k)
    ensures Ok(t, w, k) || k in HeldBack(t, w)
  {
    assert Owed(t, w, k, Line(w.core));
    if HasKey(Line(w.core), k) {
      var d :| d in Line(w.core) && d.key == k;
      if Settled(w.core, d) {
        SettledKeyIsOk(t, w, d);
      }
    }
  }

  ghost predicate AtMostOneUpTo(t: Table, cursor: Option<real>, ds: seq<Doc>) {
    forall d, e :: d in ds && e in ds && UpTo(t, cursor, d.key) && UpTo(t, cursor, e.key) ==> d == e
  }

  lemma OneAtTheCursor(t: Table, w: World)
    requires w.phase.Scanning? && ScanInv(t, w)
    ensures AtMostOneUpTo(t, w.core.row.cursor, OnTheWay(w.core))
  {
    var all: seq<Doc> := OnTheWay(w.core);
    forall d, e | d in all && e in all && UpTo(t, w.core.row.cursor, d.key) && UpTo(t, w.core.row.cursor, e.key)
      ensures d == e
    {
      var i :| 0 <= i < |all| && all[i] == d;
      var j :| 0 <= j < |all| && all[j] == e;
      assert d in Line(w.core) && e in Line(w.core);
      assert t.rank(d.key) == t.rank(e.key);
    }
  }

  /** One crash skips at most one row. */
  lemma ACrashSkipsAtMostOne(
      t: Table, lim: Limits, ws: seq<World>, ls: seq<Label>, n: nat, j: Bytes, k: Bytes)
    requires IsRun(t, lim, ws, ls) && n < |ws| && j in HeldBack(t, ws[n]) && k in HeldBack(t, ws[n])
    ensures j == k
  {
    RunKeeps(t, lim, ws, ls, n);
    OneAtTheCursor(t, ws[n]);
    var d :| d in Line(ws[n].core) && UpTo(t, ws[n].core.row.cursor, d.key) && d.key == j;
    var e :| e in Line(ws[n].core) && UpTo(t, ws[n].core.row.cursor, e.key) && e.key == k;
    assert d in OnTheWay(ws[n].core) && e in OnTheWay(ws[n].core);
  }

  /** The document about to be added carries the cursor about to be saved and overflows the
    * batch, which therefore leaves it behind. */
  ghost predicate Overtakes(t: Table, lim: Limits, c: Core) {
    && c.todo != [] && c.mark.cursor.Some? && t.rank(c.todo[0].key) <= c.mark.cursor.value
    && HoldsBack(lim, c.pending, c.todo[0])
  }

  /** The guard decides exactly, whatever was delivered and refused in between: the save that follows
    * a batch runs ahead of a row still on its way if and only if the document that completed the
    * batch overtakes its cursor. */
  lemma CursorRunsAheadExactlyOnOverflow(
      t: Table, lim: Limits, c: Core, sent: Core, arrived: Core, saved: Core)
    requires Usable(lim) && Below(lim, c.pending) && |c.todo| == 1 && c.mark.cursor.Some?
    requires CoreStep(lim, c, AddDoc, sent) && sent.inflight != []
    requires arrived == sent.(dest := arrived.dest, dead := arrived.dead)
    requires CoreStep(lim, arrived, Acknowledge, saved)
    ensures (exists d :: d in Line(saved) && t.rank(d.key) <= saved.row.cursor.value) <==> Overtakes(t, lim, c)
  {
    HeldBackExactlyOnOverflow(lim, c.pending, c.todo[0]);
    AddedKeepsLimits(lim, c.pending, c.todo[0]);
    if HoldsBack(lim, c.pending, c.todo[0]) {
      assert Line(saved) == [c.todo[0]];
      assert c.todo[0] in Line(saved);
    } else {
      assert Line(saved) == [];
    }
  }

  /** Neither the row nor the copy of it that a reservation may save is ahead of the line. */
  ghost predicate NeverAhead(t: Table, w: World) {
    w.phase.Scanning? ==>
      && AllAfter(t, w.core.row.cursor, Line(w.core))
      && (w.core.copy.Some? ==> AllAfter(t, w.core.copy.value.cursor, Line(w.core)))
      && (w.core.inflight != [] ==> AllAfter(t, w.core.mark.cursor, w.core.pending + w.core.todo))
  }

  /** No document ever overtakes its cursor in this run. */
  ghost predicate NoOvertaking(t: Table, lim: Limits, ws: seq<World>, ls: seq<Label>)
    requires |ws| == |ls| + 1
  {
    forall i :: 0 <= i < |ls| && ls[i].AddDoc? && ws[i].phase.Scanning? ==> !Overtakes(t, lim, ws[i].core)
  }

  lemma NeverAheadHoldsNothingBack(t: Table, w: World)
    requires NeverAhead(t, w)
    ensures HeldBack(t, w) == {}
  {
  }

  lemma TakenLine(c: Core, c': Core)
    requires c.queue != [] && c.todo == [] && c' == Taken(c)
    ensures forall d :: d in Line(c') ==> d in Line(c) || d in DocsOf(c.queue)
  {
    DocsOfFirst(c.queue);
  }

  lemma NeverAheadTake(t: Table, w: World, w': World)
    requires ScanInv(t, w) && (w.core.copy.Some? ==> ScanInv(t, WithCopy(w)))
    requires NeverAhead(t, w) && w.phase.Scanning?
    requires w.core.queue != [] && w.core.todo == [] && w.core.inflight == [] && w' == w.(core := Taken(w.core))
    ensures NeverAhead(t, w')
  {
    TakenLine(w.core, w'.core);
  }

  lemma NeverAheadAck(t: Table, w: World, w': World)
    requires NeverAhead(t, w) && w.phase.Scanning? && Ack(w, w')
    ensures NeverAhead(t, w')
  {
    assert Line(w'.core) == w.core.pending + w.core.todo;
    assert forall d :: d in Line(w'.core) ==> d in Line(w.core);
  }

  lemma NeverAheadAdd(t: Table, lim: Limits, c: Core, c': Core)
    requires CoreStep(lim, c, AddDoc, c') && |c.todo| <= 1 && AllAfter(t, c.row.cursor, Line(c))
    requires !Overtakes(t, lim, c)
    ensures AllAfter(t, c'.row.cursor, Line(c')) && Line(c') == Line(c)
    ensures c'.inflight != [] ==> AllAfter(t, c'.mark.cursor, c'.pending + c'.todo)
  {
    assert c.todo == [c.todo[0]];
    assert c'.inflight + c'.pending == c.pending + c.todo;
    assert Line(c') == Line(c);
  }

  lemma NeverAheadStep(t: Table, lim: Limits, w: World, l: Label, w': World)
    requires w.now <= |t.changes| && ScanInv(t, w) && (w.core.copy.Some? ==> ScanInv(t, WithCopy(w)))
    requires NeverAhead(t, w) && Step(t, lim, w, l, w')
    requires w.phase.Down? ==> Line(w.core) == [] && w.core.copy.None?
    requires l.AddDoc? && w.phase.Scanning? ==> !Overtakes(t, lim, w.core)
    ensures NeverAhead(t, w')
  {
    if w.phase.Scanning? {
      match l
      case Take => NeverAheadTake(t, w, w');
      case AddDoc => NeverAheadAdd(t, lim, w.core, w'.core);
      case Acknowledge => NeverAheadAck(t, w, w');
      case _ =>
    }
  }

  lemma NothingSkippedNext(t: Table, lim: Limits, w: World, l: Label, w': World)
    requires Safe(t, w) && NeverAhead(t, w) && w.skipped == {} && Step(t, lim, w, l, w')
    requires l.AddDoc? && w.phase.Scanning? ==> !Overtakes(t, lim, w.core)
    ensures NeverAhead(t, w') && w'.skipped == {}
  {
    NeverAheadHoldsNothingBack(t, w);
    NeverAheadStep(t, lim, w, l, w');
  }

  lemma NothingSkippedAfter(t: Table, lim: Limits, ws: seq<World>, ls: seq<Label>, n: nat)
    requires IsRun(t, lim, ws, ls) && NoOvertaking(t, lim, ws, ls) && 0 < n < |ws|
    requires NeverAhead(t, ws[n - 1]) && ws[n - 1].skipped == {}
    ensures NeverAhead(t, ws[n]) && ws[n].skipped == {}
  {
    RunKeeps(t, lim, ws, ls, n - 1);
    assert StepAt(t, lim, ws, ls, n - 1);
    NothingSkippedNext(t, lim, ws[n - 1], ls[n - 1], ws[n]);
  }

  /** Where no document overtakes its cursor, crashes may fall anywhere and skip nothing. */
  lemma {:induction false} WithoutOvertakingNothingIsSkipped(
      t: Table, lim: Limits, ws: seq<World>, ls: seq<Label>, n: nat)
    requires IsRun(t, lim, ws, ls) && NoOvertaking(t, lim, ws, ls) && n < |ws|
    ensures NeverAhead(t, ws[n]) && ws[n].skipped == {}
  {
    if n > 0 {
      WithoutOvertakingNothingIsSkipped(t, lim, ws, ls, n - 1);
      NothingSkippedAfter(t, lim, ws, ls, n);
    }
  }
}
