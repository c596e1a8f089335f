/** Writing a batch to Elasticsearch: retries, halving an oversized request, and refusals. */
module BulkSink {
  import opened Documents
  import opened Clusters
  import opened Sinks
  import BulkText

  datatype Outcome = Outcome(result: Result, retry: seq<Doc>, retryable: bool)

  ghost predicate AppliedBy(posts: seq<Exchange>, d: Doc) {
    exists code :: IsApplied(code) && Told(posts, d, code)
  }

  ghost predicate StaleBy(posts: seq<Exchange>, d: Doc) {
    exists code :: !IsApplied(code) && IsStale(code, d) && Told(posts, d, code)
  }

  ghost predicate RefusedBy(posts: seq<Exchange>, r: Rejection) {
    !IsApplied(r.status) && !IsStale(r.status, r.doc) && !IsBusy(r.status) && Told(posts, r.doc, r.status)
  }

  /** The counts and the account agree, and every document is counted as some answer said of it. */
  ghost predicate Backed(posts: seq<Exchange>, r: Result, a: Account) {
    && |a.applied| == r.applied && |a.stale| == r.stale
    && (forall d {:trigger AppliedBy(posts, d)} :: d in a.applied ==> AppliedBy(posts, d))
    && (forall d {:trigger StaleBy(posts, d)} :: d in a.stale ==> StaleBy(posts, d))
    && (forall i {:trigger RefusedBy(posts, r.rejected[i])} :: 0 <= i < |r.rejected| ==>
        RefusedBy(posts, r.rejected[i]))
  }

  lemma BackedLater(posts: seq<Exchange>, posts': seq<Exchange>, r: Result, a: Account)
    requires posts <= posts' && Backed(posts, r, a)
    ensures Backed(posts', r, a)
  {
    forall d, code | Told(posts, d, code) ensures Told(posts', d, code) {
      ToldLater(posts, posts', d, code);
    }
    forall d | d in a.applied ensures AppliedBy(posts', d) {
      assert AppliedBy(posts, d);
    }
    forall d | d in a.stale ensures StaleBy(posts', d) {
      assert StaleBy(posts, d);
    }
    forall i | 0 <= i < |r.rejected| ensures RefusedBy(posts', r.rejected[i]) {
      assert RefusedBy(posts, r.rejected[i]);
    }
  }

  lemma MergeBacked(posts: seq<Exchange>, r: Result, a: Account, r': Result, a': Account)
    requires Backed(posts, r, a) && Backed(posts, r', a')
    ensures Backed(posts, Merge(r, r'), MergeAccounts(a, a'))
  {
    var m := Merge(r, r');
    forall i | 0 <= i < |m.rejected| ensures RefusedBy(posts, m.rejected[i]) {
      if i < |r.rejected| {
        assert RefusedBy(posts, r.rejected[i]);
      } else {
        assert RefusedBy(posts, r'.rejected[i - |r.rejected|]);
      }
    }
  }

  lemma HalvesAccounted(docs: seq<Doc>, m: nat, posts: seq<Exchange>, posts': seq<Exchange>, r: Result, a: Account,
                        r': Result, a': Account)
    requires m <= |docs| && posts <= posts' && Backed(posts, r, a) && Backed(posts', r', a')
    requires Conserves(docs[..m], r, a, []) && Conserves(docs[m..], r', a', [])
    ensures Conserves(docs, Merge(r, r'), MergeAccounts(a, a'), []) &&
            Backed(posts', Merge(r, r'), MergeAccounts(a, a'))
  {
    BackedLater(posts, posts', r, a);
    MergeBacked(posts', r, a, r', a');
    HalvesConserve(docs, m, r, a, r', a');
  }

  /** What is counted as applied or stale is in the destination, or something newer is. */
  lemma BackedHolds(dest: Dest, posts: seq<Exchange>, r: Result, a: Account, d: Doc)
    requires Reliable(dest, posts) && Backed(posts, r, a) && (d in a.applied || d in a.stale)
    ensures Holds(dest, d)
  {
    if d in a.applied {
      assert AppliedBy(posts, d);
    } else {
      assert StaleBy(posts, d);
    }
  }

  lemma MergeConserves(docs: seq<Doc>, r: Result, a: Account, pending: seq<Doc>, r': Result, a': Account,
                       retry: seq<Doc>)
    requires Conserves(docs, r, a, pending) && Conserves(pending, r', a', retry)
    ensures Conserves(docs, Merge(r, r'), MergeAccounts(a, a'), retry)
  {
    RejectedConcat(r.rejected, r'.rejected);
  }

  /** What one attempt settles is added to what was settled before it. */
  lemma Merged(posts: seq<Exchange>, docs: seq<Doc>, r: Result, a: Account, pending: seq<Doc>, r': Result, a': Account,
               retry: seq<Doc>)
    requires Conserves(docs, r, a, pending) && Backed(posts, r, a) && IsSubsequence(pending, docs)
    requires Conserves(pending, r', a', retry) && Backed(posts, r', a') && IsSubsequence(retry, pending)
    ensures Conserves(docs, Merge(r, r'), MergeAccounts(a, a'), retry)
    ensures Backed(posts, Merge(r, r'), MergeAccounts(a, a')) && IsSubsequence(retry, docs) && |retry| <= |pending|
  {
    MergeConserves(docs, r, a, pending, r', a', retry);
    MergeBacked(posts, r, a, r', a');
    SubsequenceTransitive(retry, pending, docs);
    SubsequenceMembers(retry, pending);
  }

  /** Counting one more document by the code it got. */
  function Counted(o: Outcome, a: Account, d: Doc, code: nat): (Outcome, Account) {
    if IsApplied(code) then
      (o.(result := o.result.(applied := o.result.applied + 1)), a.(applied := a.applied + multiset{d}))
    else if IsStale(code, d) then
      (o.(result := o.result.(stale := o.result.stale + 1)), a.(stale := a.stale + multiset{d}))
    else if IsBusy(code) then
      (o.(retry := o.retry + [d]), a)
    else
      (o.(result := o.result.(rejected := o.result.rejected + [Rejection(d, code)])), a)
  }

  /** Reading the first n items of an answer. */
  function Classified(docs: seq<Doc>, codes: seq<nat>, n: nat): (Outcome, Account)
    requires n <= |docs| == |codes|
  {
    if n == 0 then (Outcome(NOTHING, [], false), NOBODY) else
      var (o, a) := Classified(docs, codes, n - 1);
      Counted(o, a, docs[n - 1], codes[n - 1])
  }

  lemma OneMoreApplied(docs: seq<Doc>, d: Doc, r: Result, a: Account, retry: seq<Doc>)
    requires Conserves(docs, r, a, retry)
    ensures Conserves(docs + [d], r.(applied := r.applied + 1), a.(applied := a.applied + multiset{d}), retry)
    ensures Conserves(docs + [d], r.(stale := r.stale + 1), a.(stale := a.stale + multiset{d}), retry)
  {
    assert multiset(docs + [d]) == multiset(docs) + multiset{d};
  }

  lemma OneMoreLeft(docs: seq<Doc>, d: Doc, r: Result, a: Account, retry: seq<Doc>, status: nat)
    requires Conserves(docs, r, a, retry)
    ensures Conserves(docs + [d], r, a, retry + [d])
    ensures Conserves(docs + [d], r.(rejected := r.rejected + [Rejection(d, status)]), a, retry)
  {
    RejectedConcat(r.rejected, [Rejection(d, status)]);
    assert RejectedDocs([Rejection(d, status)]) == [d];
  }

  lemma Extended(docs: seq<Doc>, n: nat)
    requires 0 < n <= |docs|
    ensures docs[..n] == docs[..n - 1] + [docs[n - 1]]
  {
  }

  lemma CountedConserves(docs: seq<Doc>, o: Outcome, a: Account, d: Doc, code: nat)
    requires Conserves(docs, o.result, a, o.retry)
    ensures var (o', a') := Counted(o, a, d, code); Conserves(docs + [d], o'.result, a', o'.retry)
  {
    if IsApplied(code) || IsStale(code, d) {
      OneMoreApplied(docs, d, o.result, a, o.retry);
    } else {
      OneMoreLeft(docs, d, o.result, a, o.retry, code);
    }
  }

  /** Classifying counts every document once. */
  lemma {:induction false} ClassifiedConserves(docs: seq<Doc>, codes: seq<nat>, n: nat)
    requires n <= |docs| == |codes|
    ensures var (o, a) := Classified(docs, codes, n); Conserves(docs[..n], o.result, a, o.retry)
  {
    if n > 0 {
      ClassifiedConserves(docs, codes, n - 1);
      var (o, a) := Classified(docs, codes, n - 1);
      Extended(docs, n);
      CountedConserves(docs[..n - 1], o, a, docs[n - 1], codes[n - 1]);
    }
  }

  lemma CountedKeepsOrder(o: Outcome, a: Account, d: Doc, code: nat)
    ensures var o' := Counted(o, a, d, code).0;
            o'.retryable == o.retryable && (o'.retry == o.retry || o'.retry == o.retry + [d])
  {
  }

  /** Classifying keeps the documents to retry in the order they were sent. */
  lemma {:induction false} ClassifiedKeepsOrder(docs: seq<Doc>, codes: seq<nat>, n: nat)
    requires n <= |docs| == |codes|
    ensures IsSubsequence(Classified(docs, codes, n).0.retry, docs[..n]) && !Classified(docs, codes, n).0.retryable
  {
    if n > 0 {
      ClassifiedKeepsOrder(docs, codes, n - 1);
      Extended(docs, n);
      var (o, a) := Classified(docs, codes, n - 1);
      SubsequenceOneMore(o.retry, docs[..n - 1], docs[n - 1]);
      CountedKeepsOrder(o, a, docs[n - 1], codes[n - 1]);
    }
  }

  lemma BackedOneMore(posts: seq<Exchange>, o: Outcome, a: Account, d: Doc, code: nat)
    requires Backed(posts, o.result, a) && Told(posts, d, code)
    ensures Backed(posts, Counted(o, a, d, code).0.result, Counted(o, a, d, code).1)
  {
    var rejected := o.result.rejected + [Rejection(d, code)];
    forall i | 0 <= i < |o.result.rejected| ensures RefusedBy(posts, rejected[i]) {
      assert RefusedBy(posts, o.result.rejected[i]);
    }
    if IsApplied(code) {
      assert AppliedBy(posts, d);
    } else if IsStale(code, d) {
      assert StaleBy(posts, d);
    } else if !IsBusy(code) {
      assert RefusedBy(posts, rejected[|rejected| - 1]);
    }
  }

  /** Classifying counts every document as the answer said of it. */
  lemma {:induction false} ClassifiedIsBacked(posts: seq<Exchange>, docs: seq<Doc>, codes: seq<nat>, n: nat)
    requires n <= |docs| == |codes| && forall i :: 0 <= i < n ==> Told(posts, docs[i], codes[i])
    ensures Backed(posts, Classified(docs, codes, n).0.result, Classified(docs, codes, n).1)
  {
    if n > 0 {
      ClassifiedIsBacked(posts, docs, codes, n - 1);
      var (o, a) := Classified(docs, codes, n - 1);
      BackedOneMore(posts, o, a, docs[n - 1], codes[n - 1]);
    }
  }

  lemma {:induction false} RetriesExactlyBusy(docs: seq<Doc>, codes: seq<nat>, n: nat)
    requires n <= |docs| == |codes|
    ensures Classified(docs, codes, n).0.retry != [] <==> exists i :: 0 <= i < n && IsBusy(codes[i])
  {
    if n > 0 {
      RetriesExactlyBusy(docs, codes, n - 1);
    }
  }

  /** Every document whose code is 429 or from 500 up is sent again, and no other. */
  lemma {:induction false} BusyAreRetried(docs: seq<Doc>, codes: seq<nat>, n: nat)
    requires n <= |docs| == |codes|
    ensures forall i :: 0 <= i < n && (codes[i] == 429 || codes[i] >= 500) && !IsApplied(codes[i]) ==>
              docs[i] in Classified(docs, codes, n).0.retry
    ensures forall d :: d in Classified(docs, codes, n).0.retry ==>
              exists i :: 0 <= i < n && docs[i] == d && (codes[i] == 429 || codes[i] >= 500)
  {
    if n > 0 {
      BusyAreRetried(docs, codes, n - 1);
    }
  }

  /** A whole readable answer: everything counted once, as the answer said, the rest in order. */
  lemma AnswerIsCounted(posts: seq<Exchange>, docs: seq<Doc>, codes: seq<Option<nat>>, known: seq<nat>)
    requires |docs| == |codes| == |known| && forall i :: 0 <= i < |codes| ==> codes[i] == Some(known[i])
    requires posts != [] && posts[|posts| - 1] == Exchange(docs, Items(codes))
    ensures var (o, a) := Classified(docs, known, |docs|);
            && Conserves(docs, o.result, a, o.retry) && Backed(posts, o.result, a)
            && IsSubsequence(o.retry, docs) && |o.retry| <= |docs| && !o.retryable
            && (o.retry != [] <==> Exchange(docs, Items(codes)).AsksAgain())
  {
    var n := |docs|;
    assert docs[..n] == docs;
    ClassifiedConserves(docs, known, n);
    ClassifiedKeepsOrder(docs, known, n);
    RetriesExactlyBusy(docs, known, n);
    forall i | 0 <= i < n ensures Told(posts, docs[i], known[i]) {
      assert ToldAt(posts[|posts| - 1], i, docs[i], known[i]);
    }
    ClassifiedIsBacked(posts, docs, known, n);
    SubsequenceMembers(Classified(docs, known, n).0.retry, docs);
  }

  /** What a destination and its request log look like. */
  datatype View = View(dest: Dest, sent: set<Doc>, posts: seq<Exchange>, again: nat, final: nat)

  /** Every request in between is an order-preserving part of the batch, and the destination moved
    * only by documents it was sent. */
  ghost predicate Touched(docs: seq<Doc>, v: View, v': View) {
    && Keyed(v'.dest) && Moved(v.dest, v'.sent, v'.dest)
    && v.sent <= v'.sent <= v.sent + ToSet(docs)
    && v.posts <= v'.posts && v.again <= v'.again && v.final <= v'.final
    && (forall i :: |v.posts| <= i < |v'.posts| ==> IsSubsequence(v'.posts[i].docs, docs))
  }

  lemma TouchedNothing(docs: seq<Doc>, v: View)
    requires Keyed(v.dest)
    ensures Touched(docs, v, v)
  {
    MovedSame(v.dest, v.sent);
  }

  lemma TouchedTogether(docs: seq<Doc>, part: seq<Doc>, a: View, b: View, c: View)
    requires Touched(docs, a, b) && Touched(part, b, c) && IsSubsequence(part, docs)
    ensures Touched(docs, a, c)
  {
    MovedMore(a.dest, b.sent, b.dest, c.sent, c.dest);
    SubsequenceMembers(part, docs);
    forall i | |a.posts| <= i < |c.posts| ensures IsSubsequence(c.posts[i].docs, docs) {
      if i < |b.posts| {
        assert c.posts[i] == b.posts[i];
      } else {
        SubsequenceTransitive(c.posts[i].docs, part, docs);
      }
    }
  }

  /** The grounds on which a write may fail: it could not be encoded, the caller stopped waiting, an
    * answer was final, or as many answers as there are attempts asked for another try. */
  ghost predicate MayFail(docs: seq<Doc>, maxAttempts: nat, cancelled: bool, v: View, v': View) {
    || !BulkText.AllSendable(docs) || cancelled || v'.final > v.final || v'.again >= v.again + maxAttempts
  }

  lemma PartMayFail(docs: seq<Doc>, part: seq<Doc>, m: nat, cancelled: bool, a: View, b: View, c: View)
    requires a.final <= b.final && a.again <= b.again && IsSubsequence(part, docs)
    requires MayFail(part, m, cancelled, b, c)
    ensures MayFail(docs, m, cancelled, a, c)
  {
    PartSendable(docs, part);
  }

  lemma PartSendable(docs: seq<Doc>, part: seq<Doc>)
    requires IsSubsequence(part, docs)
    ensures BulkText.AllSendable(docs) ==> BulkText.AllSendable(part)
  {
    SubsequenceMembers(part, docs);
    forall i | 0 <= i < |part| && BulkText.AllSendable(docs) ensures BulkText.Sendable(part[i]) {
      assert part[i] in ToSet(part);
      var j :| 0 <= j < |docs| && docs[j] == part[i];
    }
  }

  class Sink {
    const cluster: Cluster
    const index: Bytes
    const maxAttempts: nat

    constructor (cluster: Cluster, index: Bytes, maxAttempts: nat)
      ensures this.cluster == cluster && this.index == index
      ensures this.maxAttempts == if maxAttempts == 0 then 5 else maxAttempts
    {
      this.cluster, this.index := cluster, index;
      this.maxAttempts := if maxAttempts == 0 then 5 else maxAttempts;
    }

    ghost function Now(): View
      reads cluster
    {
      View(cluster.dest, cluster.sent, cluster.posts, cluster.again, cluster.final)
    }

    /** Applies a batch. On success every document is accounted for exactly once and everything
      * not refused has reached the destination; whatever the cluster answers, at most
      * maxAttempts * (2n - 1) requests are made for n documents. It fails only on the grounds of
      * MayFail. */
    method Write(docs: seq<Doc>) returns (result: Result, ok: bool, ghost account: Account)
      requires Keyed(cluster.dest) && Reliable(cluster.dest, cluster.posts) && maxAttempts >= 1
      modifies cluster
      ensures Reliable(cluster.dest, cluster.posts)
      ensures Touched(docs, old(Now()), Now())
      ensures ok ==> Conserves(docs, result, account, []) && Backed(cluster.posts, result, account)
      ensures ok ==> BulkText.AllSendable(docs)
      ensures !ok ==> MayFail(docs, maxAttempts, cluster.cancelled, old(Now()), Now())
      ensures |cluster.posts| <= |old(cluster.posts)| + MostRequests(maxAttempts, |docs|)
      decreases |docs|, 2
    {
      result, ok, account := NOTHING, true, NOBODY;
      TouchedNothing(docs, Now());
      if docs == [] {
        return;
      }
      var pending := docs;
      SubsequenceOfSelf(docs);
      var attempt := 1;
      while true
        invariant 1 <= attempt <= maxAttempts && ok
        invariant pending != [] && IsSubsequence(pending, docs) && |pending| <= |docs|
        invariant Touched(docs, old(Now()), Now()) && Reliable(cluster.dest, cluster.posts)
        invariant |cluster.posts| == |old(cluster.posts)| + attempt - 1
        invariant cluster.again == old(cluster.again) + attempt - 1
        invariant if attempt == 1 then pending == docs else BulkText.AllSendable(docs)
        invariant Conserves(docs, result, account, pending) && Backed(cluster.posts, result, account)
        decreases maxAttempts - attempt
      {
        ghost var before := Now();
        var outcome, good;
        ghost var more;
        outcome, good, more := Attempt(pending);
        TouchedTogether(docs, pending, old(Now()), before, Now());
        BackedLater(before.posts, cluster.posts, result, account);
        FewerDocsFewerRequests(maxAttempts, |pending|, |docs|);
        if !good {
          if !outcome.retryable {
            PartMayFail(docs, pending, maxAttempts, cluster.cancelled, old(Now()), before, Now());
          }
          if !outcome.retryable || attempt >= maxAttempts {
            ok := false;
            return;
          }
        } else {
          Merged(cluster.posts, docs, result, account, pending, outcome.result, more, outcome.retry);
          result, account := Merge(result, outcome.result), MergeAccounts(account, more);
          if outcome.retry == [] {
            return;
          }
          if attempt >= maxAttempts {
            ok := false;
            return;
          }
          pending := outcome.retry;
        }
        ok := Pause();
        if !ok {
          return;
        }
        attempt := attempt + 1;
      }
    }

    /** The pause between two attempts; the caller may give up in it. */
    method Pause() returns (ok: bool)
      modifies cluster`cancelled
      ensures Now() == old(Now()) && ok == !cluster.cancelled
    {
      ok := cluster.Wait();
    }

    /** One request. */
    method Ask(docs: seq<Doc>) returns (r: Response)
      requires Keyed(cluster.dest) && Reliable(cluster.dest, cluster.posts)
      modifies cluster
      ensures Reliable(cluster.dest, cluster.posts)
      ensures Touched(docs, old(Now()), Now())
      ensures cluster.posts == old(cluster.posts) + [Exchange(docs, r)] && cluster.cancelled == old(cluster.cancelled)
      ensures cluster.again == old(cluster.again) + if Exchange(docs, r).AsksAgain() then 1 else 0
      ensures cluster.final == old(cluster.final) + if Exchange(docs, r).IsFinalRefusal() then 1 else 0
      ensures r.Status? ==> r.code >= 400
    {
      SubsequenceOfSelf(docs);
      r := cluster.Post(docs);
    }

    /** One request, or two halves when it was too large. */
    method Attempt(docs: seq<Doc>) returns (outcome: Outcome, ok: bool, ghost account: Account)
      requires Keyed(cluster.dest) && Reliable(cluster.dest, cluster.posts) && maxAttempts >= 1 && docs != []
      modifies cluster
      ensures Reliable(cluster.dest, cluster.posts)
      ensures Touched(docs, old(Now()), Now())
      ensures ok ==> && Conserves(docs, outcome.result, account, outcome.retry)
                     && Backed(cluster.posts, outcome.result, account)
                     && IsSubsequence(outcome.retry, docs) && |outcome.retry| <= |docs|
      ensures outcome.retryable || (ok && outcome.retry != []) ==>
                |cluster.posts| == |old(cluster.posts)| + 1 && cluster.again == old(cluster.again) + 1
      ensures ok || outcome.retryable ==> BulkText.AllSendable(docs)
      ensures !ok && !outcome.retryable ==> MayFail(docs, maxAttempts, cluster.cancelled, old(Now()), Now())
      ensures |cluster.posts| + maxAttempts <= |old(cluster.posts)| + 1 + MostRequests(maxAttempts, |docs|)
      decreases |docs|, 1
    {
      outcome, ok, account := Outcome(NOTHING, [], false), false, NOBODY;
      TouchedNothing(docs, Now());
      var body := BulkText.EncodeBulk(index, docs);
      if body.None? {
        return;
      }
      SubsequenceOfSelf(docs);
      var r := Ask(docs);
      ghost var posted := Now();
      match r
      case NoResponse =>
        outcome := outcome.(retryable := true);
      case Unreadable =>
        outcome := outcome.(retryable := true);
      case Status(code) =>
        if code == 413 {
          if |docs| > 1 {
            outcome, ok, account := WriteHalves(docs);
            TouchedTogether(docs, docs, old(Now()), posted, Now());
            if !ok {
              PartMayFail(docs, docs, maxAttempts, cluster.cancelled, old(Now()), posted, Now());
            }
          }
        } else if IsBusy(code) {
          outcome := outcome.(retryable := true);
        }
      case Items(codes) =>
        outcome, ok, account := Classify(docs, codes);
    }

    method WriteHalves(docs: seq<Doc>) returns (outcome: Outcome, ok: bool, ghost account: Account)
      requires Keyed(cluster.dest) && Reliable(cluster.dest, cluster.posts) && maxAttempts >= 1 && |docs| > 1
      modifies cluster
      ensures Reliable(cluster.dest, cluster.posts)
      ensures Touched(docs, old(Now()), Now())
      ensures !outcome.retryable && outcome.retry == []
      ensures ok ==> Conserves(docs, outcome.result, account, []) && Backed(cluster.posts, outcome.result, account)
      ensures !ok ==> MayFail(docs, maxAttempts, cluster.cancelled, old(Now()), Now())
      ensures |cluster.posts| + maxAttempts <= |old(cluster.posts)| + MostRequests(maxAttempts, |docs|)
      decreases |docs|, 0
    {
      var mid := |docs| / 2;
      var front, back := docs[..mid], docs[mid..];
      HalvesAreSubsequences(docs, mid);
      HalvesBound(maxAttempts, |front|, |back|);
      assert MostRequests(maxAttempts, |front|) + MostRequests(maxAttempts, |back|) + maxAttempts ==
             MostRequests(maxAttempts, |docs|);
      TouchedNothing(docs, Now());
      ghost var start := Now();
      var left, right;
      ghost var leftAccount, rightAccount;
      left, ok, leftAccount := Write(front);
      ghost var middle := Now();
      TouchedTogether(docs, front, start, start, middle);
      outcome, account := Outcome(left, [], false), leftAccount;
      if !ok {
        PartMayFail(docs, front, maxAttempts, cluster.cancelled, start, start, middle);
        return;
      }
      right, ok, rightAccount := Write(back);
      TouchedTogether(docs, back, start, middle, Now());
      outcome, account := Outcome(Merge(left, right), [], false), MergeAccounts(leftAccount, rightAccount);
      if !ok {
        PartMayFail(docs, back, maxAttempts, cluster.cancelled, start, middle, Now());
      } else {
        HalvesAccounted(docs, mid, middle.posts, cluster.posts, left, leftAccount, right, rightAccount);
      }
    }

    /** Reads the answer to a request; any item it cannot read makes the whole outcome unknown. */
    method Classify(docs: seq<Doc>, codes: seq<Option<nat>>)
      returns (outcome: Outcome, ok: bool, ghost account: Account)
      requires cluster.posts != [] && cluster.posts[|cluster.posts| - 1] == Exchange(docs, Items(codes))
      ensures !outcome.retryable
      ensures ok <==> Exchange(docs, Items(codes)).Readable()
      ensures ok ==> (outcome.retry != [] <==> Exchange(docs, Items(codes)).AsksAgain())
      ensures ok ==> forall i :: 0 <= i < |docs| ==>
                (codes[i].value == 429 || codes[i].value >= 500 ==> docs[i] in outcome.retry)
      ensures ok ==> && Conserves(docs, outcome.result, account, outcome.retry)
                     && Backed(cluster.posts, outcome.result, account)
                     && IsSubsequence(outcome.retry, docs) && |outcome.retry| <= |docs|
    {
      ghost var known;
      outcome, ok, account, known := CountItems(docs, codes);
      if ok {
        AnswerIsCounted(cluster.posts, docs, codes, known);
        BusyAreRetried(docs, known, |docs|);
      }
    }

    /** The loop over the items. */
    method CountItems(docs: seq<Doc>, codes: seq<Option<nat>>)
      returns (outcome: Outcome, ok: bool, ghost account: Account, ghost known: seq<nat>)
      ensures ok <==> |codes| == |docs| && forall i :: 0 <= i < |codes| ==> codes[i].Some?
      ensures ok ==> |known| == |codes| && forall i :: 0 <= i < |codes| ==> codes[i] == Some(known[i])
      ensures ok ==> (outcome, account) == Classified(docs, known, |docs|)
      ensures !ok ==> !outcome.retryable
    {
      outcome, ok, account, known := Outcome(NOTHING, [], false), false, NOBODY, [];
      if |codes| != |docs| {
        return;
      }
      known := seq(|codes|, i requires 0 <= i < |codes| => if codes[i].Some? then codes[i].value else 0);
      for i := 0 to |docs|
        invariant forall j :: 0 <= j < i ==> codes[j].Some?
        invariant (outcome, account) == Classified(docs, known, i)
      {
        if codes[i].None? {
          outcome, account := Outcome(NOTHING, [], false), NOBODY;
          return;
        }
        var d, code := docs[i], codes[i].value;
        assert known[i] == code;
        if IsApplied(code) {
          outcome := outcome.(result := outcome.result.(applied := outcome.result.applied + 1));
          account := account.(applied := account.applied + multiset{d});
        } else if IsStale(code, d) {
          outcome := outcome.(result := outcome.result.(stale := outcome.result.stale + 1));
          account := account.(stale := account.stale + multiset{d});
        } else if IsBusy(code) {
          outcome := outcome.(retry := outcome.retry + [d]);
        } else {
          outcome := outcome.(result := outcome.result.(rejected := outcome.result.rejected + [Rejection(d, code)]));
        }
      }
      ok := true;
    }
  }
}
