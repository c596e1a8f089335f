/** Writing a batch to ClickHouse: an insert is accepted or refused whole, so a refused batch is
 * halved until the rows at fault stand alone. */
module InsertSink {
  import opened Documents
  import opened Sinks
  import opened RowText

  const MAX_ISOLATION_DEPTH := 12

  datatype Post = Post(docs: seq<Doc>, answer: Option<nat>)

  predicate IsRetryable(status: nat) { status == 429 || status >= 500 }

  predicate IsRefusal(answer: Option<nat>) {
    answer.Some? && answer.value >= 300 && !IsRetryable(answer.value)
  }

  predicate IsSuccess(answer: Option<nat>) { answer.Some? && answer.value < 300 }

  /** In numbers: below 300 is success, 429 and from 500 up ask for another try as a lost answer does, and the
    * rest refuse. */
  lemma StatusesMean(status: nat)
    ensures IsSuccess(Some(status)) <==> status < 300
    ensures IsRefusal(Some(status)) <==> 300 <= status <= 499 && status != 429
    ensures !IsSuccess(None) && !IsRefusal(None)
  {
  }

  /** How the server decides: as it pleases, by whether a batch holds a faulty row, or against
    * everything. */
  datatype Temper = Arbitrary | Fair | Refusing

  function Faulty(faulty: Doc -> bool, docs: seq<Doc>): seq<Doc> {
    if docs == [] then []
    else Faulty(faulty, docs[..|docs| - 1]) + if faulty(docs[|docs| - 1]) then [docs[|docs| - 1]] else []
  }

  class Server {
    const temper: Temper
    const faulty: Doc -> bool
    var held: set<Doc>
    var posts: set<Post> // every insert with its answer
    var count: nat       // how many there were
    var again: nat // answers that asked for another try
    var cancelled: bool

    constructor (temper: Temper, faulty: Doc -> bool)
      ensures this.temper == temper && this.faulty == faulty && held == {} && posts == {} && count == 0 &&
              again == 0 && !cancelled
    {
      this.temper, this.faulty := temper, faulty;
      held, posts, count, again, cancelled := {}, {}, 0, 0, false;
    }

    /** One insert. A lost answer says nothing about whether the rows arrived. */
    method Insert(docs: seq<Doc>) returns (answer: Option<nat>)
      modifies this`held, this`posts, this`count, this`again
      ensures posts == old(posts) + {Post(docs, answer)} && count == old(count) + 1
      ensures old(held) <= held <= old(held) + ToSet(docs)
      ensures IsSuccess(answer) ==> ToSet(docs) <= held
      ensures again == old(again) + if IsSuccess(answer) || IsRefusal(answer) then 0 else 1
      ensures temper.Fair? && (IsSuccess(answer) || IsRefusal(answer)) ==>
                (IsRefusal(answer) <==> Faulty(faulty, docs) != [])
      ensures temper.Refusing? ==> IsRefusal(answer)
    {
      var proposed: Option<nat>, arrived: bool := *, *;
      answer := proposed;
      if temper.Refusing? && !IsRefusal(answer) {
        answer := Some(400);
      } else if temper.Fair? && IsSuccess(answer) && Faulty(faulty, docs) != [] {
        answer := Some(400);
      } else if temper.Fair? && IsRefusal(answer) && Faulty(faulty, docs) == [] {
        answer := Some(200);
      }
      if IsSuccess(answer) || arrived {
        held := held + ToSet(docs);
      }
      again := again + if IsSuccess(answer) || IsRefusal(answer) then 0 else 1;
      posts, count := posts + {Post(docs, answer)}, count + 1;
    }

    method Wait() returns (ok: bool)
      modifies this`cancelled
      ensures ok == !cancelled && (old(cancelled) ==> cancelled)
    {
      var now: bool := *;
      cancelled := cancelled || now;
      ok := !cancelled;
    }
  }

  datatype Failure = Fine | NotEncodable | Exhausted | Cancelled | StoppedNarrowing

  // When narrowing stops ------------------------------------------------------------------------

  /** Whether a batch of n rows, refused whole every time, runs out of depth before its rows stand
    * alone. */
  predicate Deep(n: nat, depth: nat) {
    n > 1 && (depth >= MAX_ISOLATION_DEPTH || Deep(n / 2, depth + 1) || Deep(n - n / 2, depth + 1))
  }

  function Pow2(k: nat): nat { if k == 0 then 1 else 2 * Pow2(k - 1) }

  lemma {:induction false} DeepExactlyAbove(n: nat, depth: nat)
    requires n >= 1 && 1 <= depth <= MAX_ISOLATION_DEPTH
    ensures Pow2(MAX_ISOLATION_DEPTH - depth) >= 1
    ensures Deep(n, depth) <==> n > Pow2(MAX_ISOLATION_DEPTH - depth)
    decreases MAX_ISOLATION_DEPTH - depth
  {
    if depth < MAX_ISOLATION_DEPTH {
      DeepExactlyAbove(1, depth + 1);
      if n > 1 {
        DeepExactlyAbove(n / 2, depth + 1);
        DeepExactlyAbove(n - n / 2, depth + 1);
      }
    }
  }

  lemma AtMost2048RowsAlwaysNarrow(n: nat)
    requires n >= 1
    ensures Deep(n, 1) <==> n > 2048
  {
    DeepExactlyAbove(n, 1);
    assert Pow2(11) == 2048;
  }

  // What a finished write has done --------------------------------------------------------------

  /** Every row is counted once, as held by the server or as refused; refusals keep the batch's
    * order, and each was made of that row alone. A fair server's refusals are the faulty rows. */
  ghost predicate Sorted(server: Server, held: set<Doc>, posts: set<Post>, docs: seq<Doc>, r: Result, a: Account) {
    && Conserves(docs, r, a, []) && |a.applied| == r.applied && r.stale == 0 && a.stale == multiset{}
    && (forall d :: d in a.applied ==> d in held)
    && IsSubsequence(RejectedDocs(r.rejected), docs)
    && (forall i :: 0 <= i < |r.rejected| ==> RefusedAlone(posts, r.rejected[i]))
    && (server.temper.Fair? ==> RejectedDocs(r.rejected) == Faulty(server.faulty, docs))
    && (server.temper.Refusing? ==> RejectedDocs(r.rejected) == docs)
  }

  ghost predicate RefusedAlone(posts: set<Post>, r: Rejection) {
    IsRefusal(Some(r.status)) && Post([r.doc], Some(r.status)) in posts
  }

  lemma {:induction false} FaultyAppend(faulty: Doc -> bool, a: seq<Doc>, b: seq<Doc>)
    ensures Faulty(faulty, a + b) == Faulty(faulty, a) + Faulty(faulty, b)
  {
    if b == [] {
      assert a + b == a;
    } else {
      FaultyAppend(faulty, a, b[..|b| - 1]);
      assert (a + b)[..|a + b| - 1] == a + b[..|b| - 1];
    }
  }

  lemma {:induction false} SubsequenceConcat(a: seq<Doc>, x: seq<Doc>, b: seq<Doc>, y: seq<Doc>)
    requires IsSubsequence(a, x) && IsSubsequence(b, y)
    ensures IsSubsequence(a + b, x + y)
    decreases |y|
  {
    if y == [] {
      assert a + b == a && x + y == x;
    } else {
      var y' := y[..|y| - 1];
      assert (x + y)[..|x + y| - 1] == x + y';
      if IsSubsequence(b, y') {
        SubsequenceConcat(a, x, b, y');
      } else {
        SubsequenceConcat(a, x, b[..|b| - 1], y');
        assert (a + b)[..|a + b| - 1] == a + b[..|b| - 1];
      }
    }
  }

  lemma HalvesSorted(server: Server, held: set<Doc>, posts: set<Post>, held': set<Doc>, posts': set<Post>,
                     docs: seq<Doc>, m: nat, r: Result, a: Account, r': Result, a': Account)
    requires m <= |docs| && held <= held' && posts <= posts'
    requires Sorted(server, held, posts, docs[..m], r, a) && Sorted(server, held', posts', docs[m..], r', a')
    ensures Sorted(server, held', posts', docs, Merge(r, r'), MergeAccounts(a, a'))
  {
    HalvesConserve(docs, m, r, a, r', a');
    RejectedConcat(r.rejected, r'.rejected);
    assert docs == docs[..m] + docs[m..];
    SubsequenceConcat(RejectedDocs(r.rejected), docs[..m], RejectedDocs(r'.rejected), docs[m..]);
    FaultyAppend(server.faulty, docs[..m], docs[m..]);
  }

  lemma AllAccepted(server: Server, held: set<Doc>, posts: set<Post>, docs: seq<Doc>)
    requires ToSet(docs) <= held && !server.temper.Refusing?
    requires server.temper.Fair? ==> Faulty(server.faulty, docs) == []
    ensures Sorted(server, held, posts, docs, Result(|docs|, 0, []), Account(multiset(docs), multiset{}))
  {
    assert RejectedDocs([]) == [];
    assert |multiset(docs)| == |docs|;
    forall d | d in multiset(docs) ensures d in held {
      assert d in ToSet(docs);
    }
  }

  lemma OneRefused(server: Server, held: set<Doc>, posts: set<Post>, d: Doc, status: nat)
    requires IsRefusal(Some(status)) && Post([d], Some(status)) in posts
    requires server.temper.Fair? ==> Faulty(server.faulty, [d]) != []
    ensures Sorted(server, held, posts, [d], Result(0, 0, [Rejection(d, status)]), NOBODY)
  {
    assert RejectedDocs([Rejection(d, status)]) == [d];
    SubsequenceOfSelf([d]);
    assert [d][..0] == [];
  }

  /** The reason of a failure, and the only reason there can be, for rows that can or cannot be encoded, that are
    * or are not too many to narrow down, and `again` answers that asked for another try. */
  predicate Explained(temper: Temper, maxAttempts: nat, again: int, cancelled: bool, encodable: bool, deep: bool,
                      failure: Failure) {
    && (failure.NotEncodable? <==> !encodable)
    && (failure.Exhausted? ==> again >= maxAttempts)
    && (failure.Cancelled? ==> cancelled)
    && (failure.StoppedNarrowing? ==> deep)
    && (temper.Refusing? && encodable ==> failure == if deep then StoppedNarrowing else Fine)
  }

  lemma FirstHalfExplains(temper: Temper, maxAttempts: nat, again: int, cancelled: bool, first: bool, second: bool,
                          failure: Failure)
    requires !failure.Fine? && Explained(temper, maxAttempts, again, cancelled, true, first, failure)
    ensures Explained(temper, maxAttempts, again, cancelled, true, first || second, failure)
  {
  }

  lemma SecondHalfExplains(temper: Temper, maxAttempts: nat, again: nat, again': int, cancelled: bool, cancelled': bool,
                           first: bool, second: bool, failure: Failure)
    requires Explained(temper, maxAttempts, again, cancelled, true, first, Fine)
    requires Explained(temper, maxAttempts, again', cancelled', true, second, failure)
    ensures Explained(temper, maxAttempts, again + again', cancelled', true, first || second, failure)
  {
  }

  lemma HalvesAreObjects(docs: seq<Doc>, m: nat)
    requires m <= |docs| && AllObjects(docs)
    ensures AllObjects(docs[..m]) && AllObjects(docs[m..])
  {
  }

  lemma DeepHalves(n: nat, depth: nat)
    requires n > 1 && depth < MAX_ISOLATION_DEPTH
    ensures Deep(n, depth) <==> Deep(n / 2, depth + 1) || Deep(n - n / 2, depth + 1)
  {
  }

  method CanEncode(docs: seq<Doc>) returns (ok: bool)
    ensures ok <==> AllObjects(docs)
  {
    var body := EncodeRows(docs);
    ok := body.Some?;
  }

  class Sink {
    const server: Server
    const maxAttempts: nat

    constructor (server: Server, maxAttempts: nat)
      ensures this.server == server && this.maxAttempts == if maxAttempts == 0 then 5 else maxAttempts
    {
      this.server := server;
      this.maxAttempts := if maxAttempts == 0 then 5 else maxAttempts;
    }

    ghost predicate Grew(held: set<Doc>, posts: set<Post>, again: nat, cancelled: bool)
      reads server
    {
      held <= server.held && posts <= server.posts && again <= server.again && (cancelled ==> server.cancelled)
    }

    /** Inserts a batch. */
    method Write(docs: seq<Doc>) returns (result: Result, failure: Failure, ghost account: Account)
      requires maxAttempts >= 1
      modifies server
      ensures failure.Fine? ==> Sorted(server, server.held, server.posts, docs, result, account)
      ensures docs != [] ==> Explained(server.temper, maxAttempts, server.again - old(server.again), server.cancelled,
                                     AllObjects(docs), Deep(|docs|, 1), failure)
      ensures |docs| <= 2048 ==> !failure.StoppedNarrowing?
      ensures server.count <= old(server.count) + MostRequests(maxAttempts, |docs|)
      ensures Grew(old(server.held), old(server.posts), old(server.again), old(server.cancelled))
    {
      if docs == [] {
        assert RejectedDocs([]) == [];
        return NOTHING, Fine, NOBODY;
      }
      AtMost2048RowsAlwaysNarrow(|docs|);
      result, failure, account := WriteAt(docs, 1);
    }

    method WriteAt(docs: seq<Doc>, depth: nat) returns (result: Result, failure: Failure, ghost account: Account)
      requires maxAttempts >= 1 && docs != [] && 1 <= depth
      modifies server
      ensures failure.Fine? ==> Sorted(server, server.held, server.posts, docs, result, account)
      ensures Explained(server.temper, maxAttempts, server.again - old(server.again), server.cancelled,
                        AllObjects(docs), Deep(|docs|, depth), failure)
      ensures server.count <= old(server.count) + MostRequests(maxAttempts, |docs|)
      ensures Grew(old(server.held), old(server.posts), old(server.again), old(server.cancelled))
      decreases |docs|, 2
    {
      result, account := NOTHING, NOBODY;
      var encodes := CanEncode(docs);
      if !encodes {
        return result, NotEncodable, account;
      }
      FewerDocsFewerRequests(maxAttempts, 1, |docs|);
      var attempt := 1;
      while true
        invariant 1 <= attempt <= maxAttempts
        invariant server.count == old(server.count) + attempt - 1
        invariant server.again == old(server.again) + attempt - 1
        invariant server.temper.Refusing? ==> attempt == 1
        invariant Grew(old(server.held), old(server.posts), old(server.again), old(server.cancelled))
        decreases maxAttempts - attempt
      {
        var answer := server.Insert(docs);
        if answer.None? {
          if attempt >= maxAttempts {
            return result, Exhausted, account;
          }
        } else if answer.value < 300 {
          AllAccepted(server, server.held, server.posts, docs);
          return Result(|docs|, 0, []), Fine, Account(multiset(docs), multiset{});
        } else if IsRetryable(answer.value) {
          if attempt >= maxAttempts {
            return result, Exhausted, account;
          }
        } else {
          result, failure, account := Isolate(docs, depth, answer.value);
          return;
        }
        var waited := server.Wait();
        if !waited {
          return result, Cancelled, account;
        }
        attempt := attempt + 1;
      }
    }

    /** The batch was refused: a row that stands alone is at fault, any other batch is halved. */
    method Isolate(docs: seq<Doc>, depth: nat, status: nat)
      returns (result: Result, failure: Failure, ghost account: Account)
      requires maxAttempts >= 1 && docs != [] && 1 <= depth && AllObjects(docs)
      requires IsRefusal(Some(status)) && Post(docs, Some(status)) in server.posts
      requires server.temper.Fair? ==> Faulty(server.faulty, docs) != []
      modifies server
      ensures failure.Fine? ==> Sorted(server, server.held, server.posts, docs, result, account)
      ensures Explained(server.temper, maxAttempts, server.again - old(server.again), server.cancelled,
                        AllObjects(docs), Deep(|docs|, depth), failure)
      ensures server.count + maxAttempts <= old(server.count) + MostRequests(maxAttempts, |docs|)
      ensures Grew(old(server.held), old(server.posts), old(server.again), old(server.cancelled))
      decreases |docs|, 1
    {
      if |docs| == 1 {
        assert docs == [docs[0]];
        OneRefused(server, server.held, server.posts, docs[0], status);
        return Result(0, 0, [Rejection(docs[0], status)]), Fine, NOBODY;
      }
      if depth >= MAX_ISOLATION_DEPTH {
        FewerDocsFewerRequests(maxAttempts, 1, |docs|);
        return NOTHING, StoppedNarrowing, NOBODY;
      }
      DeepHalves(|docs|, depth);
      result, failure, account := IsolateHalves(docs, |docs| / 2, depth);
    }

    method IsolateHalves(docs: seq<Doc>, mid: nat, depth: nat)
      returns (result: Result, failure: Failure, ghost account: Account)
      requires maxAttempts >= 1 && 0 < mid < |docs| && 1 <= depth < MAX_ISOLATION_DEPTH && AllObjects(docs)
      requires Deep(|docs|, depth) <==> Deep(mid, depth + 1) || Deep(|docs| - mid, depth + 1)
      modifies server
      ensures failure.Fine? ==> Sorted(server, server.held, server.posts, docs, result, account)
      ensures Explained(server.temper, maxAttempts, server.again - old(server.again), server.cancelled,
                        AllObjects(docs), Deep(|docs|, depth), failure)
      ensures server.count + maxAttempts <= old(server.count) + MostRequests(maxAttempts, |docs|)
      ensures Grew(old(server.held), old(server.posts), old(server.again), old(server.cancelled))
      decreases |docs|, 0
    {
      var left, right := docs[..mid], docs[mid..];
      HalvesAreObjects(docs, mid);
      HalvesBound(maxAttempts, |left|, |right|);
      assert MostRequests(maxAttempts, |left|) + MostRequests(maxAttempts, |right|) + maxAttempts ==
             MostRequests(maxAttempts, |docs|);
      ghost var start, first, second := server.again, Deep(|left|, depth + 1), Deep(|right|, depth + 1);
      assert AllObjects(docs) && Deep(|docs|, depth) == (first || second);
      result, failure, account := WriteAt(left, depth + 1);
      if !failure.Fine? {
        FirstHalfExplains(server.temper, maxAttempts, server.again - start, server.cancelled, first, second, failure);
        return;
      }
      ghost var held, posts, again, cancelled := server.held, server.posts, server.again, server.cancelled;
      var more;
      ghost var moreAccount;
      more, failure, moreAccount := WriteAt(right, depth + 1);
      SecondHalfExplains(server.temper, maxAttempts, again - start, server.again - again, cancelled, server.cancelled,
                         first, second, failure);
      if failure.Fine? {
        HalvesSorted(server, held, posts, server.held, server.posts, docs, mid, result, account, more, moreAccount);
      }
      result, account := Merge(result, more), MergeAccounts(account, moreAccount);
    }
  }
}
