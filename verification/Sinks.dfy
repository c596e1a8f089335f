/** What every sink reports about a batch, and the laws of splitting a batch in two. */
module Sinks {
  import opened Documents

  datatype Rejection = Rejection(doc: Doc, status: nat)

  /** What a finished write reports. */
  datatype Result = Result(applied: nat, stale: nat, rejected: seq<Rejection>) {
    function Total(): nat { applied + stale + |rejected| }
  }

  const NOTHING := Result(0, 0, [])

  function Merge(a: Result, b: Result): Result {
    Result(a.applied + b.applied, a.stale + b.stale, a.rejected + b.rejected)
  }

  function RejectedDocs(rs: seq<Rejection>): seq<Doc> {
    seq(|rs|, i requires 0 <= i < |rs| => rs[i].doc)
  }

  /** The order of `a` is the order its documents have in `b`. */
  predicate IsSubsequence(a: seq<Doc>, b: seq<Doc>) {
    || a == []
    || (&& b != []
        && (|| (a[|a| - 1] == b[|b| - 1] && IsSubsequence(a[..|a| - 1], b[..|b| - 1]))
            || IsSubsequence(a, b[..|b| - 1])))
  }

  lemma {:induction false} SubsequenceOfSelf(a: seq<Doc>)
    ensures IsSubsequence(a, a)
  {
    if a != [] {
      SubsequenceOfSelf(a[..|a| - 1]);
    }
  }

  lemma {:induction false} SubsequenceTransitive(a: seq<Doc>, b: seq<Doc>, c: seq<Doc>)
    requires IsSubsequence(a, b) && IsSubsequence(b, c)
    ensures IsSubsequence(a, c)
    decreases |c|
  {
    if a != [] {
      var b', c' := b[..|b| - 1], c[..|c| - 1];
      if IsSubsequence(b, c') {
        SubsequenceTransitive(a, b, c');
      } else if a[|a| - 1] == b[|b| - 1] && IsSubsequence(a[..|a| - 1], b') {
        SubsequenceTransitive(a[..|a| - 1], b', c');
      } else {
        SubsequenceTransitive(a, b', c');
      }
    }
  }

  lemma SubsequenceOneMore(a: seq<Doc>, b: seq<Doc>, d: Doc)
    requires IsSubsequence(a, b)
    ensures IsSubsequence(a, b + [d]) && IsSubsequence(a + [d], b + [d])
  {
    assert (b + [d])[..|b|] == b && (a + [d])[..|a|] == a;
  }

  lemma {:induction false} HalvesAreSubsequences(b: seq<Doc>, m: nat)
    requires m <= |b|
    ensures IsSubsequence(b[..m], b) && IsSubsequence(b[m..], b)
    decreases |b|
  {
    if m == |b| {
      assert b[..m] == b;
      SubsequenceOfSelf(b);
    } else {
      var b' := b[..|b| - 1];
      HalvesAreSubsequences(b', m);
      assert b'[..m] == b[..m] && b' + [b[|b| - 1]] == b;
      assert b[m..] == b'[m..] + [b[|b| - 1]];
      SubsequenceOneMore(b'[m..], b', b[|b| - 1]);
      SubsequenceOneMore(b[..m], b', b[|b| - 1]);
    }
  }

  /** Documents accounted for, kept beside the counts for the statements below. */
  datatype Account = Account(applied: multiset<Doc>, stale: multiset<Doc>)

  const NOBODY := Account(multiset{}, multiset{})

  function MergeAccounts(a: Account, b: Account): Account {
    Account(a.applied + b.applied, a.stale + b.stale)
  }

  /** Every document is counted exactly once: applied, stale, refused or still to be retried. */
  ghost predicate Conserves(docs: seq<Doc>, r: Result, a: Account, retry: seq<Doc>) {
    multiset(docs) == a.applied + a.stale + multiset(RejectedDocs(r.rejected)) + multiset(retry)
  }

  lemma RejectedConcat(a: seq<Rejection>, b: seq<Rejection>)
    ensures RejectedDocs(a + b) == RejectedDocs(a) + RejectedDocs(b)
  {
  }

  lemma HalvesConserve(docs: seq<Doc>, m: nat, r: Result, a: Account, r': Result, a': Account)
    requires m <= |docs| && Conserves(docs[..m], r, a, []) && Conserves(docs[m..], r', a', [])
    ensures Conserves(docs, Merge(r, r'), MergeAccounts(a, a'), [])
  {
    RejectedConcat(r.rejected, r'.rejected);
    assert docs == docs[..m] + docs[m..];
  }

  lemma {:induction false} SubsequenceMembers(a: seq<Doc>, b: seq<Doc>)
    requires IsSubsequence(a, b)
    ensures |a| <= |b| && ToSet(a) <= ToSet(b)
    decreases |b|
  {
    if a != [] {
      var b' := b[..|b| - 1];
      assert b == b' + [b[|b| - 1]] && a == a[..|a| - 1] + [a[|a| - 1]];
      if IsSubsequence(a, b') {
        SubsequenceMembers(a, b');
      } else {
        SubsequenceMembers(a[..|a| - 1], b');
      }
    }
  }

  /** The most requests a batch of n documents can take. */
  function MostRequests(maxAttempts: nat, n: nat): nat {
    if n == 0 then 0
    else if n == 1 then maxAttempts
    else MostRequests(maxAttempts, n - 1) + 2 * maxAttempts
  }

  /** In closed form: every attempt of each of the 2n - 1 batches that halving can make. */
  lemma {:induction false} MostRequestsClosedForm(m: nat, n: nat)
    requires n >= 1
    ensures MostRequests(m, n) == m * (2 * n - 1)
  {
    if n > 1 {
      MostRequestsClosedForm(m, n - 1);
      assert m * (2 * n - 1) == m * (2 * (n - 1) - 1) + 2 * m;
    }
  }

  lemma {:induction false} FewerDocsFewerRequests(m: nat, p: nat, n: nat)
    requires p <= n
    ensures MostRequests(m, p) <= MostRequests(m, n)
    decreases n
  {
    if p < n {
      FewerDocsFewerRequests(m, p, n - 1);
    }
  }

  lemma {:induction false} HalvesBound(m: nat, a: nat, b: nat)
    requires a >= 1 && b >= 1
    ensures MostRequests(m, a) + MostRequests(m, b) + m == MostRequests(m, a + b)
    decreases b
  {
    if b > 1 {
      HalvesBound(m, a, b - 1);
    }
  }
}
