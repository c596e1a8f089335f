/** A destination cluster that may answer anything: requests can be lost, applied without an
 * answer, applied late, or refused document by document. Only its good news is reliable. */
module Clusters {
  import opened Documents

  /** `codes[i]` is what the answer says about document i; None is an item it garbled. */
  datatype Response =
    | NoResponse
    | Status(code: nat)
    | Unreadable
    | Items(codes: seq<Option<nat>>)

  /** Success, a version conflict, or deleting what is not there: the document needs nothing more. */
  predicate IsApplied(code: nat) { 200 <= code < 300 }

  predicate IsStale(code: nat, d: Doc) { code == 409 || (code == 404 && d.deleted) }

  predicate IsBusy(code: nat) { code == 429 || code >= 500 }

  /** The answer says this document needs nothing more. */
  predicate GoodNews(code: Option<nat>, d: Doc) {
    code.Some? && (IsApplied(code.value) || IsStale(code.value, d))
  }

  /** What each code says of a document, in numbers: 200 to 299 is success; 409, or 404 for a deletion, means
    * the destination is as it should be; 429 and 500 upwards ask for another try; nothing else does. */
  lemma CodesMean(code: nat, d: Doc)
    ensures code in {200, 201, 204, 299} ==> IsApplied(code)
    ensures code < 200 || code >= 300 ==> !IsApplied(code)
    ensures IsStale(code, d) <==> code == 409 || (code == 404 && d.deleted)
    ensures IsBusy(code) <==> code == 429 || code > 499
    ensures code >= 400 && code < 500 && code !in {404, 409, 429} ==>
              !IsApplied(code) && !IsStale(code, d) && !IsBusy(code)
  {
  }

  /** A bulk request and its answer. */
  datatype Exchange = Exchange(docs: seq<Doc>, answer: Response) {
    /** The answer leaves some document to be sent again. */
    predicate AsksAgain() {
      match answer
      case NoResponse => true
      case Unreadable => true
      case Status(code) => IsBusy(code)
      case Items(codes) => Readable() && exists i :: 0 <= i < |codes| && IsBusy(codes[i].value)
    }

    /** The answer rules out success for the batch: nothing the request could change would help. */
    predicate IsFinalRefusal() {
      match answer
      case NoResponse => false
      case Unreadable => false
      case Status(code) => if code == 413 then |docs| == 1 else !IsBusy(code)
      case Items(codes) => !Readable()
    }

    predicate Readable()
      requires answer.Items?
    {
      |answer.codes| == |docs| && forall i :: 0 <= i < |answer.codes| ==> answer.codes[i].Some?
    }
  }

  /** Which answers end a batch's hopes and which ask for another try, in numbers: a status of 413 is final only
    * for a lone document, any other from 400 up is final unless it is 429 or from 500 up. */
  lemma AnswersMean(docs: seq<Doc>, code: nat)
    ensures Exchange(docs, Status(code)).AsksAgain() <==> code == 429 || code >= 500
    ensures Exchange(docs, Status(code)).IsFinalRefusal() <==>
            if code == 413 then |docs| == 1 else code != 429 && code < 500
    ensures Exchange(docs, NoResponse).AsksAgain() && !Exchange(docs, NoResponse).IsFinalRefusal()
    ensures Exchange(docs, Unreadable).AsksAgain() && !Exchange(docs, Unreadable).IsFinalRefusal()
  {
  }

  /** The exchange's answer gave its i-th document, this one, this code. */
  predicate ToldAt(e: Exchange, i: nat, d: Doc, code: nat) {
    && e.answer.Items? && |e.answer.codes| == |e.docs| && i < |e.docs|
    && e.docs[i] == d && e.answer.codes[i] == Some(code)
  }

  /** Some answer gave the document this code. */
  ghost predicate Told(posts: seq<Exchange>, d: Doc, code: nat) {
    exists j, i: nat :: 0 <= j < |posts| && ToldAt(posts[j], i, d, code)
  }

  /** Good news is reliable: a document an answer called done is in the destination, or a newer one. */
  ghost predicate Reliable(dest: Dest, posts: seq<Exchange>) {
    forall d, code {:trigger Told(posts, d, code)} :: Told(posts, d, code) && GoodNews(Some(code), d) ==> Holds(dest, d)
  }

  lemma ToldLater(posts: seq<Exchange>, posts': seq<Exchange>, d: Doc, code: nat)
    requires posts <= posts' && Told(posts, d, code)
    ensures Told(posts', d, code)
  {
    var j, i: nat :| 0 <= j < |posts| && ToldAt(posts[j], i, d, code);
    assert ToldAt(posts'[j], i, d, code);
  }

  lemma ToldSplit(posts: seq<Exchange>, e: Exchange, d: Doc, code: nat)
    requires Told(posts + [e], d, code)
    ensures Told(posts, d, code) || exists i: nat :: ToldAt(e, i, d, code)
  {
    var j, i: nat :| 0 <= j < |posts + [e]| && ToldAt((posts + [e])[j], i, d, code);
    if j < |posts| {
      assert ToldAt(posts[j], i, d, code);
    }
  }

  lemma ReliableMore(dest: Dest, dest': Dest, sent: set<Doc>, posts: seq<Exchange>, e: Exchange)
    requires Keyed(dest) && Reliable(dest, posts) && Moved(dest, sent, dest')
    requires forall i: nat, d, code {:trigger ToldAt(e, i, d, code)} ::
               ToldAt(e, i, d, code) && GoodNews(Some(code), d) ==> Holds(dest', d)
    ensures Reliable(dest', posts + [e])
  {
    forall d, code | Told(posts + [e], d, code) && GoodNews(Some(code), d) ensures Holds(dest', d) {
      ToldSplit(posts, e, d, code);
      if Told(posts, d, code) {
        MovedHolds(dest, sent, dest', d);
      }
    }
  }

  /** The destination moved by deliveries of documents it was sent, and nothing else. */
  ghost predicate Moved(dest: Dest, sent: set<Doc>, dest': Dest) {
    exists ds: seq<Doc> :: (forall d :: d in ds ==> d in sent) && dest' == DeliverAll(dest, ds)
  }

  lemma MovedSame(dest: Dest, sent: set<Doc>)
    ensures Moved(dest, sent, dest)
  {
    assert dest == DeliverAll(dest, []);
  }

  lemma MovedMore(dest: Dest, sent: set<Doc>, dest': Dest, sent': set<Doc>, dest'': Dest)
    requires Moved(dest, sent, dest') && Moved(dest', sent', dest'') && sent <= sent'
    ensures Moved(dest, sent', dest'')
  {
    var a :| (forall d :: d in a ==> d in sent) && dest' == DeliverAll(dest, a);
    var b :| (forall d :: d in b ==> d in sent') && dest'' == DeliverAll(dest', b);
    DeliverAllAppend(dest, a, b);
    assert forall d :: d in a + b ==> d in sent';
  }

  lemma MovedOne(dest: Dest, sent: set<Doc>, d: Doc)
    requires d in sent
    ensures Moved(dest, sent, Deliver(dest, d))
  {
    assert [d][..0] == [];
    assert Deliver(dest, d) == DeliverAll(dest, [d]);
  }

  lemma MovedHolds(dest: Dest, sent: set<Doc>, dest': Dest, d: Doc)
    requires Keyed(dest) && Moved(dest, sent, dest') && Holds(dest, d)
    ensures Holds(dest', d)
  {
    var ds :| (forall e :: e in ds ==> e in sent) && dest' == DeliverAll(dest, ds);
    DeliveryOnlyAdvances(dest, ds, d.key);
  }

  class Cluster {
    var dest: Dest
    var sent: set<Doc>
    var posts: seq<Exchange>
    var again: nat // answers that left something to send again
    var final: nat // answers that ruled out success
    var cancelled: bool

    constructor ()
      ensures dest == map[] && sent == {} && posts == [] && again == 0 && final == 0 && !cancelled
    {
      dest, sent, posts, again, final, cancelled := map[], {}, [], 0, 0, false;
    }

    /** The pause before a retry, cut short once the caller has given up. */
    method Wait() returns (ok: bool)
      modifies this`cancelled
      ensures ok == !cancelled && (old(cancelled) ==> cancelled)
    {
      var now: bool := *;
      cancelled := cancelled || now;
      ok := !cancelled;
    }

    /** The documents of a request, one by one: applied and answered well, or anything else. */
    method Take(docs: seq<Doc>) returns (codes: seq<Option<nat>>)
      requires Keyed(dest) && ToSet(docs) <= sent
      modifies this`dest
      ensures Keyed(dest) && Moved(old(dest), sent, dest) && |codes| == |docs|
      ensures forall i :: 0 <= i < |docs| && GoodNews(codes[i], docs[i]) ==> Holds(dest, docs[i])
    {
      codes := [];
      MovedSame(dest, sent);
      for i := 0 to |docs|
        invariant Keyed(dest) && Moved(old(dest), sent, dest) && |codes| == i
        invariant forall j :: 0 <= j < i && GoodNews(codes[j], docs[j]) ==> Holds(dest, docs[j])
      {
        var code: Option<nat> := *;
        ghost var before := dest;
        MovedSame(dest, sent);
        if GoodNews(code, docs[i]) {
          dest := Deliver(dest, docs[i]);
          MovedOne(before, sent, docs[i]);
        }
        MovedMore(old(dest), sent, before, sent, dest);
        assert forall j :: 0 <= j < i && Holds(before, docs[j]) ==> Holds(dest, docs[j]);
        codes := codes + [code];
      }
    }

    /** One bulk request. */
    method Post(docs: seq<Doc>) returns (r: Response)
      requires Keyed(dest) && Reliable(dest, posts)
      modifies this`dest, this`sent, this`posts, this`again, this`final
      ensures Reliable(dest, posts)
      ensures Keyed(dest) && sent == old(sent) + ToSet(docs) && posts == old(posts) + [Exchange(docs, r)]
      ensures again == old(again) + if Exchange(docs, r).AsksAgain() then 1 else 0
      ensures final == old(final) + if Exchange(docs, r).IsFinalRefusal() then 1 else 0
      ensures Moved(old(dest), sent, dest)
      ensures r.Status? ==> r.code >= 400
    {
      sent := sent + ToSet(docs);
      LateArrivals();
      ghost var late := dest;
      var codes := Take(docs);
      MovedMore(old(dest), sent, late, sent, dest);
      var lost: bool, unreadable: bool, refused: Option<nat>, cut: bool := *, *, *, *;
      r := if lost then NoResponse
           else if refused.Some? && refused.value >= 400 then Status(refused.value)
           else if unreadable then Unreadable
           else if cut && |codes| > 0 then Items(codes[..|codes| - 1])
           else Items(codes);
      var e := Exchange(docs, r);
      ReliableMore(old(dest), dest, sent, posts, e);
      posts := posts + [e];
      again := again + if e.AsksAgain() then 1 else 0;
      final := final + if e.IsFinalRefusal() then 1 else 0;
    }

    /** Requests sent earlier, by this process or a dead one, may still take effect. */
    method LateArrivals()
      requires Keyed(dest)
      modifies this`dest
      ensures Keyed(dest) && Moved(old(dest), sent, dest)
    {
      MovedSame(dest, sent);
      var n: nat := *;
      while n > 0 && sent != {}
        invariant Keyed(dest) && Moved(old(dest), sent, dest)
        decreases n
      {
        var d :| d in sent;
        MovedOne(dest, sent, d);
        MovedMore(old(dest), sent, dest, sent, Deliver(dest, d));
        dest := Deliver(dest, d);
        n := n - 1;
      }
    }
  }
}
