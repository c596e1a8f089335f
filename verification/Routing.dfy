/** One reader for many streams: where it starts, and which stream gets which event. */
module Routing {
  import opened Documents
  import opened Source
  import opened Binlog
  import opened Contexts

  // Where the shared reader starts --------------------------------------------------------------

  /** Every stream has seen at least this. */
  ghost predicate ContainedInAll(p: Position, positions: map<string, Position>) {
    forall s :: s in positions ==> p <= positions[s]
  }

  /** The position all streams can be served from: one of theirs that all the others contain. There
    * is one exactly when the streams have not diverged; without streams there is none. */
  method SharedStartPosition(positions: map<string, Position>) returns (start: Option<Position>)
    ensures start.Some? <==> exists s :: s in positions && ContainedInAll(positions[s], positions)
    ensures start.Some? ==> start.value in positions.Values && ContainedInAll(start.value, positions)
  {
    if |positions| == 0 {
      assert positions.Keys == {};
      return None;
    }
    var streams := positions.Keys;
    while streams != {}
      invariant streams <= positions.Keys
      invariant forall s :: s in positions && s !in streams ==> !ContainedInAll(positions[s], positions)
      decreases streams
    {
      var stream :| stream in streams;
      streams := streams - {stream};
      var containedInAll := true;
      var others := positions.Keys;
      while others != {}
        invariant others <= positions.Keys && containedInAll
        invariant forall s :: s in positions && s !in others ==> positions[stream] <= positions[s]
        decreases others
      {
        var other :| other in others;
        others := others - {other};
        if other == stream {
          continue;
        }
        if !(positions[stream] <= positions[other]) {
          containedInAll := false;
          break;
        }
      }
      if containedInAll {
        return Some(positions[stream]);
      }
    }
    return None;
  }

  /** Any two positions it could return are the same, so the order of trying does not matter. */
  lemma SharedStartIsUnique(positions: map<string, Position>, a: Position, b: Position)
    requires a in positions.Values && b in positions.Values
    requires ContainedInAll(a, positions) && ContainedInAll(b, positions)
    ensures a == b
  {
  }

  /** Streams whose positions form a chain always share a start. */
  lemma ChainsShareAStart(positions: map<string, Position>)
    requires |positions| > 0
    requires forall s, u :: s in positions && u in positions ==>
             positions[s] <= positions[u] || positions[u] <= positions[s]
    ensures exists s :: s in positions && ContainedInAll(positions[s], positions)
  {
    var s := LeastOf(positions, positions.Keys);
    assert ContainedInAll(positions[s], positions);
  }

  lemma {:induction false} LeastOf(positions: map<string, Position>, streams: set<string>) returns (least: string)
    requires streams <= positions.Keys && streams != {}
    requires forall s, u :: s in positions && u in positions ==>
             positions[s] <= positions[u] || positions[u] <= positions[s]
    ensures least in streams && forall s :: s in streams ==> positions[least] <= positions[s]
    decreases streams
  {
    var x :| x in streams;
    var rest := streams - {x};
    assert forall s :: s in streams ==> s == x || s in rest;
    if rest == {} {
      least := x;
    } else {
      var y := LeastOf(positions, rest);
      least := if positions[x] <= positions[y] then x else y;
    }
  }

  // Routing -------------------------------------------------------------------------------------

  /** What a reader passes on. An event without a table definition is nobody's. */
  datatype Routed = Routed(table: Option<string>, tx: TxId, image: Image)

  function LowerChar(c: char): char {
    if 'A' <= c <= 'Z' then ((c as int) + 32) as char else c
  }

  function LowerCase(s: string): (r: string)
    ensures |r| == |s|
    ensures forall i :: 0 <= i < |s| ==> r[i] == if 'A' <= s[i] <= 'Z' then ((s[i] as int) + 32) as char else s[i]
  {
    seq(|s|, i requires 0 <= i < |s| => LowerChar(s[i]))
  }

  /** Two letters are one but for their case. */
  predicate SameLetter(c: char, d: char) {
    c == d || ('A' <= c <= 'Z' && d as int == c as int + 32) || ('A' <= d <= 'Z' && c as int == d as int + 32)
  }

  /** Two names are one table exactly when they differ in nothing but the case of ASCII letters. */
  lemma NamesAgreeExactlyWhen(a: string, b: string)
    ensures LowerCase(a) == LowerCase(b) <==> |a| == |b| && forall i :: 0 <= i < |a| ==> SameLetter(a[i], b[i])
  {
    if LowerCase(a) == LowerCase(b) {
      forall i | 0 <= i < |a| ensures SameLetter(a[i], b[i]) {
        assert LowerCase(a)[i] == LowerCase(b)[i];
      }
    }
  }

  predicate IsFor(e: Routed, table: string) { e.table.Some? && LowerCase(e.table.value) == table }

  /** The events of one table, in order. */
  function Only(table: string, events: seq<Routed>): seq<Routed> {
    if events == [] then []
    else Only(table, events[..|events| - 1]) + if IsFor(events[|events| - 1], table) then [events[|events| - 1]] else []
  }

  /** A queue holds its own table's events only, all of them, and in order: an event stands in it if and only
    * if its table has the queue's name but for case. */
  lemma {:induction false} OnlyItsOwnEvents(table: string, events: seq<Routed>, e: Routed)
    ensures e in Only(LowerCase(table), events) <==>
              e in events && e.table.Some? && |e.table.value| == |table| &&
              forall i :: 0 <= i < |table| ==> SameLetter(e.table.value[i], table[i])
    ensures |Only(LowerCase(table), events)| <= |events|
  {
    if e.table.Some? {
      NamesAgreeExactlyWhen(e.table.value, table);
    }
    if events != [] {
      OnlyItsOwnEvents(table, events[..|events| - 1], e);
      assert events == events[..|events| - 1] + [events[|events| - 1]];
    }
  }

  /** Queues are numbered; `tables[q]` is the lower-case table queue q was registered for. */
  class Router {
    var byTable: map<string, seq<nat>>
    var queues: seq<seq<Routed>>
    var closed: seq<nat> // how often each queue was closed
    var hasClosed: bool
    const ctx: Context
    ghost var tables: seq<string>
    ghost var events: seq<Routed>

    ghost predicate Valid()
      reads this
    {
      && |tables| == |queues| == |closed|
      && EntriesOk(byTable, tables) && AllRegistered(byTable, tables)
      && (forall q :: 0 <= q < |queues| ==> closed[q] == if hasClosed then 1 else 0)
    }

    constructor (ctx: Context)
      ensures Valid() && queues == [] && tables == [] && events == [] && !hasClosed && this.ctx == ctx
    {
      this.ctx := ctx;
      byTable, queues, closed, hasClosed := map[], [], [], false;
      tables, events := [], [];
    }

    /** Registers one more queue for a table. */
    method Add(table: string) returns (q: nat)
      requires Valid() && !hasClosed
      modifies this
      ensures Valid() && !hasClosed
      ensures q == |old(queues)| && queues == old(queues) + [[]] && tables == old(tables) + [LowerCase(table)]
      ensures events == old(events)
    {
      var key := LowerCase(table);
      q := |queues|;
      EntriesOneMore(byTable, tables, key);
      RegisteredOneMore(byTable, tables, key);
      byTable := byTable[key := Entry(byTable, key) + [q]];
      queues, closed := queues + [[]], closed + [0];
      tables := tables + [key];
    }

    /** Every queue holds exactly its table's events, in order. */
    ghost predicate Delivered()
      reads this
      requires Valid()
    {
      forall q :: 0 <= q < |queues| ==> queues[q] == Only(tables[q], events)
    }

    /** Sends an event to every queue of its table. A cancelled send may leave some of them without
      * it; a finished one leaves no queue without it and gives it to no other. */
    method Route(e: Routed) returns (ok: bool)
      requires Valid() && !hasClosed && Delivered()
      modifies this, ctx
      ensures Valid() && !hasClosed && tables == old(tables) && (!ok ==> ctx.done)
      ensures |queues| == |old(queues)|
      ensures forall q :: 0 <= q < |queues| ==>
                queues[q] == old(queues)[q] || (IsFor(e, tables[q]) && queues[q] == old(queues)[q] + [e])
      ensures ok ==> Delivered() && events == old(events) + [e]
    {
      if e.table.None? {
        events := events + [e];
        assert events[..|events| - 1] == old(events);
        return true;
      }
      var key := LowerCase(e.table.value);
      var targets := Entry(byTable, key);
      assert AllFor(targets, tables, key) && NoRepeats(targets);
      ok := Send(e, targets);
      if ok {
        events := events + [e];
        assert events[..|events| - 1] == old(events);
        forall q | 0 <= q < |queues| ensures queues[q] == Only(tables[q], events) {
          assert tables[q] in byTable && q in byTable[tables[q]];
          assert IsFor(e, tables[q]) <==> q in targets;
        }
      }
    }

    method Send(e: Routed, targets: seq<nat>) returns (ok: bool)
      requires NoRepeats(targets) && forall i :: 0 <= i < |targets| ==> targets[i] < |queues|
      modifies this`queues, ctx
      ensures |queues| == |old(queues)| && (!ok ==> ctx.done)
      ensures forall q :: 0 <= q < |queues| ==>
                queues[q] == old(queues)[q] || (q in targets && queues[q] == old(queues)[q] + [e])
      ensures ok ==> forall q :: 0 <= q < |queues| ==>
                queues[q] == if q in targets then old(queues)[q] + [e] else old(queues)[q]
    {
      for i := 0 to |targets|
        invariant |queues| == |old(queues)|
        invariant forall q :: 0 <= q < |queues| ==>
                    queues[q] == if q in targets[..i] then old(queues)[q] + [e] else old(queues)[q]
      {
        var cancelled := ctx.Done();
        if cancelled {
          return false;
        }
        var q := targets[i];
        assert q !in targets[..i];
        queues := queues[q := queues[q] + [e]];
        assert targets[..i + 1] == targets[..i] + [q];
      }
      assert targets[..|targets|] == targets;
      ok := true;
    }

    /** Closes every queue, once however often it is called. */
    method Close()
      requires Valid()
      modifies this
      ensures Valid() && hasClosed && queues == old(queues) && tables == old(tables) && events == old(events)
    {
      if !hasClosed {
        hasClosed := true;
        var i := 0;
        ghost var before := closed;
        while i < |queues|
          invariant 0 <= i <= |queues| && |closed| == |queues| && hasClosed
          invariant queues == old(queues) && tables == old(tables) && events == old(events) && byTable == old(byTable)
          invariant forall q :: 0 <= q < |queues| ==> closed[q] == if q < i then 1 else 0
        {
          closed := closed[i := closed[i] + 1];
          i := i + 1;
        }
      }
    }
  }

  ghost predicate AllFor(qs: seq<nat>, tables: seq<string>, table: string) {
    forall i :: 0 <= i < |qs| ==> qs[i] < |tables| && tables[qs[i]] == table
  }

  /** A table's entry names different queues of that table. */
  ghost predicate EntriesOk(byTable: map<string, seq<nat>>, tables: seq<string>) {
    forall t :: t in byTable ==> NoRepeats(byTable[t]) && AllFor(byTable[t], tables, t)
  }

  ghost predicate AllRegistered(byTable: map<string, seq<nat>>, tables: seq<string>) {
    forall q :: 0 <= q < |tables| ==> tables[q] in byTable && q in byTable[tables[q]]
  }

  function Entry(byTable: map<string, seq<nat>>, key: string): seq<nat> {
    if key in byTable then byTable[key] else []
  }

  lemma EntriesOneMore(byTable: map<string, seq<nat>>, tables: seq<string>, key: string)
    requires EntriesOk(byTable, tables)
    ensures EntriesOk(byTable[key := Entry(byTable, key) + [|tables|]], tables + [key])
  {
    var entry := Entry(byTable, key) + [|tables|];
    assert AllFor(Entry(byTable, key), tables, key) && NoRepeats(Entry(byTable, key));
    assert NoRepeats(entry) && AllFor(entry, tables + [key], key);
    forall t | t in byTable ensures AllFor(byTable[t], tables + [key], t) {
      assert AllFor(byTable[t], tables, t);
    }
  }

  lemma RegisteredOneMore(byTable: map<string, seq<nat>>, tables: seq<string>, key: string)
    requires AllRegistered(byTable, tables)
    ensures AllRegistered(byTable[key := Entry(byTable, key) + [|tables|]], tables + [key])
  {
    var entry := Entry(byTable, key) + [|tables|];
    assert entry[|entry| - 1] == |tables|;
    forall q | 0 <= q < |tables| ensures q in byTable[key := entry][tables[q]] {
      assert tables[q] in byTable && q in byTable[tables[q]];
      if tables[q] == key {
        assert q in Entry(byTable, key);
      }
    }
  }

  ghost predicate NoRepeats(s: seq<nat>) {
    forall i, j :: 0 <= i < j < |s| ==> s[i] != s[j]
  }

  // Together ------------------------------------------------------------------------------------

  /** What lies beyond a position. */
  function Beyond(p: Position, events: seq<Routed>): seq<Routed> {
    if events == [] then []
    else Beyond(p, events[..|events| - 1]) + if events[|events| - 1].tx !in p then [events[|events| - 1]] else []
  }

  lemma BeyondOneMore(p: Position, events: seq<Routed>, e: Routed)
    ensures Beyond(p, events + [e]) == Beyond(p, events) + if e.tx !in p then [e] else []
  {
    assert (events + [e])[..|events|] == events;
  }

  lemma OnlyOneMore(table: string, events: seq<Routed>, e: Routed)
    ensures Only(table, events + [e]) == Only(table, events) + if IsFor(e, table) then [e] else []
  {
    assert (events + [e])[..|events|] == events;
  }

  /** A stream served from the shared start gets, after what it has already seen, exactly its own
    * table's events beyond its own position: nothing is missed, added or reordered. */
  lemma {:induction false} NoStreamMissesAnEvent(table: string, start: Position, own: Position, log: seq<Routed>)
    requires start <= own
    ensures Beyond(own, Only(table, Beyond(start, log))) == Only(table, Beyond(own, log))
  {
    if log != [] {
      var n := |log| - 1;
      var e := log[n];
      assert forall s: seq<Routed> :: s + [] == s;
      NoStreamMissesAnEvent(table, start, own, log[..n]);
      if e.tx !in start {
        OnlyOneMore(table, Beyond(start, log[..n]), e);
        if IsFor(e, table) {
          BeyondOneMore(own, Only(table, Beyond(start, log[..n])), e);
        }
      }
      if e.tx !in own {
        OnlyOneMore(table, Beyond(own, log[..n]), e);
      }
    }
  }
}
