/** Ingesting chain events into the store: the result depends on which events were ingested, not on order or repetition. */
module Reconciliation {
  import opened Basics
  import opened Words
  import opened ChainStore

  datatype Tables = Tables(rows: set<ChainExecution>, reservations: seq<Reservation>)

  /** Records one event, when the unique indexes admit it. */
  function Ingest(t: Tables, row: ChainExecution): Tables {
    match InsertRow(t.rows, row)
    case None => t
    case Some(rows) => Tables(rows, CommitFor(t.reservations, row))
  }

  function IngestAll(t: Tables, events: seq<ChainExecution>): Tables {
    if events == [] then t else Ingest(IngestAll(t, events[..|events| - 1]), events[|events| - 1])
  }

  /** The events come from one chain: the log position, and the digest if there is one, identify the event. */
  predicate OneChain(rows: set<ChainExecution>) {
    forall a, b | a in rows && b in rows :: SameKey(a, b) || (a.digest.Some? && a.digest == b.digest) ==> a == b
  }

  /** No two reservations of a session are bound to the same digest. */
  predicate DistinctBindings(rs: seq<Reservation>) {
    forall i, j | 0 <= i < j < |rs| :: rs[i].digest.Some? && rs[i].digest == rs[j].digest ==> rs[i].sessionId != rs[j].sessionId
  }

  /** What an event stands for in reconciliation. */
  predicate Matches(r: Reservation, row: ChainExecution) {
    row.digest.Some? && r.digest == row.digest && r.sessionId == row.sessionId
  }

  /** A reservation after the events in `rows` were ingested. */
  function Settle(r: Reservation, rows: set<ChainExecution>): Reservation {
    if Open(r) && exists row | row in rows :: Matches(r, row) then r.(status := BudgetCommitted) else r
  }

  function SettleAll(rs: seq<Reservation>, rows: set<ChainExecution>): (out: seq<Reservation>)
    ensures |out| == |rs|
  {
    seq(|rs|, i requires 0 <= i < |rs| => Settle(rs[i], rows))
  }

  /** Every reservation is as before, or was open and is now committed by a recorded event of its own session and digest. */
  predicate CommittedByRows(before: seq<Reservation>, after: seq<Reservation>, rows: set<ChainExecution>) {
    && |after| == |before|
    && forall i | 0 <= i < |before| :: after[i] == before[i] || CommittedByRow(before[i], after[i], rows)
  }

  predicate CommittedByRow(before: Reservation, after: Reservation, rows: set<ChainExecution>) {
    Open(before) && after == before.(status := BudgetCommitted) && exists row | row in rows :: Matches(before, row)
  }

  lemma CommittedByNone(rs: seq<Reservation>, rows: set<ChainExecution>)
    ensures CommittedByRows(rs, rs, rows)
  {
  }

  lemma CommittedByRowsTransitive(a: seq<Reservation>, b: seq<Reservation>, c: seq<Reservation>, rows: set<ChainExecution>, rows': set<ChainExecution>)
    requires CommittedByRows(a, b, rows) && CommittedByRows(b, c, rows') && rows <= rows'
    ensures CommittedByRows(a, c, rows')
  {
  }

  lemma CommittedByRowsKeepsBindings(before: seq<Reservation>, after: seq<Reservation>, rows: set<ChainExecution>)
    requires CommittedByRows(before, after, rows) && DistinctBindings(before)
    ensures DistinctBindings(after)
  {
    assert forall i | 0 <= i < |before| :: after[i].digest == before[i].digest && after[i].sessionId == before[i].sessionId;
  }

  /** Whatever the bindings, an event commits only open reservations that match it. */
  lemma {:induction false} CommitMatchingIsJustified(rs: seq<Reservation>, row: ChainExecution, rows: set<ChainExecution>)
    requires row in rows && row.digest.Some?
    ensures CommittedByRows(rs, CommitMatching(rs, row.sessionId, row.digest.value), rows)
  {
    if rs != [] {
      if Awaits(rs[0], row.sessionId, row.digest.value) {
        assert Matches(rs[0], row);
      } else {
        CommitMatchingIsJustified(rs[1..], row, rows);
      }
    }
  }

  /** No open reservation is still waiting for the event. */
  predicate NoneAwaits(rs: seq<Reservation>, row: ChainExecution) {
    forall r | r in rs && Open(r) :: !Matches(r, row)
  }

  lemma CommitForLeavesNone(rs: seq<Reservation>, row: ChainExecution)
    requires DistinctBindings(rs)
    ensures NoneAwaits(CommitFor(rs, row), row)
  {
    if row.digest.Some? {
      CommitMatchingIsPointwise(rs, row.sessionId, row.digest.value);
    }
  }

  lemma NoneAwaitsLater(before: seq<Reservation>, after: seq<Reservation>, rows: set<ChainExecution>, row: ChainExecution)
    requires CommittedByRows(before, after, rows) && NoneAwaits(before, row)
    ensures NoneAwaits(after, row)
  {
    forall r | r in after && Open(r) ensures !Matches(r, row) {
      var i :| 0 <= i < |after| && after[i] == r;
      assert after[i] == before[i] && before[i] in before;
    }
  }

  lemma RestKeepsBindings(rs: seq<Reservation>, s: Word, d: Word)
    requires rs != [] && DistinctBindings(rs)
    ensures DistinctBindings(rs[1..])
    ensures Awaits(rs[0], s, d) ==> forall r | r in rs[1..] :: !Awaits(r, s, d)
  {
    var rest := rs[1..];
    assert forall i | 0 <= i < |rest| :: rest[i] == rs[i + 1];
  }

  /** When bindings are distinct, committing "one" match commits the match. */
  lemma {:induction false} CommitMatchingIsPointwise(rs: seq<Reservation>, s: Word, d: Word)
    requires DistinctBindings(rs)
    ensures |CommitMatching(rs, s, d)| == |rs|
    ensures forall i | 0 <= i < |rs| :: CommitMatching(rs, s, d)[i] == if Awaits(rs[i], s, d) then rs[i].(status := BudgetCommitted) else rs[i]
  {
    hide Awaits, DistinctBindings;
    if rs != [] {
      RestKeepsBindings(rs, s, d);
      if !Awaits(rs[0], s, d) {
        CommitMatchingIsPointwise(rs[1..], s, d);
      } else {
        assert forall i | 0 < i < |rs| :: rs[i] in rs[1..];
      }
    }
  }

  lemma SettleKeepsBindings(rs: seq<Reservation>, rows: set<ChainExecution>)
    requires DistinctBindings(rs)
    ensures DistinctBindings(SettleAll(rs, rows))
  {
    assert forall i | 0 <= i < |rs| :: SettleAll(rs, rows)[i].digest == rs[i].digest && SettleAll(rs, rows)[i].sessionId == rs[i].sessionId;
  }

  lemma CommitForSettles(rs: seq<Reservation>, rows: set<ChainExecution>, row: ChainExecution)
    requires DistinctBindings(rs)
    ensures CommitFor(SettleAll(rs, rows), row) == SettleAll(rs, rows + {row})
  {
    var before, after := SettleAll(rs, rows), SettleAll(rs, rows + {row});
    SettleKeepsBindings(rs, rows);
    if row.digest.Some? {
      CommitMatchingIsPointwise(before, row.sessionId, row.digest.value);
    }
    forall i | 0 <= i < |rs| ensures CommitFor(before, row)[i] == after[i] {
      SettleOneMore(rs[i], rows, row);
    }
  }

  lemma SettleOneMore(r: Reservation, rows: set<ChainExecution>, row: ChainExecution)
    ensures Settle(r, rows + {row}) == if Open(Settle(r, rows)) && Matches(r, row) then r.(status := BudgetCommitted) else Settle(r, rows)
  {
    assert (exists x | x in rows + {row} :: Matches(r, x)) <==> (exists x | x in rows :: Matches(r, x)) || Matches(r, row);
  }

  function Events(events: seq<ChainExecution>): set<ChainExecution> {
    set e | e in events
  }

  /** Ingesting any list of events of one chain, in any order and with repetitions, adds exactly those rows and commits
      exactly the open reservations bound to one of them in their own session. */
  lemma {:induction false} IngestIsOrderFree(t: Tables, events: seq<ChainExecution>)
    requires OneChain(t.rows + Events(events)) && DistinctBindings(t.reservations)
    ensures IngestAll(t, events) == Tables(t.rows + Events(events), SettleAll(t.reservations, Events(events)))
  {
    if events == [] {
      assert Events(events) == {};
      assert SettleAll(t.reservations, {}) == t.reservations;
      assert t.rows + {} == t.rows;
    } else {
      var fewer, last := events[..|events| - 1], events[|events| - 1];
      assert events == fewer + [last];
      assert Events(events) == Events(fewer) + {last};
      assert t.rows + Events(fewer) <= t.rows + Events(events);
      IngestIsOrderFree(t, fewer);
      var done := IngestAll(t, fewer);
      assert last in t.rows + Events(events);
      assert InsertRow(done.rows, last) == Some(t.rows + Events(events)) by {
        if exists r | r in done.rows :: SameKey(r, last) {
          assert last in done.rows;
          assert done.rows == t.rows + Events(events);
        } else {
          assert done.rows + {last} == t.rows + Events(events);
        }
      }
      CommitForSettles(t.reservations, Events(fewer), last);
    }
  }

  /** Two ingestions of the same events agree on every row and every reservation. */
  lemma SameEventsSameTables(t: Tables, events: seq<ChainExecution>, others: seq<ChainExecution>)
    requires Events(events) == Events(others)
    requires OneChain(t.rows + Events(events)) && DistinctBindings(t.reservations)
    ensures IngestAll(t, events) == IngestAll(t, others)
  {
    IngestIsOrderFree(t, events);
    IngestIsOrderFree(t, others);
  }

  /** A reservation becomes committed by ingestion if and only if it was reserved, or already submitted, and an event of its
      session carried its digest. */
  lemma CommittedIff(t: Tables, events: seq<ChainExecution>, i: nat)
    requires OneChain(t.rows + Events(events)) && DistinctBindings(t.reservations)
    requires i < |t.reservations| && t.reservations[i].status != BudgetCommitted
    ensures |IngestAll(t, events).reservations| == |t.reservations|
    ensures IngestAll(t, events).reservations[i].status == BudgetCommitted
       <==> && t.reservations[i].status in {BudgetReserved, UserOpSubmitted}
            && exists e | e in events :: e.digest.Some? && e.digest == t.reservations[i].digest && e.sessionId == t.reservations[i].sessionId
  {
    IngestIsOrderFree(t, events);
    assert (exists e | e in events :: Matches(t.reservations[i], e))
      <==> (exists e | e in events :: e.digest.Some? && e.digest == t.reservations[i].digest && e.sessionId == t.reservations[i].sessionId);
    assert (exists e | e in events :: Matches(t.reservations[i], e)) <==> (exists e | e in Events(events) :: Matches(t.reservations[i], e));
  }

  // ---------- Without distinct bindings ----------

  function OpenMatches(rs: seq<Reservation>, s: Word, d: Word): nat {
    if rs == [] then 0 else (if Awaits(rs[0], s, d) then 1 else 0) + OpenMatches(rs[1..], s, d)
  }

  lemma {:induction false} EachCommitTakesOne(rs: seq<Reservation>, s: Word, d: Word)
    ensures OpenMatches(CommitMatching(rs, s, d), s, d) == if OpenMatches(rs, s, d) == 0 then 0 else OpenMatches(rs, s, d) - 1
    ensures OpenMatches(rs, s, d) == 0 <==> CommitMatching(rs, s, d) == rs
  {
    if rs != [] {
      var out := CommitMatching(rs, s, d);
      EachCommitTakesOne(rs[1..], s, d);
      if Awaits(rs[0], s, d) {
        assert out[1..] == rs[1..] && out[0] != rs[0];
      } else {
        assert out[1..] == CommitMatching(rs[1..], s, d);
        assert rs == [rs[0]] + rs[1..];
      }
    }
  }

  /** Ingesting an event again changes nothing if and only if at most one open reservation was bound to it. */
  lemma RepeatIsHarmlessIff(t: Tables, row: ChainExecution)
    requires row in t.rows && row.digest.Some?
    ensures Ingest(Ingest(t, row), row) == Ingest(t, row) <==> OpenMatches(t.reservations, row.sessionId, row.digest.value) <= 1
  {
    EachCommitTakesOne(t.reservations, row.sessionId, row.digest.value);
    EachCommitTakesOne(CommitFor(t.reservations, row), row.sessionId, row.digest.value);
  }
}
