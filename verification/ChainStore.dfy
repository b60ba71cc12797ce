/** The Postgres rows that reconciliation reads and writes: chain executions, reservations and the block cursor. */
module ChainStore {
  import opened Basics
  import opened Words

  datatype ChainExecution = ChainExecution(
    account: Word, sessionId: Word, nonceKey: Word, frameSpend: nat, totalSpendAfter: nat,
    digest: Option<Word>, block: nat, txHash: nat, logIndex: nat)

  datatype Status = BudgetReserved | UserOpSubmitted | BudgetCommitted | BudgetReleased

  datatype Reservation = Reservation(id: string, sessionId: Word, digest: Option<Word>, status: Status)

  predicate SameKey(a: ChainExecution, b: ChainExecution) {
    a.txHash == b.txHash && a.logIndex == b.logIndex
  }

  /** INSERT .. ON CONFLICT (tx_hash, log_index) DO NOTHING; None when the unique digest index refuses the row. */
  function InsertRow(rows: set<ChainExecution>, row: ChainExecution): Option<set<ChainExecution>> {
    if exists r | r in rows :: SameKey(r, row) then Some(rows)
    else if row.digest.Some? && exists r | r in rows :: r.digest == row.digest then None
    else Some(rows + {row})
  }

  /** The table's two unique constraints: one row per log, and one per digest. */
  predicate UniqueRows(rows: set<ChainExecution>) {
    && (forall a, b | a in rows && b in rows && SameKey(a, b) :: a == b)
    && (forall a, b | a in rows && b in rows && a.digest.Some? && a.digest == b.digest :: a == b)
  }

  /** An insertion is refused exactly if no row has its key but one has its digest; otherwise the table then holds a row with its
      key, and at most that row more, under the same constraints. */
  lemma InsertRowIff(rows: set<ChainExecution>, row: ChainExecution)
    requires UniqueRows(rows)
    ensures InsertRow(rows, row).None? <==>
            && (forall r | r in rows :: !SameKey(r, row))
            && row.digest.Some? && exists r | r in rows :: r.digest == row.digest
    ensures InsertRow(rows, row).Some? ==>
              var rows' := InsertRow(rows, row).value;
              && rows <= rows' <= rows + {row} && UniqueRows(rows')
              && exists r | r in rows' :: SameKey(r, row)
  {
    if (forall r | r in rows :: !SameKey(r, row)) && InsertRow(rows, row).Some? {
      assert SameKey(row, row) && row in rows + {row};
    }
  }

  predicate Open(r: Reservation) {
    r.status == BudgetReserved || r.status == UserOpSubmitted
  }

  predicate Awaits(r: Reservation, sessionId: Word, digest: Word) {
    Open(r) && r.sessionId == sessionId && r.digest == Some(digest)
  }

  /** Commits one open reservation of the session bound to the digest, if there is one. */
  function CommitMatching(rs: seq<Reservation>, sessionId: Word, digest: Word): seq<Reservation> {
    if rs == [] then []
    else if Awaits(rs[0], sessionId, digest) then [rs[0].(status := BudgetCommitted)] + rs[1..]
    else [rs[0]] + CommitMatching(rs[1..], sessionId, digest)
  }

  function CommitFor(rs: seq<Reservation>, row: ChainExecution): seq<Reservation> {
    if row.digest.None? then rs else CommitMatching(rs, row.sessionId, row.digest.value)
  }

  class Store {
    var rows: set<ChainExecution>
    var reservations: seq<Reservation>
    var cursor: Option<nat>

    constructor (reservations: seq<Reservation>)
      ensures rows == {} && this.reservations == reservations && cursor == None
    {
      rows, this.reservations, cursor := {}, reservations, None;
    }

    /** Two statements, either of which may fail before or after it took effect. */
    method RecordChainExecution(row: ChainExecution, insert: Fault, commit: Fault) returns (ok: bool)
      modifies this`rows, this`reservations
      ensures rows == old(rows) || Some(rows) == InsertRow(old(rows), row)
      ensures reservations == old(reservations) || reservations == CommitFor(old(reservations), row)
      ensures ok ==> Some(rows) == InsertRow(old(rows), row) && reservations == CommitFor(old(reservations), row)
      ensures reservations != old(reservations) ==> Some(rows) == InsertRow(old(rows), row)
      ensures insert == commit == Works && InsertRow(old(rows), row).Some? ==> ok
    {
      var inserted := InsertRow(rows, row);
      if insert == FailsBefore || inserted.None? {
        return false;
      }
      rows := inserted.value;
      if insert == FailsAfter {
        return false;
      }
      if row.digest.None? {
        return true;
      }
      if commit != FailsBefore {
        reservations := CommitMatching(reservations, row.sessionId, row.digest.value);
      }
      return commit == Works;
    }

    method GetWatcherBlockCursor(fault: Fault) returns (block: Option<nat>)
      ensures block == if fault == Works then cursor else None
    {
      return if fault == Works then cursor else None;
    }

    /** Writes the block, then its hash; only the block is read back. */
    method SetWatcherBlockCursor(block: nat, value: Fault, hash: Fault) returns (ok: bool)
      modifies this`cursor
      ensures cursor == old(cursor) || cursor == Some(block)
      ensures ok ==> cursor == Some(block)
      ensures value == hash == Works ==> ok
    {
      if value == FailsBefore {
        return false;
      }
      cursor := Some(block);
      return value == Works && hash == Works;
    }
  }
}
