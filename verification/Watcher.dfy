/** The polling reconciler: every call it makes may fail, it may restart at any time, and it rescans on purpose. */
module Watcher {
  import opened Basics
  import opened Words
  import opened ChainStore
  import opened Reconciliation

  datatype Log = Log(block: nat, txHash: nat, logIndex: nat, topics: seq<Word>, data: seq<Word>)

  datatype Parsed = Skipped | Row(row: ChainExecution) | Unstorable

  /** A log position identifies a log. */
  predicate UniqueKeys(chain: seq<Log>) {
    forall a, b | a in chain && b in chain :: a.txHash == b.txHash && a.logIndex == b.logIndex ==> a == b
  }

  function Amount(w: Word): nat {
    if w.Num? then w.n else 0
  }

  /** `ingestLog`'s reading of a log; with less than two data words the amounts are empty strings, which the numeric columns refuse. */
  function Parse(lg: Log): Parsed {
    if |lg.topics| < 4 then Skipped
    else if |lg.data| >= 3 then
      Row(ChainExecution(lg.topics[1], lg.topics[2], lg.topics[3], Amount(lg.data[1]), Amount(lg.data[2]), Some(lg.data[0]), lg.block, lg.txHash, lg.logIndex))
    else if |lg.data| == 2 then
      Row(ChainExecution(lg.topics[1], lg.topics[2], lg.topics[3], Amount(lg.data[0]), Amount(lg.data[1]), None, lg.block, lg.txHash, lg.logIndex))
    else Unstorable
  }

  /** How a log of four topics is read: with a digest from three data words on, without one from two. */
  lemma ParseReads(lg: Log, account: Word, sessionId: Word, nonceKey: Word, frameSpend: nat, totalSpendAfter: nat, digest: Option<Word>)
    requires |lg.topics| >= 4 && lg.topics[1..4] == [account, sessionId, nonceKey]
    requires var amounts := [Num(frameSpend), Num(totalSpendAfter)]; lg.data == if digest.Some? then [digest.value] + amounts else amounts
    ensures Parse(lg) == Row(ChainExecution(account, sessionId, nonceKey, frameSpend, totalSpendAfter, digest, lg.block, lg.txHash, lg.logIndex))
  {
    var topics := lg.topics[1..4];
    assert lg.topics[1] == topics[0] && lg.topics[2] == topics[1] && lg.topics[3] == topics[2];
  }

  /** A log is skipped exactly if it has too few topics, and cannot be stored exactly if it then has too little data. */
  lemma UnreadableIff(lg: Log)
    ensures Parse(lg).Skipped? <==> |lg.topics| < 4
    ensures Parse(lg).Unstorable? <==> |lg.topics| >= 4 && |lg.data| < 2
  {
  }

  /** The deepest block that has `confirm` blocks above it, if there is one. */
  function ComputeSafeHead(head: nat, confirm: nat): (safe: Option<nat>)
    ensures safe.Some? <==> confirm <= head
    ensures safe.Some? ==> safe.value + confirm == head
  {
    if confirm > 0 && head < confirm then None
    else Some(if confirm > 0 then head - confirm else head)
  }

  /** eth_getLogs over a block range: exactly the hook's logs in it, in chain order. */
  function FilterLogs(chain: seq<Log>, from: nat, to: nat): (logs: seq<Log>)
    ensures forall lg :: lg in logs <==> lg in chain && from <= lg.block <= to
  {
    if chain == [] then []
    else
      var rest := FilterLogs(chain[1..], from, to);
      assert forall lg :: lg in chain <==> lg == chain[0] || lg in chain[1..];
      if from <= chain[0].block <= to then [chain[0]] + rest else rest
  }

  lemma {:induction false} NoneFiltered(logs: seq<Log>, block: nat)
    requires forall lg | lg in logs :: lg.block != block
    ensures FilterLogs(logs, block, block) == []
  {
    if logs != [] {
      assert logs[0] in logs && forall lg | lg in logs[1..] :: lg in logs;
      NoneFiltered(logs[1..], block);
    }
  }

  lemma {:induction false} FilterAppend(logs: seq<Log>, lg: Log, from: nat, to: nat)
    ensures FilterLogs(logs + [lg], from, to) == FilterLogs(logs, from, to) + if from <= lg.block <= to then [lg] else []
  {
    if logs != [] {
      assert (logs + [lg])[1..] == logs[1..] + [lg];
      FilterAppend(logs[1..], lg, from, to);
    }
  }

  /** The groups so far hold every log so far in its own block's group, in order. */
  predicate Grouped(groups: map<nat, seq<Log>>, logs: seq<Log>) {
    (forall b | b in groups :: groups[b] == FilterLogs(logs, b, b)) && (forall lg | lg in logs :: lg.block in groups)
  }

  lemma GroupsGrow(groups: map<nat, seq<Log>>, logs: seq<Log>, lg: Log)
    requires Grouped(groups, logs)
    ensures Grouped(groups[lg.block := (if lg.block in groups then groups[lg.block] else []) + [lg]], logs + [lg])
  {
    hide FilterLogs;
    if lg.block !in groups {
      NoneFiltered(logs, lg.block);
    }
    var grown := groups[lg.block := (if lg.block in groups then groups[lg.block] else []) + [lg]];
    forall b | b in grown ensures grown[b] == FilterLogs(logs + [lg], b, b) {
      FilterAppend(logs, lg, b, b);
    }
  }

  // ---------- What is recorded ----------

  /** Every row is the reading of a log of the chain. */
  predicate Sound(chain: seq<Log>, rows: set<ChainExecution>) {
    forall r | r in rows :: exists lg | lg in chain :: Parse(lg) == Row(r)
  }

  /** Every readable log from block `first` through `last` is recorded. */
  predicate CompleteTo(chain: seq<Log>, rows: set<ChainExecution>, first: nat, last: nat) {
    forall lg | lg in chain && first <= lg.block <= last && Parse(lg).Row? :: Parse(lg).row in rows
  }

  /** No open reservation is bound to a log of its session from block `first` through `last`. */
  predicate Settled(chain: seq<Log>, rs: seq<Reservation>, first: nat, last: nat) {
    forall lg | lg in chain && first <= lg.block <= last && Parse(lg).Row? :: NoneAwaits(rs, Parse(lg).row)
  }

  lemma SettledLater(chain: seq<Log>, before: seq<Reservation>, after: seq<Reservation>, rows: set<ChainExecution>, first: nat, last: nat)
    requires CommittedByRows(before, after, rows) && Settled(chain, before, first, last)
    ensures Settled(chain, after, first, last)
  {
    forall lg | lg in chain && first <= lg.block <= last && Parse(lg).Row? ensures NoneAwaits(after, Parse(lg).row) {
      NoneAwaitsLater(before, after, rows, Parse(lg).row);
    }
  }

  /** A chain the store can take in full: its logs are readable and no digest repeats. */
  predicate Storable(chain: seq<Log>) {
    && (forall lg | lg in chain :: !Parse(lg).Unstorable?)
    && (forall a, b | a in chain && b in chain && Parse(a).Row? && Parse(b).Row? ::
          Parse(a).row.digest.Some? && Parse(a).row.digest == Parse(b).row.digest ==> a == b)
  }

  lemma InsertKeepsSound(chain: seq<Log>, rows: set<ChainExecution>, rows': set<ChainExecution>, lg: Log)
    requires UniqueKeys(chain) && Sound(chain, rows) && lg in chain && Parse(lg).Row?
    requires Some(rows') == InsertRow(rows, Parse(lg).row)
    ensures rows <= rows' && Sound(chain, rows') && Parse(lg).row in rows'
  {
    var row := Parse(lg).row;
    if exists r | r in rows :: SameKey(r, row) {
      var r :| r in rows && SameKey(r, row);
      var other :| other in chain && Parse(other) == Row(r);
      assert other == lg;
    }
  }

  /** On a storable chain no insertion is refused: a digest already present belongs to the same log. */
  lemma InsertSucceeds(chain: seq<Log>, rows: set<ChainExecution>, lg: Log)
    requires UniqueKeys(chain) && Storable(chain) && Sound(chain, rows) && lg in chain && Parse(lg).Row?
    ensures InsertRow(rows, Parse(lg).row).Some?
  {
    var row := Parse(lg).row;
    if r :| r in rows && row.digest.Some? && r.digest == row.digest {
      var other :| other in chain && Parse(other) == Row(r);
      assert other == lg;
      assert SameKey(r, row);
    }
  }

  datatype Config = Config(startBlock: nat, confirmation: nat, rescanBlocks: nat)

  /** The block scanning begins at when there is no cursor. */
  function FirstBlock(cfg: Config): nat {
    if cfg.startBlock > 0 then cfg.startBlock else 1
  }

  datatype Tick = Tick(head: nat, faults: seq<Fault>)

  /** One process lifetime: whether the cursor could be read, then its ticks. */
  datatype Life = Life(cursorRead: Fault, ticks: seq<Tick>)

  class Reconciler {
    const cfg: Config
    const store: Store
    var lastBlock: nat
    var faults: seq<Fault>   // what the coming calls do; past its end they work

    /** Recorded in full up to the cursor in memory and up to the stored one. */
    ghost predicate Valid(chain: seq<Log>)
      reads this, store
    {
      && UniqueKeys(chain)
      && Sound(chain, store.rows)
      && CompleteTo(chain, store.rows, FirstBlock(cfg), lastBlock)
      && (store.cursor.Some? ==> CompleteTo(chain, store.rows, FirstBlock(cfg), store.cursor.value))
    }

    /** No open reservation is bound to a log up to the cursor in memory or up to the stored one. */
    ghost predicate AllSettled(chain: seq<Log>)
      reads this, store
    {
      && Settled(chain, store.reservations, FirstBlock(cfg), lastBlock)
      && (store.cursor.Some? ==> Settled(chain, store.reservations, FirstBlock(cfg), store.cursor.value))
    }

    /** `Run`'s start-up: resume from the stored cursor, or from the start block. */
    constructor (cfg: Config, store: Store, cursorRead: Fault, ghost chain: seq<Log>)
      requires UniqueKeys(chain) && Sound(chain, store.rows)
      requires store.cursor.Some? ==> CompleteTo(chain, store.rows, FirstBlock(cfg), store.cursor.value)
      ensures this.cfg == cfg && this.store == store && Valid(chain) && faults == []
      ensures (store.cursor.Some? ==> Settled(chain, store.reservations, FirstBlock(cfg), store.cursor.value)) ==> AllSettled(chain)
      ensures lastBlock == if cursorRead == Works && store.cursor.Some? then store.cursor.value else FirstBlock(cfg) - 1
    {
      this.cfg, this.store := cfg, store;
      faults := [];
      var cursor := store.GetWatcherBlockCursor(cursorRead);
      lastBlock := if cursor.Some? then cursor.value else if cfg.startBlock > 0 then cfg.startBlock - 1 else 0;
    }

    /** What the next call does. */
    method Next() returns (f: Fault)
      modifies this`faults
      ensures old(faults) == [] ==> f == Works && faults == []
    {
      if faults == [] {
        return Works;
      }
      f := faults[0];
      faults := faults[1..];
    }

    method IngestLog(chain: seq<Log>, lg: Log) returns (ok: bool)
      requires UniqueKeys(chain) && Sound(chain, store.rows) && lg in chain
      modifies this`faults, store`rows, store`reservations
      ensures Sound(chain, store.rows) && old(store.rows) <= store.rows
      ensures forall r | r in store.rows && r !in old(store.rows) :: Row(r) == Parse(lg)
      ensures ok && Parse(lg).Row? ==> Parse(lg).row in store.rows
      ensures CommittedByRows(old(store.reservations), store.reservations, store.rows)
      ensures ok && Parse(lg).Row? && DistinctBindings(old(store.reservations)) ==> NoneAwaits(store.reservations, Parse(lg).row)
      ensures old(faults) == [] ==> faults == []
      ensures old(faults) == [] && Storable(chain) ==> ok
    {
      var parsed := Parse(lg);
      match parsed
      case Skipped => return true;
      case Unstorable => return false;
      case Row(row) =>
        ghost var before, waiting := store.rows, store.reservations;
        var insert := Next();
        var commit := Next();
        ok := store.RecordChainExecution(row, insert, commit);
        if Some(store.rows) == InsertRow(before, row) {
          InsertKeepsSound(chain, before, store.rows, lg);
        }
        if store.reservations != waiting {
          CommitMatchingIsJustified(waiting, row, store.rows);
        }
        if DistinctBindings(waiting) {
          CommitForLeavesNone(waiting, row);
        }
        if Storable(chain) {
          InsertSucceeds(chain, before, lg);
        }
    }

    /** The logs of one block, in order. */
    method IngestBlock(chain: seq<Log>, logs: seq<Log>, block: nat) returns (ok: bool)
      requires UniqueKeys(chain) && Sound(chain, store.rows) && forall lg | lg in logs :: lg in chain && lg.block == block
      modifies this`faults, store`rows, store`reservations
      ensures Sound(chain, store.rows) && old(store.rows) <= store.rows
      ensures forall r | r in store.rows && r !in old(store.rows) :: r.block == block
      ensures ok ==> forall lg | lg in logs && Parse(lg).Row? :: Parse(lg).row in store.rows
      ensures CommittedByRows(old(store.reservations), store.reservations, store.rows)
      ensures ok && DistinctBindings(old(store.reservations)) ==>
                forall lg | lg in logs && Parse(lg).Row? :: NoneAwaits(store.reservations, Parse(lg).row)
      ensures old(faults) == [] ==> faults == []
      ensures old(faults) == [] && Storable(chain) ==> ok
    {
      var i := 0;
      while i < |logs|
        invariant 0 <= i <= |logs| && Sound(chain, store.rows) && old(store.rows) <= store.rows
        invariant forall r | r in store.rows && r !in old(store.rows) :: r.block == block
        invariant forall lg | lg in logs[..i] && Parse(lg).Row? :: Parse(lg).row in store.rows
        invariant CommittedByRows(old(store.reservations), store.reservations, store.rows)
        invariant DistinctBindings(old(store.reservations)) ==>
                    forall lg | lg in logs[..i] && Parse(lg).Row? :: NoneAwaits(store.reservations, Parse(lg).row)
        invariant old(faults) == [] ==> faults == []
      {
        ghost var rows, waiting := store.rows, store.reservations;
        ok := IngestLog(chain, logs[i]);
        CommittedByRowsTransitive(old(store.reservations), waiting, store.reservations, rows, store.rows);
        if DistinctBindings(old(store.reservations)) {
          CommittedByRowsKeepsBindings(old(store.reservations), waiting, rows);
          forall lg | lg in logs[..i] && Parse(lg).Row? ensures NoneAwaits(store.reservations, Parse(lg).row) {
            NoneAwaitsLater(waiting, store.reservations, store.rows, Parse(lg).row);
          }
        }
        if !ok {
          return false;
        }
        assert logs[..i + 1] == logs[..i] + [logs[i]];
        i := i + 1;
      }
      assert logs[..i] == logs;
      return true;
    }

    /** Groups logs by block, keeping their order. */
    static method GroupByBlock(logs: seq<Log>) returns (groups: map<nat, seq<Log>>)
      ensures forall b | b in groups :: groups[b] == FilterLogs(logs, b, b)
      ensures forall lg | lg in logs :: lg.block in groups
    {
      groups := map[];
      hide FilterLogs;
      for i := 0 to |logs|
        invariant Grouped(groups, logs[..i])
      {
        var lg := logs[i];
        GroupsGrow(groups, logs[..i], lg);
        var before := if lg.block in groups then groups[lg.block] else [];
        groups := groups[lg.block := before + [lg]];
        assert logs[..i + 1] == logs[..i] + [lg];
      }
      assert logs[..|logs|] == logs;
    }

    /** The first block of a poll: the one after the cursor, or further back by the rescan width. */
    method ScanStart() returns (from: nat)
      ensures from <= lastBlock + 1
      ensures cfg.rescanBlocks <= lastBlock ==> from + cfg.rescanBlocks == lastBlock + 1
      ensures cfg.rescanBlocks > lastBlock ==> from == lastBlock + 1
    {
      from := lastBlock + 1;
      if cfg.rescanBlocks > 0 && lastBlock >= cfg.rescanBlocks {
        var rewind := lastBlock - cfg.rescanBlocks + 1;
        if rewind < from {
          from := rewind;
        }
      }
    }

    /** One poll at chain head `head`.  Whatever fails, the record stays complete up to both cursors, nothing from a block
        with fewer than `confirmation` blocks above it is added, and a reservation is committed only by a recorded event of
        its own.  With distinct bindings, what was settled up to the cursors stays so although they move, and a poll that
        scans to its end settles every log after the cursor and, whatever was bound since, in the last `rescanBlocks` blocks
        up to it.  If nothing fails, the cursor reaches the safe head. */
    method Poll(chain: seq<Log>, head: nat) returns (ok: bool)
      requires Valid(chain)
      modifies this`lastBlock, this`faults, store
      ensures Valid(chain) && old(store.rows) <= store.rows
      ensures forall r | r in store.rows && r !in old(store.rows) :: r.block + cfg.confirmation <= head
      ensures CommittedByRows(old(store.reservations), store.reservations, store.rows)
      ensures DistinctBindings(old(store.reservations)) && old(AllSettled(chain)) ==> AllSettled(chain)
      ensures DistinctBindings(old(store.reservations)) && ok && old(lastBlock) + cfg.confirmation < head ==>
                forall lg | lg in chain && lg.block + cfg.confirmation <= head && Parse(lg).Row?
                  && (lg.block > old(lastBlock) || (cfg.rescanBlocks <= old(lastBlock) && lg.block + cfg.rescanBlocks > old(lastBlock))) ::
                  NoneAwaits(store.reservations, Parse(lg).row)
      ensures ok && old(lastBlock) + cfg.confirmation < head ==> lastBlock + cfg.confirmation == head
      ensures old(faults) == [] && Storable(chain) ==> ok && head <= lastBlock + cfg.confirmation
    {
      var f := Next();
      if f != Works {
        return false;
      }
      var safeHead := ComputeSafeHead(head, cfg.confirmation);
      if safeHead.None? {
        return true;
      }
      if safeHead.value <= lastBlock {
        return true;
      }
      var from := ScanStart();
      var to := safeHead.value;
      f := Next();
      if f != Works {
        return false;
      }
      var logs := FilterLogs(chain, from, to);
      var groups := GroupByBlock(logs);
      ok := ScanBlocks(chain, groups, from, to);
    }

    /** Reads the block's header and stores the cursor. */
    method StoreCursor(block: nat) returns (ok: bool)
      modifies this`faults, store`cursor
      ensures store.cursor == old(store.cursor) || store.cursor == Some(block)
      ensures ok ==> store.cursor == Some(block)
      ensures old(faults) == [] ==> ok && faults == []
    {
      var header := Next();
      if header != Works {
        return false;
      }
      var value := Next();
      var hash := Next();
      ok := store.SetWatcherBlockCursor(block, value, hash);
    }

    /** Ingests the blocks in order, moving both cursors after each; on a rescan they move back and then forward again. */
    method ScanBlocks(chain: seq<Log>, groups: map<nat, seq<Log>>, from: nat, last: nat) returns (ok: bool)
      requires Valid(chain) && from <= lastBlock + 1 && lastBlock < last
      requires forall b | b in groups :: forall lg | lg in groups[b] :: lg in chain && lg.block == b
      requires forall lg | lg in chain && from <= lg.block <= last :: lg.block in groups && lg in groups[lg.block]
      modifies this`lastBlock, this`faults, store
      ensures Valid(chain) && old(store.rows) <= store.rows
      ensures forall r | r in store.rows && r !in old(store.rows) :: r.block <= last
      ensures CommittedByRows(old(store.reservations), store.reservations, store.rows)
      ensures DistinctBindings(old(store.reservations)) && old(AllSettled(chain)) ==> AllSettled(chain)
      ensures DistinctBindings(old(store.reservations)) && ok ==> Settled(chain, store.reservations, from, last)
      ensures ok ==> lastBlock == last
      ensures old(faults) == [] && Storable(chain) ==> ok
    {
      hide Storable, Sound, CompleteTo, Settled, SettledBefore, CommittedByRows, DistinctBindings, NoneAwaits;
      StartScan(chain, store.reservations, from);
      CommittedByNone(store.reservations, store.rows);
      var block: nat := from;
      ghost var covered := lastBlock;   // complete up to here
      ghost var distinct, settled := DistinctBindings(store.reservations), AllSettled(chain);
      while block <= last
        invariant from <= block <= last + 1 && block <= covered + 1
        invariant Valid(chain) && old(store.rows) <= store.rows
        invariant CompleteTo(chain, store.rows, FirstBlock(cfg), covered)
        invariant forall r | r in store.rows && r !in old(store.rows) :: r.block <= last
        invariant CommittedByRows(old(store.reservations), store.reservations, store.rows)
        invariant distinct ==> DistinctBindings(store.reservations) && SettledBefore(chain, store.reservations, from, block)
        invariant distinct && settled ==> AllSettled(chain) && Settled(chain, store.reservations, FirstBlock(cfg), covered)
        invariant from < block ==> lastBlock == block - 1
        invariant old(faults) == [] ==> faults == []
        decreases (last + 1) - block
      {
        var blockLogs := if block in groups then groups[block] else [];
        ghost var before, waiting := store.rows, store.reservations;
        ok := IngestBlock(chain, blockLogs, block);
        CommittedByRowsTransitive(old(store.reservations), waiting, store.reservations, before, store.rows);
        if distinct {
          CommittedByRowsKeepsBindings(waiting, store.reservations, store.rows);
          SettledBeforeLater(chain, waiting, store.reservations, store.rows, from, block);
          if settled {
            SettledLater(chain, waiting, store.reservations, store.rows, FirstBlock(cfg), covered);
            SettledLater(chain, waiting, store.reservations, store.rows, FirstBlock(cfg), lastBlock);
            if store.cursor.Some? {
              SettledLater(chain, waiting, store.reservations, store.rows, FirstBlock(cfg), store.cursor.value);
            }
          }
        }
        MoreRowsKeepComplete(chain, before, store.rows, FirstBlock(cfg), covered);
        MoreRowsKeepComplete(chain, before, store.rows, FirstBlock(cfg), lastBlock);
        if store.cursor.Some? {
          MoreRowsKeepComplete(chain, before, store.rows, FirstBlock(cfg), store.cursor.value);
        }
        if !ok {
          return false;
        }
        OneMoreBlock(chain, store.rows, FirstBlock(cfg), covered, block, blockLogs);
        if distinct {
          OneMoreSettled(chain, store.reservations, FirstBlock(cfg), covered, from, block, blockLogs);
        }
        if block > covered {
          covered := block;
        }
        ok := StoreCursor(block);
        if !ok {
          return false;
        }
        lastBlock := block;
        block := block + 1;
      }
      if distinct {
        SettledBeforeAll(chain, store.reservations, from, last);
      }
      return true;
    }
  }

  /** Settled in the blocks from `from` on that come before `block`. */
  predicate SettledBefore(chain: seq<Log>, rs: seq<Reservation>, from: nat, block: nat) {
    forall lg | lg in chain && from <= lg.block < block && Parse(lg).Row? :: NoneAwaits(rs, Parse(lg).row)
  }

  lemma SettledBeforeLater(chain: seq<Log>, before: seq<Reservation>, after: seq<Reservation>, rows: set<ChainExecution>, from: nat, block: nat)
    requires CommittedByRows(before, after, rows) && SettledBefore(chain, before, from, block)
    ensures SettledBefore(chain, after, from, block)
  {
    forall lg | lg in chain && from <= lg.block < block && Parse(lg).Row? ensures NoneAwaits(after, Parse(lg).row) {
      NoneAwaitsLater(before, after, rows, Parse(lg).row);
    }
  }

  lemma StartScan(chain: seq<Log>, rs: seq<Reservation>, from: nat)
    ensures SettledBefore(chain, rs, from, from)
  {
  }

  lemma SettledBeforeAll(chain: seq<Log>, rs: seq<Reservation>, from: nat, last: nat)
    requires SettledBefore(chain, rs, from, last + 1)
    ensures Settled(chain, rs, from, last)
  {
  }

  /** A block whose logs were all recorded extends completeness, to it and, if it was covered already, not beyond. */
  lemma OneMoreBlock(chain: seq<Log>, rows: set<ChainExecution>, first: nat, covered: nat, block: nat, logs: seq<Log>)
    requires CompleteTo(chain, rows, first, covered) && block <= covered + 1
    requires forall lg | lg in chain && lg.block == block :: lg in logs
    requires forall lg | lg in logs && Parse(lg).Row? :: Parse(lg).row in rows
    ensures CompleteTo(chain, rows, first, block) && CompleteTo(chain, rows, first, if block > covered then block else covered)
  {
  }

  lemma OneMoreSettled(chain: seq<Log>, rs: seq<Reservation>, first: nat, covered: nat, from: nat, block: nat, logs: seq<Log>)
    requires block <= covered + 1 && forall lg | lg in chain && lg.block == block :: lg in logs
    requires forall lg | lg in logs && Parse(lg).Row? :: NoneAwaits(rs, Parse(lg).row)
    ensures SettledBefore(chain, rs, from, block) ==> SettledBefore(chain, rs, from, block + 1)
    ensures Settled(chain, rs, first, covered) ==>
              Settled(chain, rs, first, block) && Settled(chain, rs, first, if block > covered then block else covered)
  {
  }

  lemma MoreRowsKeepComplete(chain: seq<Log>, rows: set<ChainExecution>, rows': set<ChainExecution>, first: nat, last: nat)
    requires CompleteTo(chain, rows, first, last) && rows <= rows'
    ensures CompleteTo(chain, rows', first, last)
  {
  }

  /** Some tick saw a head with the confirmation depth above the block. */
  predicate DeepEnough(cfg: Config, lives: seq<Life>, block: nat) {
    exists i, j | 0 <= i < |lives| && 0 <= j < |lives[i].ticks| :: block + cfg.confirmation <= lives[i].ticks[j].head
  }

  function FinalTick(life: Life): Tick
    requires life.ticks != []
  {
    life.ticks[|life.ticks| - 1]
  }

  predicate LastTickWorks(lives: seq<Life>) {
    lives != [] && lives[|lives| - 1].ticks != [] && FinalTick(lives[|lives| - 1]).faults == []
  }

  function LastTick(lives: seq<Life>): Tick
    requires LastTickWorks(lives)
  {
    FinalTick(lives[|lives| - 1])
  }

  /** The watcher over any number of process lifetimes, each with its own ticks and failures.  At the end, however it got
      there, the record is sound, complete from the first block to the stored cursor and to the last one in memory, and
      holds nothing that was not deep enough when polled; if the last tick met no failure, it reaches that tick's safe head,
      whatever went before.  A reservation is committed only by a recorded event of its own;
      with distinct bindings none bound to a log up to either cursor is left open: a commit that was lost is made up for,
      because the cursors did not pass its block. */
  method Watch(cfg: Config, store: Store, chain: seq<Log>, lives: seq<Life>) returns (lastBlock: nat)
    requires UniqueKeys(chain) && Sound(chain, store.rows)
    requires store.cursor.Some? ==> CompleteTo(chain, store.rows, FirstBlock(cfg), store.cursor.value)
    modifies store
    ensures Sound(chain, store.rows) && old(store.rows) <= store.rows
    ensures CompleteTo(chain, store.rows, FirstBlock(cfg), lastBlock)
    ensures store.cursor.Some? ==> CompleteTo(chain, store.rows, FirstBlock(cfg), store.cursor.value)
    ensures forall r | r in store.rows && r !in old(store.rows) :: DeepEnough(cfg, lives, r.block)
    ensures LastTickWorks(lives) && Storable(chain) ==> LastTick(lives).head <= lastBlock + cfg.confirmation
    ensures CommittedByRows(old(store.reservations), store.reservations, store.rows)
    ensures DistinctBindings(old(store.reservations))
            && (old(store.cursor).Some? ==> Settled(chain, old(store.reservations), FirstBlock(cfg), old(store.cursor).value)) ==>
              && Settled(chain, store.reservations, FirstBlock(cfg), lastBlock)
              && (store.cursor.Some? ==> Settled(chain, store.reservations, FirstBlock(cfg), store.cursor.value))
  {
    hide Settled, CompleteTo, Sound, Storable;
    lastBlock := FirstBlock(cfg) - 1;
    ghost var distinct := DistinctBindings(store.reservations);
    ghost var settled := store.cursor.Some? ==> Settled(chain, store.reservations, FirstBlock(cfg), store.cursor.value);
    NothingBeforeFirst(cfg, chain, store.rows, store.reservations);
    for i := 0 to |lives|
      invariant Sound(chain, store.rows) && old(store.rows) <= store.rows
      invariant CompleteTo(chain, store.rows, FirstBlock(cfg), lastBlock)
      invariant store.cursor.Some? ==> CompleteTo(chain, store.rows, FirstBlock(cfg), store.cursor.value)
      invariant forall r | r in store.rows && r !in old(store.rows) :: DeepEnough(cfg, lives, r.block)
      invariant CommittedByRows(old(store.reservations), store.reservations, store.rows)
      invariant i > 0 && lives[i - 1].ticks != [] && FinalTick(lives[i - 1]).faults == [] && Storable(chain) ==>
                  FinalTick(lives[i - 1]).head <= lastBlock + cfg.confirmation
      invariant distinct && settled ==>
                  && Settled(chain, store.reservations, FirstBlock(cfg), lastBlock)
                  && (store.cursor.Some? ==> Settled(chain, store.reservations, FirstBlock(cfg), store.cursor.value))
    {
      var r := new Reconciler(cfg, store, lives[i].cursorRead, chain);
      for j := 0 to |lives[i].ticks|
        invariant r.store == store && r.cfg == cfg && r.Valid(chain) && old(store.rows) <= store.rows
        invariant forall row | row in store.rows && row !in old(store.rows) :: DeepEnough(cfg, lives, row.block)
        invariant CommittedByRows(old(store.reservations), store.reservations, store.rows)
        invariant j > 0 && lives[i].ticks[j - 1].faults == [] && Storable(chain) ==>
                    lives[i].ticks[j - 1].head <= r.lastBlock + cfg.confirmation
        invariant distinct && settled ==> r.AllSettled(chain)
      {
        ghost var rows, waiting := store.rows, store.reservations;
        r.faults := lives[i].ticks[j].faults;
        if distinct {
          CommittedByRowsKeepsBindings(old(store.reservations), waiting, rows);
        }
        var _ := r.Poll(chain, lives[i].ticks[j].head);
        CommittedByRowsTransitive(old(store.reservations), waiting, store.reservations, rows, store.rows);
      }
      lastBlock := r.lastBlock;
    }
  }

  lemma NothingBeforeFirst(cfg: Config, chain: seq<Log>, rows: set<ChainExecution>, rs: seq<Reservation>)
    ensures CompleteTo(chain, rows, FirstBlock(cfg), FirstBlock(cfg) - 1) && Settled(chain, rs, FirstBlock(cfg), FirstBlock(cfg) - 1)
  {
  }
}
