/** From the hook's storage to the store's rows: what the watcher recorded adds up to what the chain spent. */
module EndToEnd {
  import opened Basics
  import opened Words
  import opened SessionTypes
  import opened SpendMachine
  import opened SpendInvariants
  import opened SpendTheorems
  import opened ChainStore
  import opened Reconciliation
  import opened Watcher

  /** A call of the adapter with the block it was mined in and the hash of the transaction that made it. */
  datatype Mined = Mined(block: nat, hash: nat, tx: Tx)

  function Txs(history: seq<Mined>): (txs: seq<Tx>)
    ensures |txs| == |history|
  {
    seq(|history|, i requires 0 <= i < |history| => history[i].tx)
  }

  /** The contracts after a chain history. */
  function WorldAfter(env: Env, balances: map<Address, nat>, history: seq<Mined>): World {
    RunTxs(env, Genesis(balances), Txs(history))
  }

  function Ascii(text: string): Bytes {
    seq(|text|, i requires 0 <= i < |text| => text[i] as int % 256)
  }

  /** The event's topic, the only one the watcher queries. */
  const EXECUTION_ALLOWED: Word := KeccakBytes(Ascii("ExecutionAllowed(address,bytes32,uint192,bytes32,uint256,uint256)"))

  /** The log of one ExecutionAllowed event. */
  function LogOf(e: Allowed, m: Mined, logIndex: nat): Log {
    Log(m.block, m.hash, logIndex,
        [EXECUTION_ALLOWED, Num(e.account), e.sessionId, Num(e.nonceKey)],
        [e.digest, Num(e.frameSpend), Num(e.totalSpendAfter)])
  }

  /** The logs of the events from position `start` on, all emitted by one transaction; `place` gives log indexes. */
  function LogsOfTx(events: seq<Allowed>, start: nat, m: Mined, place: nat -> nat): (logs: seq<Log>)
    requires start <= |events|
    ensures |logs| == |events| - start
    ensures forall i | start <= i < |events| :: logs[i - start] == LogOf(events[i], m, place(i))
  {
    seq(|events| - start, i requires 0 <= i < |events| - start => LogOf(events[start + i], m, place(start + i)))
  }

  /** The hook's logs on the chain.  `place` maps an event's position among the hook's events to its index in its block. */
  function LogsOf(env: Env, balances: map<Address, nat>, history: seq<Mined>, place: nat -> nat): (logs: seq<Log>)
    ensures |logs| == |WorldAfter(env, balances, history).hook.events|
  {
    if history == [] then []
    else
      var earlier, m := history[..|history| - 1], history[|history| - 1];
      var before, after := WorldAfter(env, balances, earlier).hook.events, WorldAfter(env, balances, history).hook.events;
      EventsOnlyGrow(env, balances, history);
      LogsOf(env, balances, earlier, place) + LogsOfTx(after, |before|, m, place)
  }

  lemma EventsOnlyGrow(env: Env, balances: map<Address, nat>, history: seq<Mined>)
    requires history != []
    ensures WorldAfter(env, balances, history[..|history| - 1]).hook.events <= WorldAfter(env, balances, history).hook.events
    ensures RunTxs(env, Genesis(balances), Txs(history))
         == Step(env, history[|history| - 1].tx.now, WorldAfter(env, balances, history[..|history| - 1]), history[|history| - 1].tx.action)
  {
    var earlier, last := history[..|history| - 1], history[|history| - 1].tx;
    assert Txs(history)[..|history| - 1] == Txs(earlier);
    var w := WorldAfter(env, balances, earlier);
    Reachable(env, balances, Txs(earlier), Num(0));
    RunProgress(env, w, [last], Num(0));
    assert [last][..0] == [];
    assert RunTxs(env, w, [last]) == Step(env, last.now, w, last.action);
  }

  /** A chain: blocks do not decrease, and a transaction, which may call the adapter any number of times, is in one block. */
  predicate WellMined(history: seq<Mined>) {
    && (forall i, j | 0 <= i < j < |history| :: history[i].block <= history[j].block)
    && (forall i, j | 0 <= i < j < |history| :: history[i].hash == history[j].hash ==> history[i].block == history[j].block)
  }

  /** Log indexes grow within a block. */
  predicate GrowingPlaces(logs: seq<Log>) {
    forall i, j | 0 <= i < j < |logs| && logs[i].block == logs[j].block :: logs[i].logIndex < logs[j].logIndex
  }

  // ---------- Logs and events correspond ----------

  /** A log carries its event and stands in the block and transaction that emitted it. */
  predicate LogMatches(lg: Log, e: Allowed) {
    && lg.topics == [EXECUTION_ALLOWED, Num(e.account), e.sessionId, Num(e.nonceKey)]
    && lg.data == [e.digest, Num(e.frameSpend), Num(e.totalSpendAfter)]
  }

  /** A log stands in the block and transaction of one of the history's entries from position `k` on. */
  predicate FromHistory(lg: Log, history: seq<Mined>, k: nat) {
    exists n | k <= n < |history| :: history[n].block == lg.block && history[n].hash == lg.txHash
  }

  /** The last transaction's logs come after all earlier ones. */
  lemma LogsSplit(env: Env, balances: map<Address, nat>, history: seq<Mined>, place: nat -> nat)
    requires history != []
    ensures var earlier, m := history[..|history| - 1], history[|history| - 1];
            var shorter, longer := LogsOf(env, balances, earlier, place), LogsOf(env, balances, history, place);
            var before, after := WorldAfter(env, balances, earlier).hook.events, WorldAfter(env, balances, history).hook.events;
            && |shorter| <= |longer| && shorter == longer[..|shorter|] && before == after[..|shorter|]
            && forall i | |shorter| <= i < |longer| :: longer[i] == LogOf(after[i], m, place(i))
  {
    EventsOnlyGrow(env, balances, history);
    var earlier, m := history[..|history| - 1], history[|history| - 1];
    var shorter, after := LogsOf(env, balances, earlier, place), WorldAfter(env, balances, history).hook.events;
    AppendTx(shorter, LogsOf(env, balances, history, place), after, m, place);
  }

  lemma AppendTx(shorter: seq<Log>, longer: seq<Log>, after: seq<Allowed>, m: Mined, place: nat -> nat)
    requires |shorter| <= |after| && longer == shorter + LogsOfTx(after, |shorter|, m, place)
    ensures |longer| == |after| && shorter == longer[..|shorter|]
    ensures forall i | |shorter| <= i < |longer| :: longer[i] == LogOf(after[i], m, place(i))
  {
    forall i | |shorter| <= i < |longer| ensures longer[i] == LogOf(after[i], m, place(i)) {
      assert longer[i] == LogsOfTx(after, |shorter|, m, place)[i - |shorter|];
    }
  }

  lemma {:induction false} LogsCarryEvents(env: Env, balances: map<Address, nat>, history: seq<Mined>, place: nat -> nat)
    ensures var logs, events := LogsOf(env, balances, history, place), WorldAfter(env, balances, history).hook.events;
            forall i | 0 <= i < |logs| :: LogMatches(logs[i], events[i])
  {
    if history != [] {
      var earlier := history[..|history| - 1];
      var logs, events := LogsOf(env, balances, history, place), WorldAfter(env, balances, history).hook.events;
      var n := |LogsOf(env, balances, earlier, place)|;
      LogsCarryEvents(env, balances, earlier, place);
      LogsSplit(env, balances, history, place);
      forall i | 0 <= i < |logs| ensures LogMatches(logs[i], events[i]) {
        if i < n {
          assert logs[i] == logs[..n][i] && events[i] == events[..n][i];
        }
      }
    }
  }

  lemma {:induction false} LogsComeFromHistory(env: Env, balances: map<Address, nat>, history: seq<Mined>, place: nat -> nat)
    ensures LaterLogs(LogsOf(env, balances, history, place), 0, history, 0)
  {
    if history != [] {
      var earlier := history[..|history| - 1];
      LogsComeFromHistory(env, balances, earlier, place);
      LogsSplit(env, balances, history, place);
      LaterLogsGrow(LogsOf(env, balances, earlier, place), LogsOf(env, balances, history, place), 0, history, 0);
    }
  }

  /** The logs of a prefix of the history come first; all later ones stand in the later transactions. */
  lemma {:induction false} LogsOfPrefix(env: Env, balances: map<Address, nat>, history: seq<Mined>, k: nat, place: nat -> nat)
    requires k <= |history|
    ensures LogsOf(env, balances, history[..k], place) <= LogsOf(env, balances, history, place)
    ensures LaterLogs(LogsOf(env, balances, history, place), |LogsOf(env, balances, history[..k], place)|, history, k)
  {
    if k == |history| {
      assert history[..k] == history;
    } else {
      var earlier := history[..|history| - 1];
      var logs, shorter := LogsOf(env, balances, history, place), LogsOf(env, balances, earlier, place);
      LogsOfPrefix(env, balances, earlier, k, place);
      LogsSplit(env, balances, history, place);
      assert earlier[..k] == history[..k];
      LaterLogsGrow(shorter, logs, |LogsOf(env, balances, history[..k], place)|, history, k);
    }
  }

  /** From position `n` on, the logs stand in transactions from `k` on. */
  predicate LaterLogs(logs: seq<Log>, n: nat, history: seq<Mined>, k: nat) {
    forall i | n <= i < |logs| :: FromHistory(logs[i], history, k)
  }

  lemma LaterLogsGrow(shorter: seq<Log>, logs: seq<Log>, n: nat, history: seq<Mined>, k: nat)
    requires history != [] && k < |history| && LaterLogs(shorter, n, history[..|history| - 1], k)
    requires |shorter| <= |logs| && shorter == logs[..|shorter|]
    requires forall i | |shorter| <= i < |logs| :: logs[i].block == history[|history| - 1].block && logs[i].txHash == history[|history| - 1].hash
    ensures LaterLogs(logs, n, history, k)
  {
    forall i | n <= i < |logs| ensures FromHistory(logs[i], history, k) {
      if i < |shorter| {
        assert logs[i] == shorter[i];
        var x :| k <= x < |history| - 1 && history[..|history| - 1][x].block == shorter[i].block && history[..|history| - 1][x].hash == shorter[i].txHash;
        assert history[x].block == logs[i].block;
      } else {
        assert history[|history| - 1].block == logs[i].block;
      }
    }
  }

  lemma EarlierBlock(lg: Log, history: seq<Mined>)
    requires history != [] && WellMined(history) && FromHistory(lg, history[..|history| - 1], 0)
    ensures lg.block <= history[|history| - 1].block
  {
    var earlier := history[..|history| - 1];
    var x :| 0 <= x < |earlier| && earlier[x].block == lg.block;
    assert history[x] == earlier[x];
  }

  lemma BlocksGrowOn(logs: seq<Log>, n: nat, block: nat)
    requires n <= |logs| && GrowingBlocks(logs[..n])
    requires forall i | 0 <= i < n :: logs[i].block <= block
    requires forall i | n <= i < |logs| :: logs[i].block == block
    ensures GrowingBlocks(logs)
  {
    forall i, j | 0 <= i < j < |logs| ensures logs[i].block <= logs[j].block {
      if j < n {
        assert logs[i] == logs[..n][i] && logs[j] == logs[..n][j];
      }
    }
  }

  /** Blocks do not decrease along the logs. */
  lemma {:induction false} LogBlocksGrow(env: Env, balances: map<Address, nat>, history: seq<Mined>, place: nat -> nat)
    requires WellMined(history)
    ensures GrowingBlocks(LogsOf(env, balances, history, place))
  {
    if history != [] {
      var earlier, m := history[..|history| - 1], history[|history| - 1];
      var logs, n := LogsOf(env, balances, history, place), |LogsOf(env, balances, earlier, place)|;
      LogBlocksGrow(env, balances, earlier, place);
      LogsComeFromHistory(env, balances, earlier, place);
      LogsSplit(env, balances, history, place);
      forall i | 0 <= i < n ensures logs[i] == logs[..n][i] && logs[i].block <= m.block {
        EarlierBlock(logs[..n][i], history);
      }
      BlocksGrowOn(logs, n, m.block);
    }
  }

  predicate DistinctKeys(logs: seq<Log>) {
    forall i, j | 0 <= i < j < |logs| :: logs[i].txHash != logs[j].txHash || logs[i].logIndex != logs[j].logIndex
  }

  lemma KeysDistinct(logs: seq<Log>, history: seq<Mined>)
    requires WellMined(history) && GrowingPlaces(logs) && LaterLogs(logs, 0, history, 0)
    ensures DistinctKeys(logs)
  {
    forall i, j | 0 <= i < j < |logs| ensures logs[i].txHash != logs[j].txHash || logs[i].logIndex != logs[j].logIndex {
      assert FromHistory(logs[i], history, 0) && FromHistory(logs[j], history, 0);
      var p :| 0 <= p < |history| && history[p].block == logs[i].block && history[p].hash == logs[i].txHash;
      var q :| 0 <= q < |history| && history[q].block == logs[j].block && history[q].hash == logs[j].txHash;
      if logs[i].txHash == logs[j].txHash {
        assert history[p].block == history[q].block;
      }
    }
  }

  lemma DistinctKeysAreUnique(logs: seq<Log>)
    requires DistinctKeys(logs)
    ensures UniqueKeys(logs)
  {
    forall a, b | a in logs && b in logs && a.txHash == b.txHash && a.logIndex == b.logIndex ensures a == b {
      var i :| 0 <= i < |logs| && logs[i] == a;
      var j :| 0 <= j < |logs| && logs[j] == b;
    }
  }

  /** Distinct logs have distinct keys, so the watcher's assumption about the chain holds of this one. */
  lemma LogKeysUnique(env: Env, balances: map<Address, nat>, history: seq<Mined>, place: nat -> nat)
    requires WellMined(history) && GrowingPlaces(LogsOf(env, balances, history, place))
    ensures UniqueKeys(LogsOf(env, balances, history, place)) && DistinctKeys(LogsOf(env, balances, history, place))
  {
    hide LogsOf, WellMined, GrowingPlaces, DistinctKeys, LaterLogs;
    LogsComeFromHistory(env, balances, history, place);
    KeysDistinct(LogsOf(env, balances, history, place), history);
    DistinctKeysAreUnique(LogsOf(env, balances, history, place));
  }

  /** What the watcher makes of an event's log. */
  lemma ParseMatching(lg: Log, e: Allowed)
    requires LogMatches(lg, e)
    ensures Parse(lg) == Row(ChainExecution(Num(e.account), e.sessionId, Num(e.nonceKey), e.frameSpend, e.totalSpendAfter, Some(e.digest), lg.block, lg.txHash, lg.logIndex))
  {
  }

  lemma MatchingLogsStorable(logs: seq<Log>, events: seq<Allowed>)
    requires |logs| == |events| && DistinctDigests(events) && forall i | 0 <= i < |logs| :: LogMatches(logs[i], events[i])
    ensures Storable(logs)
  {
    forall lg | lg in logs ensures Parse(lg).Row? {
      var i :| 0 <= i < |logs| && logs[i] == lg;
      ParseMatching(lg, events[i]);
    }
    forall a, b | a in logs && b in logs && Parse(a).row.digest == Parse(b).row.digest ensures a == b {
      var i :| 0 <= i < |logs| && logs[i] == a;
      var j :| 0 <= j < |logs| && logs[j] == b;
      ParseMatching(a, events[i]);
      ParseMatching(b, events[j]);
      assert events[i].digest == events[j].digest;
    }
  }

  /** Ingestion is never stuck on this chain: every log is readable, and digests do not repeat. */
  lemma ChainIsStorable(env: Env, balances: map<Address, nat>, history: seq<Mined>, place: nat -> nat)
    ensures Storable(LogsOf(env, balances, history, place))
  {
    LogsCarryEvents(env, balances, history, place);
    EventsAccountForSpend(env, balances, Txs(history), Num(0));
    MatchingLogsStorable(LogsOf(env, balances, history, place), WorldAfter(env, balances, history).hook.events);
  }

  // ---------- Sums over recorded rows ----------

  ghost function SumSpend(rows: set<ChainExecution>): nat {
    if rows == {} then 0 else
      var r := Pick(rows);
      r.frameSpend + SumSpend(rows - {r})
  }

  lemma {:induction false} SumWithout(rows: set<ChainExecution>, r: ChainExecution)
    requires r in rows
    ensures SumSpend(rows) == r.frameSpend + SumSpend(rows - {r})
    decreases |rows|
  {
    var p := Pick(rows);
    if p != r {
      SumWithout(rows - {p}, r);
      SumWithout(rows - {r}, p);
      assert rows - {p} - {r} == rows - {r} - {p};
    }
  }

  /** A session's rows up to a block. */
  function SessionRows(rows: set<ChainExecution>, id: Word, block: nat): set<ChainExecution> {
    set r | r in rows && r.sessionId == id && r.block <= block
  }

  /** The rows a list of logs stands for in one session. */
  function RowsOf(logs: seq<Log>, id: Word): set<ChainExecution> {
    set lg | lg in logs && Parse(lg).Row? && Parse(lg).row.sessionId == id :: Parse(lg).row
  }

  lemma {:induction false} RowsSumToFrames(logs: seq<Log>, events: seq<Allowed>, id: Word)
    requires |logs| == |events| && forall i | 0 <= i < |logs| :: LogMatches(logs[i], events[i])
    requires DistinctKeys(logs)
    ensures SumSpend(RowsOf(logs, id)) == FrameSum(events, id)
  {
    if logs != [] {
      var n := |logs| - 1;
      var row := Parse(logs[n]).row;
      RowsSumToFrames(logs[..n], events[..n], id);
      ParseMatching(logs[n], events[n]);
      LastLogRow(logs, id);
      if events[n].sessionId == id {
        forall i | 0 <= i < n ensures Parse(logs[i]).row != row {
          ParseMatching(logs[i], events[i]);
        }
        assert row !in RowsOf(logs[..n], id);
        assert RowsOf(logs, id) - {row} == RowsOf(logs[..n], id);
        SumWithout(RowsOf(logs, id), row);
      } else {
        assert RowsOf(logs, id) == RowsOf(logs[..n], id);
      }
    } else {
      assert RowsOf(logs, id) == {};
    }
  }

  lemma LastLogRow(logs: seq<Log>, id: Word)
    requires logs != [] && Parse(logs[|logs| - 1]).Row?
    ensures var n := |logs| - 1;
            RowsOf(logs, id) == RowsOf(logs[..n], id) + if Parse(logs[n]).row.sessionId == id then {Parse(logs[n]).row} else {}
  {
    assert forall lg :: lg in logs <==> lg in logs[..|logs| - 1] || lg == logs[|logs| - 1];
  }

  /** `k` cuts the history at a block: the transactions before it are those of blocks up to `block`. */
  predicate CutsAt(history: seq<Mined>, k: nat, block: nat) {
    && k <= |history|
    && (forall i | 0 <= i < k :: history[i].block <= block)
    && (forall i | k <= i < |history| :: history[i].block > block)
  }

  /** Rows and logs: `early` is the part of the chain up to `block`, and the record is complete through it. */
  lemma SoundAndCompleteRows(logs: seq<Log>, early: seq<Log>, rows: set<ChainExecution>, first: nat, last: nat, block: nat, id: Word)
    requires early <= logs && block <= last && Sound(logs, rows) && CompleteTo(logs, rows, first, last)
    requires forall i | 0 <= i < |early| :: first <= early[i].block <= block
    requires forall i | |early| <= i < |logs| :: logs[i].block > block
    ensures SessionRows(rows, id, block) == RowsOf(early, id)
  {
    forall r | r in RowsOf(early, id) ensures r in SessionRows(rows, id, block) {
      var lg :| lg in early && Parse(lg) == Row(r);
      assert lg in logs;
    }
    forall r | r in SessionRows(rows, id, block) ensures r in RowsOf(early, id) {
      var lg :| lg in logs && Parse(lg) == Row(r);
      var i :| 0 <= i < |logs| && logs[i] == lg;
      assert i < |early|;
      assert early[i] == lg;
    }
  }

  /** Every block cuts a chain somewhere. */
  lemma {:induction false} CutExists(history: seq<Mined>, block: nat) returns (k: nat)
    requires WellMined(history)
    ensures CutsAt(history, k, block)
  {
    if history == [] || history[|history| - 1].block <= block {
      k := |history|;
    } else {
      k := CutExists(history[..|history| - 1], block);
    }
  }

  /** A sound record that is complete through `block` holds exactly the session's events up to that block. */
  lemma RecordedRowsAreTheEvents(env: Env, balances: map<Address, nat>, history: seq<Mined>, place: nat -> nat,
                                 rows: set<ChainExecution>, first: nat, last: nat, block: nat, k: nat, id: Word)
    requires CutsAt(history, k, block) && block <= last
    requires forall lg | lg in LogsOf(env, balances, history, place) :: first <= lg.block
    requires Sound(LogsOf(env, balances, history, place), rows)
    requires CompleteTo(LogsOf(env, balances, history, place), rows, first, last)
    ensures SessionRows(rows, id, block) == RowsOf(LogsOf(env, balances, history[..k], place), id)
  {
    var logs, early := LogsOf(env, balances, history, place), LogsOf(env, balances, history[..k], place);
    LogsComeFromHistory(env, balances, history[..k], place);
    LogsOfPrefix(env, balances, history, k, place);
    forall i | 0 <= i < |early| ensures first <= early[i].block <= block {
      assert FromHistory(early[i], history[..k], 0);
      assert early[i] == logs[i] && logs[i] in logs;
    }
    forall i | |early| <= i < |logs| ensures logs[i].block > block {
      assert FromHistory(logs[i], history, k);
    }
    SoundAndCompleteRows(logs, early, rows, first, last, block, id);
  }

  /** End to end: whenever the record is sound and complete through block `block`, the frame spends recorded for a session
      up to that block add up to the hook's spend of the session at that block, for every call tree the chain ran and
      however the watcher got there. */
  lemma RecordedSpendIsChainSpend(env: Env, balances: map<Address, nat>, history: seq<Mined>, place: nat -> nat,
                                  rows: set<ChainExecution>, first: nat, last: nat, block: nat, k: nat, id: Word)
    requires WellMined(history) && GrowingPlaces(LogsOf(env, balances, history, place))
    requires CutsAt(history, k, block) && block <= last
    requires forall lg | lg in LogsOf(env, balances, history, place) :: first <= lg.block
    requires Sound(LogsOf(env, balances, history, place), rows)
    requires CompleteTo(LogsOf(env, balances, history, place), rows, first, last)
    ensures SumSpend(SessionRows(rows, id, block)) == Spend(env, WorldAfter(env, balances, history[..k]).hook, id)
  {
    var early, w := LogsOf(env, balances, history[..k], place), WorldAfter(env, balances, history[..k]);
    RecordedRowsAreTheEvents(env, balances, history, place, rows, first, last, block, k, id);
    LogsCarryEvents(env, balances, history[..k], place);
    LogsOfPrefix(env, balances, history, k, place);
    LogKeysUnique(env, balances, history, place);
    assert forall i | 0 <= i < |early| :: early[i] == LogsOf(env, balances, history, place)[i];
    RowsSumToFrames(early, w.hook.events, id);
    EventsAccountForSpend(env, balances, Txs(history[..k]), id);
  }

  /** The position of a row on the chain. */
  predicate NotAfter(a: ChainExecution, b: ChainExecution) {
    a.block < b.block || (a.block == b.block && a.logIndex <= b.logIndex)
  }

  lemma {:induction false} LastEventOf(events: seq<Allowed>, id: Word) returns (n: nat)
    requires exists e | e in events :: e.sessionId == id
    ensures n < |events| && events[n].sessionId == id
    ensures forall i | n < i < |events| :: events[i].sessionId != id
    ensures FrameSum(events[..n + 1], id) == FrameSum(events, id)
  {
    var fewer := events[..|events| - 1];
    if events[|events| - 1].sessionId == id {
      n := |events| - 1;
      assert events[..n + 1] == events;
    } else {
      assert forall e | e in events && e.sessionId == id :: e in fewer;
      n := LastEventOf(fewer, id);
      assert events[..n + 1] == fewer[..n + 1];
    }
  }

  /** The last row of a session up to a block carries the session's spend at that block as its running total. */
  lemma LastRowCarriesSpend(env: Env, balances: map<Address, nat>, history: seq<Mined>, place: nat -> nat,
                            rows: set<ChainExecution>, first: nat, last: nat, block: nat, k: nat, id: Word)
      returns (r: ChainExecution)
    requires WellMined(history) && GrowingPlaces(LogsOf(env, balances, history, place))
    requires CutsAt(history, k, block) && block <= last
    requires forall lg | lg in LogsOf(env, balances, history, place) :: first <= lg.block
    requires Sound(LogsOf(env, balances, history, place), rows)
    requires CompleteTo(LogsOf(env, balances, history, place), rows, first, last)
    requires SessionRows(rows, id, block) != {}
    ensures r in SessionRows(rows, id, block) && forall x | x in SessionRows(rows, id, block) :: NotAfter(x, r)
    ensures r.totalSpendAfter == Spend(env, WorldAfter(env, balances, history[..k]).hook, id)
  {
    var logs, early := LogsOf(env, balances, history, place), LogsOf(env, balances, history[..k], place);
    var events := WorldAfter(env, balances, history[..k]).hook.events;
    RecordedRowsAreTheEvents(env, balances, history, place, rows, first, last, block, k, id);
    LogsCarryEvents(env, balances, history[..k], place);
    LogsOfPrefix(env, balances, history, k, place);
    LogBlocksGrow(env, balances, history, place);
    PrefixGrows(early, logs);
    EventsAccountForSpend(env, balances, Txs(history[..k]), id);
    r := LastRowOf(early, events, id);
  }

  predicate GrowingBlocks(logs: seq<Log>) {
    forall i, j | 0 <= i < j < |logs| :: logs[i].block <= logs[j].block
  }

  lemma PrefixGrows(early: seq<Log>, logs: seq<Log>)
    requires early <= logs && GrowingPlaces(logs) && GrowingBlocks(logs)
    ensures GrowingPlaces(early) && GrowingBlocks(early)
  {
    assert forall i | 0 <= i < |early| :: early[i] == logs[i];
  }

  lemma LastRowOf(logs: seq<Log>, events: seq<Allowed>, id: Word) returns (r: ChainExecution)
    requires |logs| == |events| && (forall i | 0 <= i < |logs| :: LogMatches(logs[i], events[i])) && RunningTotals(events)
    requires GrowingPlaces(logs) && GrowingBlocks(logs)
    requires RowsOf(logs, id) != {}
    ensures r in RowsOf(logs, id) && forall x | x in RowsOf(logs, id) :: NotAfter(x, r)
    ensures r.totalSpendAfter == FrameSum(events, id)
  {
    var any :| any in RowsOf(logs, id);
    var a := LogOfRow(logs, events, id, any);
    assert events[a] in events;
    var n := LastEventOf(events, id);
    ParseMatching(logs[n], events[n]);
    r := Parse(logs[n]).row;
    assert logs[n] in logs;
    forall x | x in RowsOf(logs, id) ensures NotAfter(x, r) {
      var i := LogOfRow(logs, events, id, x);
      assert i <= n;
      assert logs[i].block <= logs[n].block;
    }
  }

  lemma LogOfRow(logs: seq<Log>, events: seq<Allowed>, id: Word, r: ChainExecution) returns (i: nat)
    requires |logs| == |events| && (forall i | 0 <= i < |logs| :: LogMatches(logs[i], events[i])) && r in RowsOf(logs, id)
    ensures i < |logs| && events[i].sessionId == id && r.block == logs[i].block && r.logIndex == logs[i].logIndex
  {
    var lg :| lg in logs && Parse(lg) == Row(r);
    i :| 0 <= i < |logs| && logs[i] == lg;
    ParseMatching(logs[i], events[i]);
  }

  // ---------- Reservations ----------

  /** The reservation is bound to the event, in the event's session. */
  predicate BoundTo(r: Reservation, e: Allowed) {
    r.digest == Some(e.digest) && r.sessionId == e.sessionId
  }

  lemma MatchedByLog(logs: seq<Log>, events: seq<Allowed>, rows: set<ChainExecution>, r: Reservation)
    requires |logs| == |events| && forall i | 0 <= i < |logs| :: LogMatches(logs[i], events[i])
    requires Sound(logs, rows) && exists row | row in rows :: Matches(r, row)
    ensures exists e | e in events :: BoundTo(r, e)
  {
    var row :| row in rows && Matches(r, row);
    var lg :| lg in logs && Parse(lg) == Row(row);
    var i :| 0 <= i < |logs| && logs[i] == lg;
    ParseMatching(lg, events[i]);
    assert events[i] in events && BoundTo(r, events[i]);
  }

  /** A reservation that a recorded row matches is bound to an event the hook emitted. */
  lemma MatchedByEvent(env: Env, balances: map<Address, nat>, history: seq<Mined>, place: nat -> nat, rows: set<ChainExecution>, r: Reservation)
    requires Sound(LogsOf(env, balances, history, place), rows) && exists row | row in rows :: Matches(r, row)
    ensures exists e | e in WorldAfter(env, balances, history).hook.events :: BoundTo(r, e)
  {
    hide LogsOf, WorldAfter, Sound, LogMatches, Matches;
    LogsCarryEvents(env, balances, history, place);
    MatchedByLog(LogsOf(env, balances, history, place), WorldAfter(env, balances, history).hook.events, rows, r);
  }

  lemma NoneBoundToLog(logs: seq<Log>, early: seq<Log>, events: seq<Allowed>, rs: seq<Reservation>, first: nat, last: nat, r: Reservation, e: Allowed)
    requires early <= logs && Settled(logs, rs, first, last)
    requires |early| == |events| && forall i | 0 <= i < |early| :: LogMatches(early[i], events[i])
    requires forall lg | lg in early :: first <= lg.block <= last
    requires r in rs && Open(r) && e in events
    ensures !BoundTo(r, e)
  {
    var i :| 0 <= i < |events| && events[i] == e;
    assert early[i] == logs[i] && logs[i] in logs && early[i] in early;
    ParseMatching(early[i], e);
    assert NoneAwaits(rs, Parse(early[i]).row);
  }

  lemma BlocksUpTo(early: seq<Log>, history: seq<Mined>, k: nat, block: nat)
    requires CutsAt(history, k, block) && LaterLogs(early, 0, history[..k], 0)
    ensures forall lg | lg in early :: lg.block <= block
  {
    forall lg | lg in early ensures lg.block <= block {
      var i :| 0 <= i < |early| && early[i] == lg;
      assert FromHistory(early[i], history[..k], 0);
      var n :| 0 <= n < k && history[..k][n].block == lg.block;
      assert history[n].block == lg.block;
    }
  }

  /** Where the record is settled, no open reservation is bound to an event emitted up to that block. */
  lemma NoneBoundToEvent(env: Env, balances: map<Address, nat>, history: seq<Mined>, place: nat -> nat,
                         rs: seq<Reservation>, first: nat, last: nat, block: nat, k: nat, r: Reservation, e: Allowed)
    requires CutsAt(history, k, block) && block <= last && Settled(LogsOf(env, balances, history, place), rs, first, last)
    requires forall lg | lg in LogsOf(env, balances, history, place) :: first <= lg.block
    requires r in rs && Open(r) && e in WorldAfter(env, balances, history[..k]).hook.events
    ensures !BoundTo(r, e)
  {
    assert k <= |history|;
    hide LogsOf, LogMatches, WorldAfter, LaterLogs, Settled, CutsAt, BoundTo;
    var logs, early := LogsOf(env, balances, history, place), LogsOf(env, balances, history[..k], place);
    LogsCarryEvents(env, balances, history[..k], place);
    LogsComeFromHistory(env, balances, history[..k], place);
    BlocksUpTo(early, history, k, block);
    LogsOfPrefix(env, balances, history, k, place);
    assert forall lg | lg in early :: lg in logs;
    NoneBoundToLog(logs, early, WorldAfter(env, balances, history[..k]).hook.events, rs, first, last, r, e);
  }

  // ---------- The watcher on such a chain ----------

  /** The rows up to a block give every session's spend at it: as their sum, and in the last of them as running total. */
  ghost predicate GivesSpend(env: Env, balances: map<Address, nat>, history: seq<Mined>, k: nat, rows: set<ChainExecution>, block: nat)
    requires k <= |history|
  {
    forall id: Word ::
      var mine, spend := SessionRows(rows, id, block), Spend(env, WorldAfter(env, balances, history[..k]).hook, id);
      && SumSpend(mine) == spend
      && (mine != {} ==> exists r | r in mine :: r.totalSpendAfter == spend && forall x | x in mine :: NotAfter(x, r))
  }

  lemma RowsGiveSpend(env: Env, balances: map<Address, nat>, history: seq<Mined>, place: nat -> nat,
                      rows: set<ChainExecution>, first: nat, last: nat, block: nat, k: nat)
    requires WellMined(history) && GrowingPlaces(LogsOf(env, balances, history, place))
    requires CutsAt(history, k, block) && block <= last
    requires forall lg | lg in LogsOf(env, balances, history, place) :: first <= lg.block
    requires Sound(LogsOf(env, balances, history, place), rows)
    requires CompleteTo(LogsOf(env, balances, history, place), rows, first, last)
    ensures GivesSpend(env, balances, history, k, rows, block)
  {
    forall id: Word
      ensures var mine, spend := SessionRows(rows, id, block), Spend(env, WorldAfter(env, balances, history[..k]).hook, id);
              && SumSpend(mine) == spend
              && (mine != {} ==> exists r | r in mine :: r.totalSpendAfter == spend && forall x | x in mine :: NotAfter(x, r))
    {
      RecordedSpendIsChainSpend(env, balances, history, place, rows, first, last, block, k, id);
      if SessionRows(rows, id, block) != {} {
        var r := LastRowCarriesSpend(env, balances, history, place, rows, first, last, block, k, id);
      }
    }
  }

  /** A block that the cursor in memory or the stored one has reached. */
  predicate Reached(lastBlock: nat, cursor: Option<nat>, block: nat) {
    block <= lastBlock || (cursor.Some? && block <= cursor.value)
  }

  /** The watcher, run on such a chain through any lifetimes and failures.  At every block either cursor has reached, the
      rows give each session's spend on chain, which is every block deep enough for the last tick if that met no failure; with distinct bindings no open reservation is bound to an event the hook
      emitted by then.  No reservation is committed without an event of its own. */
  method WatchChain(cfg: Config, store: Store, env: Env, balances: map<Address, nat>, history: seq<Mined>, place: nat -> nat, lives: seq<Life>)
      returns (lastBlock: nat)
    requires WellMined(history) && GrowingPlaces(LogsOf(env, balances, history, place))
    requires forall lg | lg in LogsOf(env, balances, history, place) :: FirstBlock(cfg) <= lg.block
    requires store.rows == {} && store.cursor == None
    modifies store
    ensures LastTickWorks(lives) ==> LastTick(lives).head <= lastBlock + cfg.confirmation
    ensures forall block: nat, k: nat | CutsAt(history, k, block) && Reached(lastBlock, store.cursor, block) ::
              GivesSpend(env, balances, history, k, store.rows, block)
    ensures DistinctBindings(old(store.reservations)) ==>
              forall block: nat, k: nat | CutsAt(history, k, block) && Reached(lastBlock, store.cursor, block) ::
                forall r, e | r in store.reservations && Open(r) && e in WorldAfter(env, balances, history[..k]).hook.events :: !BoundTo(r, e)
    ensures |store.reservations| == |old(store.reservations)|
    ensures forall i | 0 <= i < |store.reservations| && store.reservations[i] != old(store.reservations)[i] ::
              && Open(old(store.reservations)[i])
              && store.reservations[i] == old(store.reservations)[i].(status := BudgetCommitted)
              && exists e | e in WorldAfter(env, balances, history).hook.events :: BoundTo(old(store.reservations)[i], e)
  {
    hide LogsOf, GivesSpend, Sound, CompleteTo, Settled, Storable;
    var chain := LogsOf(env, balances, history, place);
    LogKeysUnique(env, balances, history, place);
    ChainIsStorable(env, balances, history, place);
    assert Sound(chain, {}) by {
      EmptyIsSound(chain);
    }
    lastBlock := Watch(cfg, store, chain, lives);
    ghost var before, rs, rows := old(store.reservations), store.reservations, store.rows;
    forall block: nat, k: nat | CutsAt(history, k, block) && Reached(lastBlock, store.cursor, block)
      ensures GivesSpend(env, balances, history, k, rows, block)
      ensures DistinctBindings(before) ==>
                forall r, e | r in rs && Open(r) && e in WorldAfter(env, balances, history[..k]).hook.events :: !BoundTo(r, e)
    {
      var last := if block <= lastBlock then lastBlock else store.cursor.value;
      RowsGiveSpend(env, balances, history, place, rows, FirstBlock(cfg), last, block, k);
      if DistinctBindings(before) {
        forall r, e | r in rs && Open(r) && e in WorldAfter(env, balances, history[..k]).hook.events ensures !BoundTo(r, e) {
          NoneBoundToEvent(env, balances, history, place, rs, FirstBlock(cfg), last, block, k, r, e);
        }
      }
    }
    forall i | 0 <= i < |rs| && rs[i] != before[i]
      ensures exists e | e in WorldAfter(env, balances, history).hook.events :: BoundTo(before[i], e)
    {
      MatchedByEvent(env, balances, history, place, rows, before[i]);
    }
  }

  lemma EmptyIsSound(chain: seq<Log>)
    ensures Sound(chain, {})
  {
  }
}
