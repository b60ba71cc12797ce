/** What holds of the contracts on every run: caps, exact accounting, digests, sequence numbers, lanes, balances. */
module SpendTheorems {
  import opened Basics
  import opened Words
  import opened SessionTypes
  import opened ExecutionDecoder
  import opened SessionId
  import opened SpendMachine
  import opened SpendInvariants
  import opened SpendSafety

  datatype Tx = Tx(now: nat, action: Action)

  /** Freshly deployed contracts; the adapter may already hold tokens. */
  function Genesis(balances: map<Address, nat>): World {
    World(map[], HookState(map[], {}, map[], []), balances, map[], [])
  }

  function RunTxs(env: Env, w: World, txs: seq<Tx>): World {
    if txs == [] then w
    else
      var last := txs[|txs| - 1];
      Step(env, last.now, RunTxs(env, w, txs[..|txs| - 1]), last.action)
  }

  lemma {:induction false} RunProgress(env: Env, w: World, txs: seq<Tx>, lane: Word)
    requires Inv(env, w)
    ensures Progress(env, w, RunTxs(env, w, txs), lane, 0)
  {
    Stay(env, w, lane);
    if txs != [] {
      var last, w1 := txs[|txs| - 1], RunTxs(env, w, txs[..|txs| - 1]);
      RunProgress(env, w, txs[..|txs| - 1], lane);
      DoProgress(env, last.now, w1, last.action, lane);
      Stay(env, w1, lane);
      Chain(env, w, w1, RunTxs(env, w, txs), lane, 0, 0);
    }
  }

  lemma GenesisInv(env: Env, balances: map<Address, nat>)
    ensures Inv(env, Genesis(balances))
  {
  }

  /** The state after any run of transactions, successful or not. */
  lemma Reachable(env: Env, balances: map<Address, nat>, txs: seq<Tx>, lane: Word)
    ensures Inv(env, RunTxs(env, Genesis(balances), txs))
    ensures Progress(env, Genesis(balances), RunTxs(env, Genesis(balances), txs), lane, 0)
  {
    GenesisInv(env, balances);
    RunProgress(env, Genesis(balances), txs, lane);
  }

  // ---------- Caps and exact accounting ----------

  /** No lane ever spends more than its cap, and what it spent is what its calls moved and what its events report. */
  lemma SpendIsCappedAndExact(env: Env, balances: map<Address, nat>, txs: seq<Tx>, k: nat)
    requires k in RunTxs(env, Genesis(balances), txs).sessions
    ensures var w := RunTxs(env, Genesis(balances), txs);
            var s := w.sessions[k];
            && Spend(env, w.hook, s.sessionId) <= s.maxTotalSpend
            && Spend(env, w.hook, s.sessionId) == Moved(w.calls, s.sessionId)
            && Spend(env, w.hook, s.sessionId) == FrameSum(w.hook.events, s.sessionId)
  {
    var w := RunTxs(env, Genesis(balances), txs);
    var id := w.sessions[k].sessionId;
    Reachable(env, balances, txs, id);
    assert Spend(env, w.hook, id) + Moved([], id) + 0 == Spend(env, Genesis(balances).hook, id) + Moved(w.calls, id);
  }

  /** A successful top-level call raises every session's spend by exactly what it moved for that session. */
  lemma CallRaisesSpendByMoved(env: Env, balances: map<Address, nat>, txs: seq<Tx>, now: nat, a: Action, id: Word)
    requires Do(env, now, RunTxs(env, Genesis(balances), txs), a).Ok?
    ensures var w := RunTxs(env, Genesis(balances), txs);
            var w' := Do(env, now, w, a).value;
            && w.calls <= w'.calls
            && Spend(env, w'.hook, id) - Spend(env, w.hook, id) == Moved(w'.calls, id) - Moved(w.calls, id) >= 0
  {
    var w := RunTxs(env, Genesis(balances), txs);
    Reachable(env, balances, txs, id);
    DoProgress(env, now, w, a, id);
    var w' := Do(env, now, w, a).value;
    assert Spend(env, w'.hook, id) + Moved(w.calls, id) + 0 == Spend(env, w.hook, id) + Moved(w'.calls, id);
    MovedGrows(w.calls, w'.calls, id);
  }

  lemma {:induction false} MovedGrows(a: seq<ExternalCall>, b: seq<ExternalCall>, id: Word)
    requires a <= b
    ensures Moved(a, id) <= Moved(b, id)
  {
    if |a| < |b| {
      MovedGrows(a, b[..|b| - 1], id);
    } else {
      assert a == b;
    }
  }

  // ---------- The cap at every moment inside a transaction ----------

  /** The caps hold whenever the contracts have control during an action, at any depth of re-entrancy. */
  ghost predicate CapThroughout(env: Env, now: nat, w: World, a: Action)
    decreases a, 0
  {
    && CapOk(env, w.sessions, w.hook)
    && (a.Execute? && a.nonceKey in w.sessions && PreCheck(env, now, w.hook, w.sessions, env.adapter, a.nonceKey, a.mode, a.data).Ok? ==>
          match DecodeFrame(env, a.mode, a.data)
          case Ok(es) => CapThroughoutCalls(env, now, w, a.nonceKey, w.sessions[a.nonceKey].sessionId, es, a.leaves)
          case Revert(_) => true)
  }

  ghost predicate CapThroughoutCalls(env: Env, now: nat, w: World, nonceKey: nat, sessionId: Word, es: seq<Execution>, leaves: seq<LeafScript>)
    decreases leaves
  {
    && CapOk(env, w.sessions, w.hook)
    && (es != [] && leaves != [] ==>
          && CapThroughoutAll(env, now, w, leaves[0].before)
          && match TokenCall(env, RunAll(env, now, w, leaves[0].before), nonceKey, sessionId, es[0])
             case Revert(_) => true
             case Ok(w2) =>
               && CapThroughoutAll(env, now, w2, leaves[0].after)
               && CapThroughoutCalls(env, now, RunAll(env, now, w2, leaves[0].after), nonceKey, sessionId, es[1..], leaves[1..]))
  }

  ghost predicate CapThroughoutAll(env: Env, now: nat, w: World, actions: seq<Action>)
    decreases actions
  {
    && CapOk(env, w.sessions, w.hook)
    && (actions != [] ==>
          && CapThroughout(env, now, w, actions[0])
          && CapThroughoutAll(env, now, Step(env, now, w, actions[0]), actions[1..]))
  }

  lemma {:induction false} CapHoldsThroughout(env: Env, now: nat, w: World, a: Action)
    requires Inv(env, w)
    ensures CapThroughout(env, now, w, a)
    decreases a, 0
  {
    if a.Execute? && a.nonceKey in w.sessions && PreCheck(env, now, w.hook, w.sessions, env.adapter, a.nonceKey, a.mode, a.data).Ok? {
      PreCheckContext(env, now, w, a.nonceKey, a.mode, a.data);
      ValidatedIsExecuted(env, w.sessions[a.nonceKey], env.adapter, a.mode, a.data);
      CapHoldsThroughoutCalls(env, now, w, a.nonceKey, w.sessions[a.nonceKey].sessionId, DecodeFrame(env, a.mode, a.data).value, a.leaves);
    }
  }

  /** Around one leaf call, the invariant holds when the token gets control, when it has moved the balance and when it
      returns, and the lane still allows the remaining calls. */
  lemma AroundLeaf(env: Env, now: nat, w: World, nonceKey: nat, sessionId: Word, es: seq<Execution>, leaf: LeafScript)
    requires Inv(env, w) && nonceKey in w.sessions && w.sessions[nonceKey].sessionId == sessionId
    requires es != [] && forall e | e in es :: LegitExecution(w.sessions[nonceKey], e)
    ensures var w1 := RunAll(env, now, w, leaf.before);
            TokenCall(env, w1, nonceKey, sessionId, es[0]).Ok? ==>
              var w2 := TokenCall(env, w1, nonceKey, sessionId, es[0]).value;
              var w3 := RunAll(env, now, w2, leaf.after);
              && Inv(env, w2) && Inv(env, w3) && nonceKey in w3.sessions && w3.sessions[nonceKey].sessionId == sessionId
              && forall e | e in es[1..] :: LegitExecution(w3.sessions[nonceKey], e)
  {
    hide LegitExecution, RunAll, TokenCall, TokenLaw, Frozen;
    var w1 := RunAll(env, now, w, leaf.before);
    RunAllProgress(env, now, w, leaf.before, sessionId);
    if TokenCall(env, w1, nonceKey, sessionId, es[0]).Ok? {
      TokenCallAfter(env, w, w1, nonceKey, sessionId, es[0]);
      var w2 := TokenCall(env, w1, nonceKey, sessionId, es[0]).value;
      RunAllProgress(env, now, w2, leaf.after, sessionId);
      var w3 := RunAll(env, now, w2, leaf.after);
      ChainLanes(w.sessions, w2.sessions, w3.sessions);
      LaneStaysLegit(w.sessions, w3.sessions, nonceKey, es[1..]);
    }
  }

  lemma {:induction false} CapHoldsThroughoutCalls(env: Env, now: nat, w: World, nonceKey: nat, sessionId: Word, es: seq<Execution>, leaves: seq<LeafScript>)
    requires Inv(env, w) && nonceKey in w.sessions && w.sessions[nonceKey].sessionId == sessionId
    requires forall e | e in es :: LegitExecution(w.sessions[nonceKey], e)
    ensures CapThroughoutCalls(env, now, w, nonceKey, sessionId, es, leaves)
    decreases leaves
  {
    assert CapOk(env, w.sessions, w.hook);
    hide Inv, CapOk, CapThroughoutAll, LegitExecution, RunAll, TokenCall;
    if es != [] && leaves != [] {
      AroundLeaf(env, now, w, nonceKey, sessionId, es, leaves[0]);
      CapHoldsThroughoutAll(env, now, w, leaves[0].before);
      var w1 := RunAll(env, now, w, leaves[0].before);
      if TokenCall(env, w1, nonceKey, sessionId, es[0]).Ok? {
        var w2 := TokenCall(env, w1, nonceKey, sessionId, es[0]).value;
        CapHoldsThroughoutAll(env, now, w2, leaves[0].after);
        CapHoldsThroughoutCalls(env, now, RunAll(env, now, w2, leaves[0].after), nonceKey, sessionId, es[1..], leaves[1..]);
      }
    }
  }

  lemma {:induction false} CapHoldsThroughoutAll(env: Env, now: nat, w: World, actions: seq<Action>)
    requires Inv(env, w)
    ensures CapThroughoutAll(env, now, w, actions)
    decreases actions
  {
    if actions != [] {
      CapHoldsThroughout(env, now, w, actions[0]);
      DoProgress(env, now, w, actions[0], Num(0));
      CapHoldsThroughoutAll(env, now, Step(env, now, w, actions[0]), actions[1..]);
    }
  }

  // ---------- Validated equals executed ----------

  /** The lane is open and the sender is its key or the owner. */
  predicate MayExecute(env: Env, now: nat, s: SessionConfig, sender: Address) {
    !s.revoked && s.validAfter <= now <= s.validUntil && (sender == s.sessionKey || sender == env.owner)
  }

  lemma SenderWasAdmitted(env: Env, now: nat, w: World, sender: Address, nonceKey: nat, mode: nat, data: Bytes, leaves: seq<LeafScript>)
    requires ExecuteWithSession(env, now, w, sender, nonceKey, mode, data, leaves).Ok?
    ensures nonceKey in w.sessions && MayExecute(env, now, w.sessions[nonceKey], sender)
  {
    hide PreCheck, PostCheck, DecodeFrame, Calls;
  }

  lemma FrameReports(env: Env, now: nat, w: World, sender: Address, nonceKey: nat, mode: nat, data: Bytes, leaves: seq<LeafScript>)
    requires Inv(env, w) && ExecuteWithSession(env, now, w, sender, nonceKey, mode, data, leaves).Ok?
    ensures nonceKey in w.sessions && DecodeFrame(env, mode, data).Ok?
    ensures FrameMatchesEvent(env, w.sessions[nonceKey], DecodeFrame(env, mode, data).value, w.hook,
                              ExecuteWithSession(env, now, w, sender, nonceKey, mode, data, leaves).value.hook)
  {
    hide Inv, ExecuteWithSession, PreCheck, ValidateFrame, DecodeFrame, Calls, TokenLaw, Frozen, Accounts, LegitExecution;
    var ctx, es, w1 := ExecuteParts(env, now, w, sender, nonceKey, mode, data, leaves);
    var s := w.sessions[nonceKey];
    PreCheckContext(env, now, w, nonceKey, mode, data);
    ValidatedIsExecuted(env, s, env.adapter, mode, data);
    CallsProgress(env, now, w, nonceKey, s.sessionId, es, leaves);
  }

  lemma FrameReturns(env: Env, now: nat, w: World, sender: Address, nonceKey: nat, mode: nat, data: Bytes, leaves: seq<LeafScript>)
    requires ExecuteWithSession(env, now, w, sender, nonceKey, mode, data, leaves).Ok? && DecodeFrame(env, mode, data).Ok?
    ensures forall i | 0 <= i < |DecodeFrame(env, mode, data).value| && i < |leaves| :: ReturnsWell(leaves[i])
  {
    hide PreCheck, PostCheck, Calls, DecodeFrame, ReturnsWell, CallsGoThrough;
    var id, es := w.sessions[nonceKey].sessionId, DecodeFrame(env, mode, data).value;
    CallsGoThroughIff(env, now, w, nonceKey, id, es, leaves);
    ScriptedCallsReturnedWell(env, now, w, nonceKey, id, es, leaves);
  }

  /** A committed frame: its lane was open to its sender, each of its calls is a transfer the lane allows, every scripted call
      returned true or nothing, and its event reports the sum of the amounts and the new total. */
  lemma CommittedFrame(env: Env, balances: map<Address, nat>, txs: seq<Tx>, now: nat, sender: Address, nonceKey: nat, mode: nat, data: Bytes, leaves: seq<LeafScript>)
    requires Do(env, now, RunTxs(env, Genesis(balances), txs), Execute(sender, nonceKey, mode, data, leaves)).Ok?
    ensures var w := RunTxs(env, Genesis(balances), txs);
            var w' := Do(env, now, w, Execute(sender, nonceKey, mode, data, leaves)).value;
            && nonceKey in w.sessions && MayExecute(env, now, w.sessions[nonceKey], sender)
            && DecodeFrame(env, mode, data).Ok?
            && FrameMatchesEvent(env, w.sessions[nonceKey], DecodeFrame(env, mode, data).value, w.hook, w'.hook)
            && forall i | 0 <= i < |DecodeFrame(env, mode, data).value| && i < |leaves| :: ReturnsWell(leaves[i])
  {
    hide Inv, ExecuteWithSession, RunTxs, DecodeFrame, FrameMatchesEvent, MayExecute, ReturnsWell;
    var w := RunTxs(env, Genesis(balances), txs);
    Reachable(env, balances, txs, Num(0));
    SenderWasAdmitted(env, now, w, sender, nonceKey, mode, data, leaves);
    FrameReports(env, now, w, sender, nonceKey, mode, data, leaves);
    FrameReturns(env, now, w, sender, nonceKey, mode, data, leaves);
  }

  /** The last event of `after` reports a frame made of the executions `es`, all of them allowed on lane `s`. */
  predicate FrameMatchesEvent(env: Env, s: SessionConfig, es: seq<Execution>, before: HookState, after: HookState) {
    && (forall e | e in es :: AllowedLeaf(s, env.adapter, e))
    && before.events < after.events
    && var own := after.events[|after.events| - 1];
    && own.sessionId == s.sessionId
    && own.frameSpend == Amounts(es)
    && own.totalSpendAfter == Spend(env, after, s.sessionId)
  }

  /** Every external call the adapter ever completed is a zero-value transfer its lane allows. */
  lemma EveryCallIsLegit(env: Env, balances: map<Address, nat>, txs: seq<Tx>, c: ExternalCall)
    requires c in RunTxs(env, Genesis(balances), txs).calls
    ensures LegitCall(RunTxs(env, Genesis(balances), txs).sessions, c)
  {
    Reachable(env, balances, txs, Num(0));
  }

  // ---------- Digests ----------

  /** Execution digests are never reused, even between nested frames; each event reports the session's running sum, and
      the hook's spend of a session is the sum over its events. */
  lemma EventsAccountForSpend(env: Env, balances: map<Address, nat>, txs: seq<Tx>, id: Word)
    ensures var h := RunTxs(env, Genesis(balances), txs).hook;
            DistinctDigests(h.events) && RunningTotals(h.events) && Spend(env, h, id) == FrameSum(h.events, id)
  {
    Reachable(env, balances, txs, id);
  }

  // ---------- Lanes ----------

  /** A registered lane changes only by being revoked, and no other lane ever has its session id. */
  lemma LanesAreWriteOnce(env: Env, balances: map<Address, nat>, txs: seq<Tx>, more: seq<Tx>, k: nat, other: nat)
    requires var w := RunTxs(env, Genesis(balances), txs); k in w.sessions
    ensures var w, w' := RunTxs(env, Genesis(balances), txs), RunTxs(env, RunTxs(env, Genesis(balances), txs), more);
            && k in w'.sessions
            && SameLane(w.sessions[k], w'.sessions[k])
            && (other in w'.sessions && other != k ==> w'.sessions[other].sessionId != w'.sessions[k].sessionId)
  {
    var w := RunTxs(env, Genesis(balances), txs);
    Reachable(env, balances, txs, Num(0));
    RunProgress(env, w, more, Num(0));
    var w' := RunTxs(env, w, more);
    if other in w'.sessions && w'.sessions[other].sessionId == w'.sessions[k].sessionId {
      LaneOfId(env, other, w'.sessions[other], k, w'.sessions[k]);
    }
  }

  lemma RevokedLaneIsDeadFrom(env: Env, w: World, more: seq<Tx>, k: nat)
    requires Inv(env, w) && k in w.sessions && w.sessions[k].revoked
    ensures var w', id := RunTxs(env, w, more), w.sessions[k].sessionId;
            EventCount(w'.hook.events, id) == EventCount(w.hook.events, id) && Spend(env, w'.hook, id) == Spend(env, w.hook, id)
  {
    var id := w.sessions[k].sessionId;
    RunProgress(env, w, more, id);
    var w' := RunTxs(env, w, more);
    NoNewEventsNoNewSpend(w.hook.events, w'.hook.events, id);
    assert Spend(env, w.hook, id) == FrameSum(w.hook.events, id) && Spend(env, w'.hook, id) == FrameSum(w'.hook.events, id);
  }

  /** Once a lane is revoked, nothing more is ever executed or spent on it. */
  lemma RevokedLaneIsDead(env: Env, balances: map<Address, nat>, txs: seq<Tx>, more: seq<Tx>, k: nat)
    requires var w := RunTxs(env, Genesis(balances), txs); k in w.sessions && w.sessions[k].revoked
    ensures var w, w' := RunTxs(env, Genesis(balances), txs), RunTxs(env, RunTxs(env, Genesis(balances), txs), more);
            var id := w.sessions[k].sessionId;
            && EventCount(w'.hook.events, id) == EventCount(w.hook.events, id)
            && Spend(env, w'.hook, id) == Spend(env, w.hook, id)
  {
    Reachable(env, balances, txs, Num(0));
    RevokedLaneIsDeadFrom(env, RunTxs(env, Genesis(balances), txs), more, k);
  }

  lemma {:induction false} NoNewEventsNoNewSpend(a: seq<Allowed>, b: seq<Allowed>, id: Word)
    requires a <= b && EventCount(a, id) == EventCount(b, id)
    ensures FrameSum(a, id) == FrameSum(b, id)
  {
    if |a| < |b| {
      var shorter := b[..|b| - 1];
      EventCountGrows(a, shorter, id);
      NoNewEventsNoNewSpend(a, shorter, id);
    } else {
      assert a == b;
    }
  }
}
