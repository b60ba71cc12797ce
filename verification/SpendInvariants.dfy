/** What every action of the spend machine keeps, however its calls re-enter. */
module SpendInvariants {
  import opened Basics
  import opened Words
  import opened SessionTypes
  import opened ExecutionDecoder
  import opened SessionId
  import opened SpendMachine

  // ---------- Totals over the two histories ----------

  function FrameSum(events: seq<Allowed>, id: Word): nat {
    if events == [] then 0 else
      var e := events[|events| - 1];
      FrameSum(events[..|events| - 1], id) + if e.sessionId == id then e.frameSpend else 0
  }

  function EventCount(events: seq<Allowed>, id: Word): nat {
    if events == [] then 0 else
      var e := events[|events| - 1];
      EventCount(events[..|events| - 1], id) + if e.sessionId == id then 1 else 0
  }

  /** The amount an execution asks its token to move. */
  function TransferAmount(e: Execution): nat {
    match ParseTransfer(e.callData)
    case Some(args) => args.1
    case None => 0
  }

  function Moved(calls: seq<ExternalCall>, id: Word): nat {
    if calls == [] then 0 else
      var c := calls[|calls| - 1];
      Moved(calls[..|calls| - 1], id) + if c.sessionId == id then TransferAmount(c.execution) else 0
  }

  /** The amount a call takes out of the adapter's balance of `token`. */
  function OutAmount(env: Env, c: ExternalCall, token: Address): nat {
    match ParseTransfer(c.execution.callData)
    case Some(args) => if c.execution.target == token && args.0 != env.adapter then args.1 else 0
    case None => 0
  }

  function Outflow(env: Env, calls: seq<ExternalCall>, token: Address): nat {
    if calls == [] then 0 else
      var c := calls[|calls| - 1];
      Outflow(env, calls[..|calls| - 1], token) + OutAmount(env, c, token)
  }

  lemma AppendEvent(events: seq<Allowed>, e: Allowed, id: Word)
    ensures FrameSum(events + [e], id) == FrameSum(events, id) + if e.sessionId == id then e.frameSpend else 0
    ensures EventCount(events + [e], id) == EventCount(events, id) + if e.sessionId == id then 1 else 0
  {
    assert (events + [e])[..|events|] == events;
  }

  lemma AppendCall(env: Env, calls: seq<ExternalCall>, c: ExternalCall)
    ensures forall id :: Moved(calls + [c], id) == Moved(calls, id) + if c.sessionId == id then TransferAmount(c.execution) else 0
    ensures forall t :: Outflow(env, calls + [c], t) == Outflow(env, calls, t) + OutAmount(env, c, t)
  {
    assert (calls + [c])[..|calls|] == calls;
  }

  lemma {:induction false} EventCountGrows(a: seq<Allowed>, b: seq<Allowed>, id: Word)
    requires a <= b
    ensures EventCount(a, id) <= EventCount(b, id)
  {
    if |a| < |b| {
      EventCountGrows(a, b[..|b| - 1], id);
    } else {
      assert a == b;
    }
  }

  lemma {:induction false} NoEventsNoSpend(events: seq<Allowed>, id: Word)
    requires forall e | e in events :: e.sessionId != id
    ensures FrameSum(events, id) == 0 && EventCount(events, id) == 0
  {
    if events != [] {
      NoEventsNoSpend(events[..|events| - 1], id);
    }
  }

  // ---------- The invariant ----------

  function Spend(env: Env, h: HookState, id: Word): nat {
    At(h.spend, (env.adapter, id))
  }

  function NextSeq(env: Env, h: HookState, id: Word): nat {
    At(h.seqs, (env.adapter, id))
  }

  /** A stored lane passed registration: it belongs to the adapter, and its id is derived from its own fields. */
  predicate LaneOk(env: Env, nonceKey: nat, c: SessionConfig) {
    && c.account == env.adapter
    && c.nonceKey == nonceKey
    && c.sessionId == DeriveFromConfig(env.chainId, env.adapter, c)
    && ValidateConfig(c).Ok?
  }

  predicate LanesOk(env: Env, sessions: map<nat, SessionConfig>) {
    forall k | k in sessions :: LaneOk(env, k, sessions[k])
  }

  predicate CapOk(env: Env, sessions: map<nat, SessionConfig>, h: HookState) {
    forall k | k in sessions :: Spend(env, h, sessions[k].sessionId) <= sessions[k].maxTotalSpend
  }

  /** Every event was emitted for the adapter, on a registered lane. */
  predicate EventsOk(env: Env, sessions: map<nat, SessionConfig>, events: seq<Allowed>) {
    forall e | e in events ::
      e.account == env.adapter && e.nonceKey in sessions && sessions[e.nonceKey].sessionId == e.sessionId
  }

  predicate DistinctDigests(events: seq<Allowed>) {
    forall i, j | 0 <= i < j < |events| :: events[i].digest != events[j].digest
  }

  /** Each event carries the session's running total. */
  predicate RunningTotals(events: seq<Allowed>) {
    forall i | 0 <= i < |events| :: events[i].totalSpendAfter == FrameSum(events[..i + 1], events[i].sessionId)
  }

  /** The hook's storage is what its events say, and sequence numbers never exceed the number of executions. */
  ghost predicate HookOk(env: Env, h: HookState) {
    && (forall e | e in h.events :: (env.adapter, e.digest) in h.used)
    && DistinctDigests(h.events)
    && RunningTotals(h.events)
    && (forall id :: Spend(env, h, id) == FrameSum(h.events, id))
    && (forall id :: NextSeq(env, h, id) <= EventCount(h.events, id))
  }

  /** A call that is a transfer the lane allows, and nothing else. */
  predicate LegitCall(sessions: map<nat, SessionConfig>, c: ExternalCall) {
    && c.nonceKey in sessions
    && var s := sessions[c.nonceKey];
    && c.sessionId == s.sessionId
    && LegitExecution(s, c.execution)
  }

  predicate LegitExecution(s: SessionConfig, e: Execution) {
    && e.target == s.token
    && e.value == 0
    && ParseTransfer(e.callData).Some?
    && ParseTransfer(e.callData).value.0 == s.allowedRecipient
    && ParseTransfer(e.callData).value.1 <= s.maxPerTransfer
  }

  predicate CallsOk(sessions: map<nat, SessionConfig>, calls: seq<ExternalCall>) {
    forall c | c in calls :: LegitCall(sessions, c)
  }

  ghost predicate Inv(env: Env, w: World) {
    && LanesOk(env, w.sessions)
    && CapOk(env, w.sessions, w.hook)
    && EventsOk(env, w.sessions, w.hook.events)
    && HookOk(env, w.hook)
    && CallsOk(w.sessions, w.calls)
  }

  // ---------- The relation between two worlds of one run ----------

  /** A lane changes only by being revoked. */
  predicate SameLane(before: SessionConfig, after: SessionConfig) {
    after == before || after == before.(revoked := true)
  }

  predicate LanesKept(a: map<nat, SessionConfig>, b: map<nat, SessionConfig>) {
    forall k | k in a :: k in b && SameLane(a[k], b[k])
  }

  /** Between the worlds, spend rose by what was moved, except that `owed` moved for `lane` is not yet recorded. */
  ghost predicate Accounts(env: Env, w: World, w': World, lane: Word, owed: nat) {
    forall id ::
      Spend(env, w'.hook, id) + Moved(w.calls, id) + (if id == lane then owed else 0) == Spend(env, w.hook, id) + Moved(w'.calls, id)
  }

  /** Between the worlds, a token balance changed by what came in and what the calls took out. */
  ghost predicate TokenLaw(env: Env, w: World, w': World) {
    forall t: Address ::
      At(w'.balances, t) + Outflow(env, w'.calls, t) + At(w.inflow, t) == At(w.balances, t) + Outflow(env, w.calls, t) + At(w'.inflow, t)
  }

  /** A lane that was already revoked commits nothing between the worlds. */
  predicate Frozen(w: World, w': World) {
    forall k | k in w.sessions && w.sessions[k].revoked ::
      EventCount(w'.hook.events, w.sessions[k].sessionId) == EventCount(w.hook.events, w.sessions[k].sessionId)
  }

  ghost predicate Progress(env: Env, w: World, w': World, lane: Word, owed: nat) {
    && Inv(env, w')
    && LanesKept(w.sessions, w'.sessions)
    && w.hook.events <= w'.hook.events
    && w.calls <= w'.calls
    && Accounts(env, w, w', lane, owed)
    && TokenLaw(env, w, w')
    && Frozen(w, w')
  }

  lemma Stay(env: Env, w: World, lane: Word)
    requires Inv(env, w)
    ensures Progress(env, w, w, lane, 0)
  {
  }

  lemma Chain(env: Env, w: World, w1: World, w2: World, lane: Word, owed1: nat, owed2: nat)
    requires Progress(env, w, w1, lane, owed1) && Progress(env, w1, w2, lane, owed2)
    ensures Progress(env, w, w2, lane, owed1 + owed2)
  {
    ChainAccounts(env, w, w1, w2, lane, owed1, owed2);
    ChainLanes(w.sessions, w1.sessions, w2.sessions);
    ChainTokens(env, w, w1, w2);
    ChainFrozen(w, w1, w2);
  }

  lemma ChainFrozen(w: World, w1: World, w2: World)
    requires LanesKept(w.sessions, w1.sessions) && Frozen(w, w1) && Frozen(w1, w2)
    ensures Frozen(w, w2)
  {
    forall k | k in w.sessions && w.sessions[k].revoked
      ensures EventCount(w2.hook.events, w.sessions[k].sessionId) == EventCount(w.hook.events, w.sessions[k].sessionId)
    {
      assert SameLane(w.sessions[k], w1.sessions[k]);
    }
  }

  lemma ChainAccounts(env: Env, w: World, w1: World, w2: World, lane: Word, owed1: nat, owed2: nat)
    requires Accounts(env, w, w1, lane, owed1) && Accounts(env, w1, w2, lane, owed2)
    ensures Accounts(env, w, w2, lane, owed1 + owed2)
  {
    forall id
      ensures Spend(env, w2.hook, id) + Moved(w.calls, id) + (if id == lane then owed1 + owed2 else 0) == Spend(env, w.hook, id) + Moved(w2.calls, id)
    {
      assert Spend(env, w1.hook, id) + Moved(w.calls, id) + (if id == lane then owed1 else 0) == Spend(env, w.hook, id) + Moved(w1.calls, id);
      assert Spend(env, w2.hook, id) + Moved(w1.calls, id) + (if id == lane then owed2 else 0) == Spend(env, w1.hook, id) + Moved(w2.calls, id);
    }
  }

  lemma ChainLanes(a: map<nat, SessionConfig>, b: map<nat, SessionConfig>, c: map<nat, SessionConfig>)
    requires LanesKept(a, b) && LanesKept(b, c)
    ensures LanesKept(a, c)
  {
  }

  lemma ChainTokens(env: Env, w: World, w1: World, w2: World)
    requires TokenLaw(env, w, w1) && TokenLaw(env, w1, w2)
    ensures TokenLaw(env, w, w2)
  {
  }

  /** A debt of nothing is owed to no lane in particular. */
  lemma NoDebt(env: Env, w: World, w': World, lane: Word, other: Word)
    requires Progress(env, w, w', lane, 0)
    ensures Progress(env, w, w', other, 0)
  {
    forall id ensures Spend(env, w'.hook, id) + Moved(w.calls, id) + (if id == other then 0 else 0) == Spend(env, w.hook, id) + Moved(w'.calls, id) {
      assert Spend(env, w'.hook, id) + Moved(w.calls, id) + (if id == lane then 0 else 0) == Spend(env, w.hook, id) + Moved(w'.calls, id);
    }
  }

  // ---------- The single steps ----------

  /** Registered lanes with the same session id are the same lane. */
  lemma LaneOfId(env: Env, k1: nat, c1: SessionConfig, k2: nat, c2: SessionConfig)
    requires LaneOk(env, k1, c1) && LaneOk(env, k2, c2) && c1.sessionId == c2.sessionId
    ensures k1 == k2 && SamePhysical(c1, c2)
  {
    SessionIdInjective(env.chainId, env.adapter, c1, env.chainId, env.adapter, c2);
  }

  /** Registering a lane or revoking one: storage grows or a flag is set, and what was recorded stays legitimate. */
  lemma LanesKeepHistory(a: map<nat, SessionConfig>, b: map<nat, SessionConfig>, env: Env, w: World)
    requires LanesKept(a, b) && EventsOk(env, a, w.hook.events) && CallsOk(a, w.calls)
    ensures EventsOk(env, b, w.hook.events) && CallsOk(b, w.calls)
  {
  }

  lemma RegisterKeepsCaps(env: Env, w: World, c: SessionConfig)
    requires Inv(env, w) && LaneOk(env, c.nonceKey, c) && c.nonceKey !in w.sessions
    ensures CapOk(env, w.sessions[c.nonceKey := c], w.hook)
    ensures EventCount(w.hook.events, c.sessionId) == 0 && Spend(env, w.hook, c.sessionId) == 0
  {
    forall e | e in w.hook.events ensures e.sessionId != c.sessionId {
      if e.sessionId == c.sessionId {
        LaneOfId(env, e.nonceKey, w.sessions[e.nonceKey], c.nonceKey, c);
        assert false;
      }
    }
    NoEventsNoSpend(w.hook.events, c.sessionId);
    assert Spend(env, w.hook, c.sessionId) == FrameSum(w.hook.events, c.sessionId);
  }

  /** Registration keeps the invariant; the new lane's id has no event and no spend yet, and no other lane has it. */
  lemma RegisterProgress(env: Env, w: World, c: SessionConfig, ownerSig: Signature, railguardSig: Signature, lane: Word)
    requires Inv(env, w) && RegisterSession(env, w, c, ownerSig, railguardSig).Ok?
    ensures Progress(env, w, RegisterSession(env, w, c, ownerSig, railguardSig).value, lane, 0)
    ensures EventCount(w.hook.events, c.sessionId) == 0 && Spend(env, w.hook, c.sessionId) == 0
    ensures forall k | k in w.sessions :: w.sessions[k].sessionId != c.sessionId
  {
    var w' := RegisterSession(env, w, c, ownerSig, railguardSig).value;
    RegisterKeepsCaps(env, w, c);
    LanesKeepHistory(w.sessions, w'.sessions, env, w);
    forall k | k in w.sessions ensures w.sessions[k].sessionId != c.sessionId {
      if w.sessions[k].sessionId == c.sessionId {
        LaneOfId(env, k, w.sessions[k], c.nonceKey, c);
      }
    }
  }

  lemma RevokeProgress(env: Env, w: World, sender: Address, nonceKey: nat, lane: Word)
    requires Inv(env, w) && RevokeSession(env, w, sender, nonceKey).Ok?
    ensures Progress(env, w, RevokeSession(env, w, sender, nonceKey).value, lane, 0)
  {
    var w' := RevokeSession(env, w, sender, nonceKey).value;
    LanesKeepHistory(w.sessions, w'.sessions, env, w);
    RevokeKeepsLane(env, nonceKey, w.sessions[nonceKey]);
  }

  lemma RevokeKeepsLane(env: Env, k: nat, c: SessionConfig)
    requires LaneOk(env, k, c)
    ensures LaneOk(env, k, c.(revoked := true))
  {
  }

  lemma DepositProgress(env: Env, w: World, token: Address, amount: nat, lane: Word)
    requires Inv(env, w) && ReceiveTokens(w, token, amount).Ok?
    ensures Progress(env, w, ReceiveTokens(w, token, amount).value, lane, 0)
  {
    var w' := ReceiveTokens(w, token, amount).value;
    assert w' == w.(balances := w'.balances, inflow := w'.inflow);
    assert TokenLaw(env, w, w') by {
      assert forall t: Address :: At(w'.balances, t) + At(w.inflow, t) == At(w.balances, t) + At(w'.inflow, t);
    }
  }

  /** A token call touches only the call history and the balance it pays from. */
  lemma TokenCallEffect(env: Env, w: World, nonceKey: nat, sessionId: Word, e: Execution)
    requires TokenCall(env, w, nonceKey, sessionId, e).Ok?
    ensures var w' := TokenCall(env, w, nonceKey, sessionId, e).value;
            var c := ExternalCall(nonceKey, sessionId, e);
            && w' == w.(calls := w.calls + [c], balances := w'.balances)
            && forall t: Address :: At(w'.balances, t) + OutAmount(env, c, t) == At(w.balances, t)
  {
  }

  lemma TokenCallProgress(env: Env, w: World, nonceKey: nat, sessionId: Word, e: Execution)
    requires Inv(env, w) && LegitCall(w.sessions, ExternalCall(nonceKey, sessionId, e))
    requires TokenCall(env, w, nonceKey, sessionId, e).Ok?
    ensures Progress(env, w, TokenCall(env, w, nonceKey, sessionId, e).value, sessionId, TransferAmount(e))
  {
    var w', c := TokenCall(env, w, nonceKey, sessionId, e).value, ExternalCall(nonceKey, sessionId, e);
    TokenCallEffect(env, w, nonceKey, sessionId, e);
    AppendCall(env, w.calls, c);
    assert CallsOk(w'.sessions, w'.calls);
    assert Accounts(env, w, w', sessionId, TransferAmount(c.execution));
    assert TokenLaw(env, w, w');
  }
}
