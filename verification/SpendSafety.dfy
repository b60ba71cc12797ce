/** Safety of the spend machine over every call tree and every run. */
module SpendSafety {
  import opened Basics
  import opened Words
  import opened SessionTypes
  import opened ExecutionDecoder
  import opened SessionId
  import opened SpendMachine
  import opened SpendInvariants

  // ---------- What validation accepts ----------

  /** The amounts a list of executions asks tokens to move. */
  function Amounts(es: seq<Execution>): nat {
    if es == [] then 0 else TransferAmount(es[0]) + Amounts(es[1..])
  }

  /** A leaf the hook lets through on a lane. */
  predicate AllowedLeaf(s: SessionConfig, account: Address, e: Execution) {
    && e.target != 0
    && e.target != account
    && s.allowedTarget == s.token
    && s.allowedSelector == TRANSFER_SELECTOR
    && LegitExecution(s, e)
  }

  /** The hook accepts a leaf with an amount exactly when it is a transfer of that amount the lane allows. */
  lemma ValidateLeafIff(s: SessionConfig, account: Address, e: Execution, amount: nat)
    ensures ValidateLeaf(s, account, e) == Ok(amount) <==> AllowedLeaf(s, account, e) && TransferAmount(e) == amount
  {
  }

  /** A frame's leaves are accepted with a total exactly when each is allowed and the amounts add up to it in uint256. */
  lemma {:induction false} ValidateLeavesIff(s: SessionConfig, account: Address, es: seq<Execution>, spent: nat, total: nat)
    requires spent < UINT256_LIMIT
    ensures ValidateLeaves(s, account, es, spent) == Ok(total)
       <==> (forall e | e in es :: AllowedLeaf(s, account, e)) && total == spent + Amounts(es) && total < UINT256_LIMIT
  {
    hide ValidateLeaf, AllowedLeaf, TransferAmount;
    if es != [] {
      var first := es[0];
      assert es == [first] + es[1..];
      ValidateLeafIff(s, account, first, TransferAmount(first));
      if ValidateLeaf(s, account, first).Ok? {
        ValidateLeafIff(s, account, first, ValidateLeaf(s, account, first).value);
        if spent + TransferAmount(first) < UINT256_LIMIT {
          ValidateLeavesIff(s, account, es[1..], spent + TransferAmount(first), total);
        }
      }
    }
  }

  /** A frame is accepted with a total exactly when it decodes, its lane takes its mode, and its leaves are allowed and add up. */
  lemma ValidateFrameIff(env: Env, s: SessionConfig, account: Address, mode: nat, data: Bytes, total: nat)
    ensures ValidateFrame(env, s, account, mode, data) == Ok(total)
       <==> AllowedFrame(env, s, account, mode, data) && total == Amounts(DecodeFrame(env, mode, data).value) && total < UINT256_LIMIT
  {
    hide AllowedLeaf, ValidateLeaves, DecodeSingle, Amounts;
    if DecodeFrame(env, mode, data).Ok? {
      ValidateLeavesIff(s, account, DecodeFrame(env, mode, data).value, 0, total);
    }
  }

  predicate AllowedFrame(env: Env, s: SessionConfig, account: Address, mode: nat, data: Bytes) {
    && DecodeFrame(env, mode, data).Ok?
    && (mode == CALLTYPE_BATCH ==> s.allowBatch)
    && forall e | e in DecodeFrame(env, mode, data).value :: AllowedLeaf(s, account, e)
  }

  /** The frame the hook validates is the frame the adapter executes, single or batch. */
  lemma ValidatedIsExecuted(env: Env, s: SessionConfig, account: Address, mode: nat, data: Bytes)
    requires ValidateFrame(env, s, account, mode, data).Ok?
    ensures DecodeFrame(env, mode, data).Ok?
    ensures var es := DecodeFrame(env, mode, data).value;
            && (forall e | e in es :: AllowedLeaf(s, account, e))
            && ValidateFrame(env, s, account, mode, data).value == Amounts(es)
  {
    hide ValidateFrame, DecodeFrame, AllowedLeaf, Amounts;
    ValidateFrameIff(env, s, account, mode, data, ValidateFrame(env, s, account, mode, data).value);
  }

  // ---------- One frame ----------

  /** What `preCheck` asks of a frame: an open lane, an unused digest, allowed content, and room under the cap. */
  predicate Admits(env: Env, now: nat, h: HookState, s: SessionConfig, nonceKey: nat, mode: nat, data: Bytes) {
    && !s.revoked && s.validAfter <= now <= s.validUntil
    && (env.adapter, ExecutionDigest(env, env.adapter, s.sessionId, nonceKey, mode, data, NextSeq(env, h, s.sessionId))) !in h.used
    && AllowedFrame(env, s, env.adapter, mode, data)
    && Spend(env, h, s.sessionId) + Amounts(DecodeFrame(env, mode, data).value) <= s.maxTotalSpend
  }

  lemma PreCheckIff(env: Env, now: nat, w: World, nonceKey: nat, mode: nat, data: Bytes)
    requires nonceKey in w.sessions && w.sessions[nonceKey].maxTotalSpend < UINT256_LIMIT
    ensures PreCheck(env, now, w.hook, w.sessions, env.adapter, nonceKey, mode, data).Ok?
       <==> Admits(env, now, w.hook, w.sessions[nonceKey], nonceKey, mode, data)
  {
    hide AllowedLeaf, ValidateFrame, DecodeFrame, Amounts, ExecutionDigest;
    var s := w.sessions[nonceKey];
    var r := ValidateFrame(env, s, env.adapter, mode, data);
    if r.Ok? {
      ValidateFrameIff(env, s, env.adapter, mode, data, r.value);
    } else if DecodeFrame(env, mode, data).Ok? {
      ValidateFrameIff(env, s, env.adapter, mode, data, Amounts(DecodeFrame(env, mode, data).value));
    }
  }

  /** What `preCheck` hands to `postCheck`. */
  lemma PreCheckContext(env: Env, now: nat, w: World, nonceKey: nat, mode: nat, data: Bytes)
    requires PreCheck(env, now, w.hook, w.sessions, env.adapter, nonceKey, mode, data).Ok?
    ensures var ctx := PreCheck(env, now, w.hook, w.sessions, env.adapter, nonceKey, mode, data).value;
            && nonceKey in w.sessions
            && RequireActive(now, w.sessions[nonceKey]).Ok?
            && ContextOf(env, w.sessions[nonceKey], nonceKey, ctx)
            && ctx.executionSeq == NextSeq(env, w.hook, ctx.sessionId)
            && ctx.digest == ExecutionDigest(env, env.adapter, ctx.sessionId, nonceKey, mode, data, ctx.executionSeq)
            && ValidateFrame(env, w.sessions[nonceKey], env.adapter, mode, data) == Ok(ctx.frameSpend)
  {
  }

  predicate ContextOf(env: Env, s: SessionConfig, nonceKey: nat, ctx: HookContext) {
    && ctx.account == env.adapter
    && ctx.nonceKey == nonceKey
    && ctx.sessionId == s.sessionId
    && ctx.maxTotalSpend == s.maxTotalSpend
    && !ctx.applied
  }

  /** What a successful `postCheck` changes, key by key. */
  ghost predicate Commits(env: Env, h: HookState, ctx: HookContext, h': HookState) {
    var total := Spend(env, h, ctx.sessionId) + ctx.frameSpend;
    && total <= ctx.maxTotalSpend
    && (env.adapter, ctx.digest) !in h.used
    && h'.used == h.used + {(env.adapter, ctx.digest)}
    && h'.events == h.events + [Allowed(env.adapter, ctx.sessionId, ctx.nonceKey, ctx.digest, ctx.frameSpend, total)]
    && (forall id :: Spend(env, h', id) == if id == ctx.sessionId then total else Spend(env, h, id))
    && (forall id :: NextSeq(env, h', id) == if id == ctx.sessionId then ctx.executionSeq + 1 else NextSeq(env, h, id))
  }

  lemma PostCheckCommits(env: Env, h: HookState, ctx: HookContext)
    requires ctx.account == env.adapter && PostCheck(h, ctx).Ok?
    ensures Commits(env, h, ctx, PostCheck(h, ctx).value)
  {
    var h', key := PostCheck(h, ctx).value, (env.adapter, ctx.sessionId);
    assert h'.spend == h.spend[key := At(h.spend, key) + ctx.frameSpend];
    assert h'.seqs == h.seqs[key := ctx.executionSeq + 1];
  }

  lemma AppendRunningTotal(events: seq<Allowed>, e: Allowed)
    requires RunningTotals(events) && e.totalSpendAfter == FrameSum(events, e.sessionId) + e.frameSpend
    ensures RunningTotals(events + [e])
  {
    var longer := events + [e];
    forall i | 0 <= i < |longer| ensures longer[i].totalSpendAfter == FrameSum(longer[..i + 1], longer[i].sessionId) {
      if i < |events| {
        assert longer[..i + 1] == events[..i + 1];
      } else {
        assert longer[..i + 1] == longer;
        AppendEvent(events, e, e.sessionId);
      }
    }
  }

  /** `postCheck` commits a context the invariant can absorb, even if frames ran since `preCheck` made it. */
  lemma CommitKeepsHook(env: Env, h: HookState, ctx: HookContext, h': HookState)
    requires HookOk(env, h) && Commits(env, h, ctx, h')
    requires ctx.executionSeq <= EventCount(h.events, ctx.sessionId)
    ensures HookOk(env, h')
  {
    var e := h'.events[|h.events|];
    assert h'.events == h.events + [e];
    assert Spend(env, h, e.sessionId) == FrameSum(h.events, e.sessionId);
    AppendRunningTotal(h.events, e);
    forall id ensures Spend(env, h', id) == FrameSum(h'.events, id) && NextSeq(env, h', id) <= EventCount(h'.events, id) {
      AppendEvent(h.events, e, id);
      assert Spend(env, h, id) == FrameSum(h.events, id);
      assert NextSeq(env, h, id) <= EventCount(h.events, id);
    }
  }

  /** The cap holds after `postCheck` because it is checked against the spend of that moment. */
  lemma CommitKeepsCaps(env: Env, sessions: map<nat, SessionConfig>, h: HookState, ctx: HookContext, h': HookState)
    requires LanesOk(env, sessions) && CapOk(env, sessions, h) && Commits(env, h, ctx, h')
    requires ctx.nonceKey in sessions && ContextOf(env, sessions[ctx.nonceKey], ctx.nonceKey, ctx)
    ensures CapOk(env, sessions, h')
  {
    forall k | k in sessions ensures Spend(env, h', sessions[k].sessionId) <= sessions[k].maxTotalSpend {
      if sessions[k].sessionId == ctx.sessionId {
        LaneOfId(env, k, sessions[k], ctx.nonceKey, sessions[ctx.nonceKey]);
      }
    }
  }

  /** Recording what was owed settles the debt. */
  lemma SettleAccounts(env: Env, w: World, w1: World, w': World, lane: Word, owed: nat)
    requires Accounts(env, w, w1, lane, owed) && w'.calls == w1.calls
    requires forall id :: Spend(env, w'.hook, id) == Spend(env, w1.hook, id) + if id == lane then owed else 0
    ensures Accounts(env, w, w', lane, 0)
  {
    forall id ensures Spend(env, w'.hook, id) + Moved(w.calls, id) + (if id == lane then 0 else 0) == Spend(env, w.hook, id) + Moved(w'.calls, id) {
      assert Spend(env, w1.hook, id) + Moved(w.calls, id) + (if id == lane then owed else 0) == Spend(env, w.hook, id) + Moved(w1.calls, id);
    }
  }

  lemma CommitKeepsInv(env: Env, w1: World, ctx: HookContext, h': HookState)
    requires Inv(env, w1)
    requires ctx.nonceKey in w1.sessions && ContextOf(env, w1.sessions[ctx.nonceKey], ctx.nonceKey, ctx)
    requires ctx.executionSeq <= EventCount(w1.hook.events, ctx.sessionId)
    requires Commits(env, w1.hook, ctx, h')
    ensures Inv(env, w1.(hook := h'))
  {
    CommitKeepsHook(env, w1.hook, ctx, h');
    CommitKeepsCaps(env, w1.sessions, w1.hook, ctx, h');
  }

  lemma CommitProgress(env: Env, w: World, w1: World, ctx: HookContext, h': HookState)
    requires Inv(env, w) && Progress(env, w, w1, ctx.sessionId, ctx.frameSpend)
    requires ctx.nonceKey in w.sessions && ContextOf(env, w.sessions[ctx.nonceKey], ctx.nonceKey, ctx) && !w.sessions[ctx.nonceKey].revoked
    requires ctx.executionSeq <= EventCount(w1.hook.events, ctx.sessionId)
    requires Commits(env, w1.hook, ctx, h')
    ensures Progress(env, w, w1.(hook := h'), ctx.sessionId, 0)
  {
    var w' := w1.(hook := h');
    assert SameLane(w.sessions[ctx.nonceKey], w1.sessions[ctx.nonceKey]);
    CommitKeepsInv(env, w1, ctx, h');
    SettleAccounts(env, w, w1, w', ctx.sessionId, ctx.frameSpend);
    CommitKeepsFrozen(env, w, w1, ctx, h');
  }

  /** The one event a commit adds belongs to a lane that was active when its frame began. */
  lemma CommitKeepsFrozen(env: Env, w: World, w1: World, ctx: HookContext, h': HookState)
    requires LanesOk(env, w.sessions) && Frozen(w, w1) && Commits(env, w1.hook, ctx, h')
    requires ctx.nonceKey in w.sessions && ctx.sessionId == w.sessions[ctx.nonceKey].sessionId && !w.sessions[ctx.nonceKey].revoked
    ensures Frozen(w, w1.(hook := h'))
  {
    forall k | k in w.sessions && w.sessions[k].revoked
      ensures EventCount(h'.events, w.sessions[k].sessionId) == EventCount(w.hook.events, w.sessions[k].sessionId)
    {
      if w.sessions[k].sessionId == ctx.sessionId {
        LaneOfId(env, k, w.sessions[k], ctx.nonceKey, w.sessions[ctx.nonceKey]);
        assert false;
      }
      AppendEvent(w1.hook.events, h'.events[|w1.hook.events|], w.sessions[k].sessionId);
    }
  }

  /** A frame that completes: `preCheck`, the calls, `postCheck` on the hook as the calls left it. */
  lemma ExecuteParts(env: Env, now: nat, w: World, sender: Address, nonceKey: nat, mode: nat, data: Bytes, leaves: seq<LeafScript>)
      returns (ctx: HookContext, es: seq<Execution>, w1: World)
    requires ExecuteWithSession(env, now, w, sender, nonceKey, mode, data, leaves).Ok?
    ensures PreCheck(env, now, w.hook, w.sessions, env.adapter, nonceKey, mode, data) == Ok(ctx)
    ensures DecodeFrame(env, mode, data) == Ok(es)
    ensures nonceKey in w.sessions && Calls(env, now, w, nonceKey, w.sessions[nonceKey].sessionId, es, leaves) == Ok(w1)
    ensures Commits(env, w1.hook, ctx, ExecuteWithSession(env, now, w, sender, nonceKey, mode, data, leaves).value.hook)
    ensures ExecuteWithSession(env, now, w, sender, nonceKey, mode, data, leaves).value == w1.(hook := ExecuteWithSession(env, now, w, sender, nonceKey, mode, data, leaves).value.hook)
  {
    ctx := PreCheck(env, now, w.hook, w.sessions, env.adapter, nonceKey, mode, data).value;
    es := DecodeFrame(env, mode, data).value;
    w1 := Calls(env, now, w, nonceKey, w.sessions[nonceKey].sessionId, es, leaves).value;
    PreCheckContext(env, now, w, nonceKey, mode, data);
    PostCheckCommits(env, w1.hook, ctx);
  }

  // ---------- Every call tree ----------

  lemma LaneStaysLegit(a: map<nat, SessionConfig>, b: map<nat, SessionConfig>, k: nat, es: seq<Execution>)
    requires LanesKept(a, b) && k in a && forall e | e in es :: LegitExecution(a[k], e)
    ensures k in b && b[k].sessionId == a[k].sessionId && forall e | e in es :: LegitExecution(b[k], e)
  {
  }

  lemma {:induction false} DoProgress(env: Env, now: nat, w: World, a: Action, lane: Word)
    requires Inv(env, w)
    ensures Do(env, now, w, a).Ok? ==> Progress(env, w, Do(env, now, w, a).value, lane, 0)
    decreases a, 0
  {
    if Do(env, now, w, a).Ok? {
      match a
      case Register(c, ownerSig, railguardSig) => RegisterProgress(env, w, c, ownerSig, railguardSig, lane);
      case Revoke(sender, nonceKey) => RevokeProgress(env, w, sender, nonceKey, lane);
      case Execute(sender, nonceKey, mode, data, leaves) =>
        ExecuteProgress(env, now, w, sender, nonceKey, mode, data, leaves);
        NoDebt(env, w, Do(env, now, w, a).value, w.sessions[nonceKey].sessionId, lane);
      case Deposit(token, amount) => DepositProgress(env, w, token, amount, lane);
    }
  }

  /** A successful frame: its calls moved exactly what `postCheck` records, whatever ran inside them. */
  lemma {:induction false} ExecuteProgress(env: Env, now: nat, w: World, sender: Address, nonceKey: nat, mode: nat, data: Bytes, leaves: seq<LeafScript>)
    requires Inv(env, w)
    requires ExecuteWithSession(env, now, w, sender, nonceKey, mode, data, leaves).Ok?
    ensures Progress(env, w, ExecuteWithSession(env, now, w, sender, nonceKey, mode, data, leaves).value, w.sessions[nonceKey].sessionId, 0)
    decreases leaves
  {
    var s := w.sessions[nonceKey];
    var ctx, es, w1 := ExecuteParts(env, now, w, sender, nonceKey, mode, data, leaves);
    PreCheckContext(env, now, w, nonceKey, mode, data);
    ValidatedIsExecuted(env, s, env.adapter, mode, data);
    CallsProgress(env, now, w, nonceKey, s.sessionId, es, leaves);
    EventCountGrows(w.hook.events, w1.hook.events, s.sessionId);
    assert NextSeq(env, w.hook, s.sessionId) <= EventCount(w.hook.events, s.sessionId);
    CommitProgress(env, w, w1, ctx, ExecuteWithSession(env, now, w, sender, nonceKey, mode, data, leaves).value.hook);
  }

  /** The frame's calls so far moved their amounts; nothing of them is recorded yet, everything nested in them is. */
  lemma {:induction false} CallsProgress(env: Env, now: nat, w: World, nonceKey: nat, sessionId: Word, es: seq<Execution>, leaves: seq<LeafScript>)
    requires Inv(env, w) && nonceKey in w.sessions && w.sessions[nonceKey].sessionId == sessionId
    requires forall e | e in es :: LegitExecution(w.sessions[nonceKey], e)
    ensures Calls(env, now, w, nonceKey, sessionId, es, leaves).Ok? ==>
              Progress(env, w, Calls(env, now, w, nonceKey, sessionId, es, leaves).value, sessionId, Amounts(es))
    decreases leaves, |es|
  {
    hide LegitExecution, TokenCall, CallLeaf, Inv;
    if es == [] {
      Stay(env, w, sessionId);
    } else if Calls(env, now, w, nonceKey, sessionId, es, leaves).Ok? {
      var w1: World;
      if leaves == [] {
        w1 := TokenCall(env, w, nonceKey, sessionId, es[0]).value;
        TokenCallProgress(env, w, nonceKey, sessionId, es[0]);
        LaneStaysLegit(w.sessions, w1.sessions, nonceKey, es[1..]);
        CallsProgress(env, now, w1, nonceKey, sessionId, es[1..], []);
      } else {
        w1 := CallLeaf(env, now, w, nonceKey, sessionId, es[0], leaves[0]).value;
        CallLeafProgress(env, now, w, nonceKey, sessionId, es[0], leaves[0]);
        LaneStaysLegit(w.sessions, w1.sessions, nonceKey, es[1..]);
        CallsProgress(env, now, w1, nonceKey, sessionId, es[1..], leaves[1..]);
      }
      Chain(env, w, w1, Calls(env, now, w, nonceKey, sessionId, es, leaves).value, sessionId, TransferAmount(es[0]), Amounts(es[1..]));
    }
  }

  /** A leaf call that completes: re-entry, the token's move, re-entry. */
  lemma CallLeafParts(env: Env, now: nat, w: World, nonceKey: nat, sessionId: Word, e: Execution, leaf: LeafScript)
    requires CallLeaf(env, now, w, nonceKey, sessionId, e, leaf).Ok?
    ensures var w1 := RunAll(env, now, w, leaf.before);
            && TokenCall(env, w1, nonceKey, sessionId, e).Ok?
            && CallLeaf(env, now, w, nonceKey, sessionId, e, leaf).value == RunAll(env, now, TokenCall(env, w1, nonceKey, sessionId, e).value, leaf.after)
  {
  }

  lemma {:induction false} CallLeafProgress(env: Env, now: nat, w: World, nonceKey: nat, sessionId: Word, e: Execution, leaf: LeafScript)
    requires Inv(env, w) && nonceKey in w.sessions && w.sessions[nonceKey].sessionId == sessionId
    requires LegitExecution(w.sessions[nonceKey], e)
    ensures CallLeaf(env, now, w, nonceKey, sessionId, e, leaf).Ok? ==>
              Progress(env, w, CallLeaf(env, now, w, nonceKey, sessionId, e, leaf).value, sessionId, TransferAmount(e))
    decreases leaf
  {
    hide LegitExecution, TokenCall, CallLeaf, Inv;
    if CallLeaf(env, now, w, nonceKey, sessionId, e, leaf).Ok? {
      CallLeafParts(env, now, w, nonceKey, sessionId, e, leaf);
      RunAllProgress(env, now, w, leaf.before, sessionId);
      var w1 := RunAll(env, now, w, leaf.before);
      TokenCallAfter(env, w, w1, nonceKey, sessionId, e);
      var w2 := TokenCall(env, w1, nonceKey, sessionId, e).value;
      RunAllProgress(env, now, w2, leaf.after, sessionId);
      var w3 := RunAll(env, now, w2, leaf.after);
      Chain(env, w, w2, w3, sessionId, TransferAmount(e), 0);
    }
  }

  lemma TokenCallAfter(env: Env, w: World, w1: World, nonceKey: nat, sessionId: Word, e: Execution)
    requires Progress(env, w, w1, sessionId, 0)
    requires nonceKey in w.sessions && w.sessions[nonceKey].sessionId == sessionId && LegitExecution(w.sessions[nonceKey], e)
    requires TokenCall(env, w1, nonceKey, sessionId, e).Ok?
    ensures Progress(env, w, TokenCall(env, w1, nonceKey, sessionId, e).value, sessionId, TransferAmount(e))
  {
    assert SameLane(w.sessions[nonceKey], w1.sessions[nonceKey]);
    TokenCallProgress(env, w1, nonceKey, sessionId, e);
    Chain(env, w, w1, TokenCall(env, w1, nonceKey, sessionId, e).value, sessionId, 0, TransferAmount(e));
  }

  lemma {:induction false} RunAllProgress(env: Env, now: nat, w: World, actions: seq<Action>, lane: Word)
    requires Inv(env, w)
    ensures Progress(env, w, RunAll(env, now, w, actions), lane, 0)
    decreases actions
  {
    Stay(env, w, lane);
    if actions != [] {
      var w1 := Step(env, now, w, actions[0]);
      DoProgress(env, now, w, actions[0], lane);
      RunAllProgress(env, now, w1, actions[1..], lane);
      Chain(env, w, w1, RunAll(env, now, w, actions), lane, 0, 0);
    }
  }

  // ---------- When a frame's calls go through ----------

  /** The token can pay what the call asks for. */
  predicate Payable(w: World, e: Execution) {
    TransferAmount(e) <= At(w.balances, e.target)
  }

  /** The call did not revert, and returned true or nothing. */
  predicate ReturnsWell(leaf: LeafScript) {
    leaf.outcome == ReturnsTrue || leaf.outcome == ReturnsNothing
  }

  /** A call that is not re-entered and returns true. */
  const PLAIN: LeafScript := LeafScript([], [], ReturnsTrue)

  lemma TokenCallIff(env: Env, w: World, nonceKey: nat, sessionId: Word, e: Execution)
    ensures TokenCall(env, w, nonceKey, sessionId, e).Ok? <==> Payable(w, e)
  {
  }

  lemma CheckReturnIff(leaf: LeafScript)
    ensures CheckReturn(leaf.outcome).Ok? <==> ReturnsWell(leaf)
    ensures CheckReturn(leaf.outcome).Revert? ==>
              CheckReturn(leaf.outcome).error == if leaf.outcome == Reverts then HookCallFailed else TransferReturnedFalse
  {
  }

  /** Leaf by leaf, in the state that what re-enters leaves behind: the token can pay, and the call returns true or nothing. */
  predicate CallsGoThrough(env: Env, now: nat, w: World, nonceKey: nat, sessionId: Word, es: seq<Execution>, leaves: seq<LeafScript>)
    decreases leaves, |es|
  {
    es != [] ==>
      var leaf, rest := if leaves == [] then PLAIN else leaves[0], if leaves == [] then [] else leaves[1..];
      var w1 := if leaves == [] then w else RunAll(env, now, w, leaves[0].before);
      && Payable(w1, es[0]) && ReturnsWell(leaf)
      && match TokenCall(env, w1, nonceKey, sessionId, es[0])
         case Revert(_) => false
         case Ok(w2) =>
           CallsGoThrough(env, now, if leaves == [] then w2 else RunAll(env, now, w2, leaves[0].after), nonceKey, sessionId, es[1..], rest)
  }

  lemma {:induction false} CallsGoThroughIff(env: Env, now: nat, w: World, nonceKey: nat, sessionId: Word, es: seq<Execution>, leaves: seq<LeafScript>)
    ensures Calls(env, now, w, nonceKey, sessionId, es, leaves).Ok? <==> CallsGoThrough(env, now, w, nonceKey, sessionId, es, leaves)
    decreases |es|
  {
    hide TokenCall, RunAll, Payable, ReturnsWell, CheckReturn;
    if es != [] && leaves == [] {
      TokenCallIff(env, w, nonceKey, sessionId, es[0]);
      assert ReturnsWell(PLAIN) by {
        CheckReturnIff(PLAIN);
        PlainReturnsWell();
      }
      if TokenCall(env, w, nonceKey, sessionId, es[0]).Ok? {
        CallsGoThroughIff(env, now, TokenCall(env, w, nonceKey, sessionId, es[0]).value, nonceKey, sessionId, es[1..], []);
      }
    } else if es != [] {
      var w1 := RunAll(env, now, w, leaves[0].before);
      TokenCallIff(env, w1, nonceKey, sessionId, es[0]);
      CheckReturnIff(leaves[0]);
      if TokenCall(env, w1, nonceKey, sessionId, es[0]).Ok? {
        var w3 := RunAll(env, now, TokenCall(env, w1, nonceKey, sessionId, es[0]).value, leaves[0].after);
        CallsGoThroughIff(env, now, w3, nonceKey, sessionId, es[1..], leaves[1..]);
      }
    }
  }

  lemma PlainReturnsWell()
    ensures ReturnsWell(PLAIN)
  {
  }

  /** Every scripted call of calls that go through returned true or nothing. */
  lemma {:induction false} ScriptedCallsReturnedWell(env: Env, now: nat, w: World, nonceKey: nat, sessionId: Word, es: seq<Execution>, leaves: seq<LeafScript>)
    requires CallsGoThrough(env, now, w, nonceKey, sessionId, es, leaves)
    ensures forall i | 0 <= i < |es| && i < |leaves| :: ReturnsWell(leaves[i])
    decreases |es|
  {
    hide TokenCall, RunAll, Payable, ReturnsWell;
    if es != [] && leaves != [] {
      var w1 := RunAll(env, now, w, leaves[0].before);
      var w3 := RunAll(env, now, TokenCall(env, w1, nonceKey, sessionId, es[0]).value, leaves[0].after);
      ScriptedCallsReturnedWell(env, now, w3, nonceKey, sessionId, es[1..], leaves[1..]);
      forall i | 0 <= i < |es| && i < |leaves| ensures ReturnsWell(leaves[i]) {
        if i > 0 {
          assert leaves[1..][i - 1] == leaves[i];
        }
      }
    }
  }

  // ---------- What a digest commits to ----------

  /** Two frames have one digest exactly if they agree on chain, hook, account, session, nonce key, number, mode and content. */
  lemma ExecutionDigestIff(e: Env, f: Env, account1: Address, account2: Address, id1: Word, id2: Word, key1: nat, key2: nat,
                           mode1: nat, mode2: nat, data1: Bytes, data2: Bytes, seq1: nat, seq2: nat)
    ensures ExecutionDigest(e, account1, id1, key1, mode1, data1, seq1) == ExecutionDigest(f, account2, id2, key2, mode2, data2, seq2)
       <==> && e.chainId == f.chainId && e.hook == f.hook && account1 == account2 && id1 == id2 && key1 == key2
            && mode1 == mode2 && data1 == data2 && seq1 == seq2
  {
    var p := ExecutionDigest(e, account1, id1, key1, mode1, data1, seq1).preimage;
    var q := ExecutionDigest(f, account2, id2, key2, mode2, data2, seq2).preimage;
    if p == q {
      assert forall i | 0 <= i < 8 :: p[i] == q[i];
      assert p[0] == q[0] && p[1] == q[1] && p[2] == q[2] && p[3] == q[3] && p[4] == q[4] && p[5] == q[5] && p[6] == q[6] && p[7] == q[7];
    }
  }

  // ---------- Why a frame is refused ----------

  /** The reason a leaf is refused for: the first thing wrong with it. */
  lemma LeafRefusals(s: SessionConfig, account: Address, e: Execution)
    requires s.allowedTarget == s.token && s.allowedSelector == TRANSFER_SELECTOR
    ensures var r, zero, self := ValidateLeaf(s, account, e), e.target == 0, e.target == account;
            var transfer := |e.callData| >= 4 && e.callData[..4] == TRANSFER_SELECTOR;
            && (zero || (!self && e.value == 0 && e.target != s.token) ==> r == Revert(WrongTarget))
            && (!zero && self ==> r == Revert(SelfCallRejected))
            && (!zero && !self && e.value != 0 ==> r == Revert(NativeEthRejected))
            && (!zero && !self && e.value == 0 && e.target == s.token ==>
                  && (!transfer ==> r == Revert(UnsupportedSelector))
                  && (transfer && ParseTransfer(e.callData).None? ==> r == Revert(AbiDecodeFailed))
                  && (ParseTransfer(e.callData).Some? && ParseTransfer(e.callData).value.0 != s.allowedRecipient ==> r == Revert(WrongRecipient))
                  && (ParseTransfer(e.callData).Some? && ParseTransfer(e.callData).value.0 == s.allowedRecipient && TransferAmount(e) > s.maxPerTransfer ==>
                        r == Revert(ExceedsMaxPerTransfer)))
  {
  }

  /** The reason a frame is refused for before any of its calls is made. */
  lemma FrameRefusals(env: Env, now: nat, w: World, sender: Address, nonceKey: nat, mode: nat, data: Bytes, leaves: seq<LeafScript>)
    ensures var r := Do(env, now, w, Execute(sender, nonceKey, mode, data, leaves));
            if nonceKey !in w.sessions then r == Revert(SessionNotFound)
            else
              var s := w.sessions[nonceKey];
              var digest := ExecutionDigest(env, env.adapter, s.sessionId, nonceKey, mode, data, NextSeq(env, w.hook, s.sessionId));
              var total := Spend(env, w.hook, s.sessionId) + if DecodeFrame(env, mode, data).Ok? then Amounts(DecodeFrame(env, mode, data).value) else 0;
              && (s.revoked ==> r == Revert(SessionRevoked))
              && (!s.revoked && now < s.validAfter ==> r == Revert(SessionNotYetValid))
              && (!s.revoked && s.validAfter <= now && s.validUntil < now ==> r == Revert(SessionExpired))
              && (!s.revoked && s.validAfter <= now <= s.validUntil ==>
                    && (sender != s.sessionKey && sender != env.owner ==> r == Revert(InvalidSessionKey))
                    && (sender == s.sessionKey || sender == env.owner ==>
                          && ((env.adapter, digest) in w.hook.used ==> r == Revert(ExecutionReplayed))
                          && ((env.adapter, digest) !in w.hook.used ==>
                                && (mode == CALLTYPE_DELEGATE ==> r == Revert(DelegatecallRejected))
                                && (mode == CALLTYPE_BATCH && !s.allowBatch ==> r == Revert(BatchNotAllowed))
                                && (mode != CALLTYPE_DELEGATE && mode != CALLTYPE_BATCH && mode != CALLTYPE_SINGLE ==> r == Revert(UnknownExecutionMode))
                                && (AllowedFrame(env, s, env.adapter, mode, data) && s.maxTotalSpend < total < UINT256_LIMIT ==>
                                      r == Revert(ExceedsMaxTotalSpend)))))
  {
    hide DecodeSingle, ValidateLeaves, Calls, PostCheck, Amounts, ExecutionDigest, AllowedLeaf;
    if nonceKey in w.sessions && AllowedFrame(env, w.sessions[nonceKey], env.adapter, mode, data) {
      ValidateFrameIff(env, w.sessions[nonceKey], env.adapter, mode, data, Amounts(DecodeFrame(env, mode, data).value));
    }
  }
}
