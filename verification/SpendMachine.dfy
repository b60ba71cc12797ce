/** The on-chain spend machine: hook, account adapter and an honest token, as functions on their joint state.

    Control leaves the contracts at every external call, so an `Execute` action carries a script for each leaf
    call: the adapter calls that re-enter before and after the token moves the balance, and how the call returns.
    Every action either succeeds or leaves the world as it was.
 */
module SpendMachine {
  import opened Basics
  import opened Words
  import opened SessionTypes
  import opened ExecutionDecoder
  import opened SessionId

  /** What is fixed at deployment; `decodeBatch` stands for abi.decode of an Execution[]. */
  datatype Env = Env(
    chainId: nat,
    hook: Address,
    adapter: Address,
    owner: Address,
    railguardSigner: Address,
    decodeBatch: Bytes -> Option<seq<Execution>>)

  datatype Allowed = Allowed(
    account: Address, sessionId: Word, nonceKey: nat, digest: Word, frameSpend: nat, totalSpendAfter: nat)

  datatype HookState = HookState(
    spend: map<(Address, Word), nat>,
    used: set<(Address, Word)>,
    seqs: map<(Address, Word), nat>,
    events: seq<Allowed>)

  datatype HookContext = HookContext(
    account: Address, sessionId: Word, nonceKey: nat, digest: Word,
    executionSeq: nat, frameSpend: nat, maxTotalSpend: nat, applied: bool)

  /** One external call made by the adapter on behalf of a lane. */
  datatype ExternalCall = ExternalCall(nonceKey: nat, sessionId: Word, execution: Execution)

  /** `sessions` is the adapter's own storage, `balances` its token balances; `inflow` and `calls` are history. */
  datatype World = World(
    sessions: map<nat, SessionConfig>,
    hook: HookState,
    balances: map<Address, nat>,
    inflow: map<Address, nat>,
    calls: seq<ExternalCall>)

  /** `signer` is the address ECDSA recovers for the digest of the configuration at hand, if any. */
  datatype Signature = Signature(length: nat, signer: Option<Address>)

  datatype CallOutcome = ReturnsTrue | ReturnsNothing | ReturnsFalse | Reverts

  datatype LeafScript = LeafScript(before: seq<Action>, after: seq<Action>, outcome: CallOutcome)

  datatype Action =
    | Register(config: SessionConfig, ownerSig: Signature, railguardSig: Signature)
    | Revoke(sender: Address, nonceKey: nat)
    | Execute(sender: Address, nonceKey: nat, mode: nat, data: Bytes, leaves: seq<LeafScript>)
    | Deposit(token: Address, amount: nat)

  // ---------- Hook ----------

  function RequireActive(now: nat, s: SessionConfig): Result<()> {
    if s.revoked then Revert(SessionRevoked)
    else if now < s.validAfter then Revert(SessionNotYetValid)
    else if now > s.validUntil then Revert(SessionExpired)
    else Ok(())
  }

  function ExecutionDigest(env: Env, account: Address, sessionId: Word, nonceKey: nat, mode: nat, data: Bytes, executionSeq: nat): Word {
    Keccak([Num(env.chainId), Num(env.hook), Num(account), sessionId, Num(nonceKey), Num(executionSeq), Num(mode), KeccakBytes(data)])
  }

  function ValidateLeaf(s: SessionConfig, account: Address, e: Execution): Result<nat> {
    if e.target == 0 then Revert(WrongTarget)
    else if e.target == account then Revert(SelfCallRejected)
    else if e.value != 0 then Revert(NativeEthRejected)
    else if s.allowedTarget != s.token then Revert(TargetMustEqualToken)
    else if e.target != s.allowedTarget then Revert(WrongTarget)
    else if |e.callData| < 4 then Revert(UnsupportedSelector)
    else if e.callData[..4] != TRANSFER_SELECTOR then Revert(UnsupportedSelector)
    else if e.callData[..4] != s.allowedSelector then Revert(UnsupportedSelector)
    else
      var (recipient, amount) :- DecodeAddressUint(e.callData[4..]);
      if recipient != s.allowedRecipient then Revert(WrongRecipient)
      else if amount > s.maxPerTransfer then Revert(ExceedsMaxPerTransfer)
      else Ok(amount)
  }

  /** Validates the leaves in order, adding each amount to `spent` with checked arithmetic. */
  function ValidateLeaves(s: SessionConfig, account: Address, es: seq<Execution>, spent: nat): Result<nat> {
    if es == [] then Ok(spent) else
    var amount :- ValidateLeaf(s, account, es[0]);
    var next :- CheckedAdd(spent, amount);
    ValidateLeaves(s, account, es[1..], next)
  }

  function DecodeBatch(env: Env, data: Bytes): Result<seq<Execution>> {
    match env.decodeBatch(data)
    case Some(es) => Ok(es)
    case None => Revert(AbiDecodeFailed)
  }

  function ValidateFrame(env: Env, s: SessionConfig, account: Address, mode: nat, data: Bytes): Result<nat> {
    if mode == CALLTYPE_DELEGATE then Revert(DelegatecallRejected)
    else if mode == CALLTYPE_SINGLE then
      var e :- DecodeSingle(data);
      ValidateLeaves(s, account, [e], 0)
    else if mode == CALLTYPE_BATCH then
      if !s.allowBatch then Revert(BatchNotAllowed) else
      var es :- DecodeBatch(env, data);
      ValidateLeaves(s, account, es, 0)
    else Revert(UnknownExecutionMode)
  }

  function PreCheck(env: Env, now: nat, h: HookState, sessions: map<nat, SessionConfig>, account: Address, nonceKey: nat, mode: nat, data: Bytes): Result<HookContext> {
    if account != env.adapter || nonceKey !in sessions then Revert(SessionNotFound) else
    var s := sessions[nonceKey];
    var _ :- RequireActive(now, s);
    var executionSeq := At(h.seqs, (account, s.sessionId));
    var digest := ExecutionDigest(env, account, s.sessionId, nonceKey, mode, data, executionSeq);
    if (account, digest) in h.used then Revert(ExecutionReplayed) else
    var frameSpend :- ValidateFrame(env, s, account, mode, data);
    var total :- CheckedAdd(At(h.spend, (account, s.sessionId)), frameSpend);
    if total > s.maxTotalSpend then Revert(ExceedsMaxTotalSpend) else
    Ok(HookContext(account, s.sessionId, nonceKey, digest, executionSeq, frameSpend, s.maxTotalSpend, false))
  }

  function PostCheck(h: HookState, ctx: HookContext): Result<HookState> {
    if ctx.applied then Revert(ExecutionReplayed)
    else if (ctx.account, ctx.digest) in h.used then Revert(ExecutionReplayed)
    else
      var key := (ctx.account, ctx.sessionId);
      var newSpend :- CheckedAdd(At(h.spend, key), ctx.frameSpend);
      if newSpend > ctx.maxTotalSpend then Revert(ExceedsMaxTotalSpend) else
      var next :- CheckedAdd(ctx.executionSeq, 1);
      Ok(HookState(
           h.spend[key := newSpend],
           h.used + {(ctx.account, ctx.digest)},
           h.seqs[key := next],
           h.events + [Allowed(ctx.account, ctx.sessionId, ctx.nonceKey, ctx.digest, ctx.frameSpend, newSpend)]))
  }

  // ---------- Adapter ----------

  function ValidateConfig(c: SessionConfig): Result<()> {
    if c.sessionKey == 0 || c.token == 0 then Revert(ZeroAddress)
    else if c.allowedTarget != c.token then Revert(TargetMustEqualToken)
    else if c.allowedSelector != TRANSFER_SELECTOR then Revert(UnsupportedSelector)
    else if c.maxPerTransfer == 0 then Revert(InvalidSpendLimits)
    else if c.maxTotalSpend < c.maxPerTransfer then Revert(InvalidSpendLimits)
    else if c.validUntil <= c.validAfter then Revert(InvalidValidityWindow)
    else Ok(())
  }

  function RegisterSession(env: Env, w: World, c: SessionConfig, ownerSig: Signature, railguardSig: Signature): Result<World> {
    if c.account != env.adapter then Revert(InvalidAccount) else
    var _ :- ValidateConfig(c);
    if c.nonceKey in w.sessions then Revert(SessionAlreadyExists)
    else if ownerSig.length != 65 then Revert(InvalidOwnerSignature)
    else if railguardSig.length != 65 then Revert(InvalidRailguardSignature)
    else if ownerSig.signer.None? then Revert(InvalidSignature)
    else if ownerSig.signer != Some(env.owner) then Revert(InvalidOwnerSignature)
    else if railguardSig.signer.None? then Revert(InvalidSignature)
    else if railguardSig.signer != Some(env.railguardSigner) then Revert(InvalidRailguardSignature)
    else if c.sessionId != DeriveFromConfig(env.chainId, env.adapter, c) then Revert(InvalidSessionId)
    else Ok(w.(sessions := w.sessions[c.nonceKey := c]))
  }

  function RevokeSession(env: Env, w: World, sender: Address, nonceKey: nat): Result<World> {
    if sender != env.owner then Revert(Unauthorized)
    else if nonceKey !in w.sessions then Revert(SessionNotFound)
    else Ok(w.(sessions := w.sessions[nonceKey := w.sessions[nonceKey].(revoked := true)]))
  }

  /** Tokens sent to the adapter by someone else. */
  function ReceiveTokens(w: World, token: Address, amount: nat): Result<World> {
    var balance :- CheckedAdd(At(w.balances, token), amount);
    Ok(w.(balances := w.balances[token := balance], inflow := w.inflow[token := At(w.inflow, token) + amount]))
  }

  /** `_execute`'s reading of a frame. */
  function DecodeFrame(env: Env, mode: nat, data: Bytes): Result<seq<Execution>> {
    if mode == CALLTYPE_SINGLE then
      var e :- DecodeSingle(data);
      Ok([e])
    else if mode == CALLTYPE_BATCH then DecodeBatch(env, data)
    else Revert(UnknownExecutionMode)
  }

  /** The token's own part of a call: it moves the adapter's balance if the calldata is a transfer it can pay. */
  function TokenCall(env: Env, w: World, nonceKey: nat, sessionId: Word, e: Execution): Result<World> {
    var called := w.(calls := w.calls + [ExternalCall(nonceKey, sessionId, e)]);
    match ParseTransfer(e.callData)
    case None => Ok(called)
    case Some((recipient, amount)) =>
      var balance := At(w.balances, e.target);
      if balance < amount then Revert(HookCallFailed)
      else if recipient == env.adapter then Ok(called)
      else Ok(called.(balances := w.balances[e.target := balance - amount]))
  }

  /** `_callWithERC20Check`'s verdict on how the call returned. */
  function CheckReturn(outcome: CallOutcome): Result<()> {
    match outcome
    case Reverts => Revert(HookCallFailed)
    case ReturnsFalse => Revert(TransferReturnedFalse)
    case ReturnsTrue => Ok(())
    case ReturnsNothing => Ok(())
  }

  function CallLeaf(env: Env, now: nat, w: World, nonceKey: nat, sessionId: Word, e: Execution, leaf: LeafScript): Result<World>
    decreases leaf
  {
    var w1 := RunAll(env, now, w, leaf.before);
    var w2 :- TokenCall(env, w1, nonceKey, sessionId, e);
    var w3 := RunAll(env, now, w2, leaf.after);
    var _ :- CheckReturn(leaf.outcome);
    Ok(w3)
  }

  /** `_execute`: the frame's calls in order; a call without a script is not re-entered and returns true. */
  function Calls(env: Env, now: nat, w: World, nonceKey: nat, sessionId: Word, es: seq<Execution>, leaves: seq<LeafScript>): Result<World>
    decreases leaves, |es|
  {
    if es == [] then Ok(w)
    else if leaves == [] then
      var w1 :- TokenCall(env, w, nonceKey, sessionId, es[0]);
      Calls(env, now, w1, nonceKey, sessionId, es[1..], [])
    else
      var w1 :- CallLeaf(env, now, w, nonceKey, sessionId, es[0], leaves[0]);
      Calls(env, now, w1, nonceKey, sessionId, es[1..], leaves[1..])
  }

  function ExecuteWithSession(env: Env, now: nat, w: World, sender: Address, nonceKey: nat, mode: nat, data: Bytes, leaves: seq<LeafScript>): Result<World>
    decreases leaves
  {
    if nonceKey !in w.sessions then Revert(SessionNotFound) else
    var s := w.sessions[nonceKey];
    var _ :- RequireActive(now, s);
    if sender != s.sessionKey && sender != env.owner then Revert(InvalidSessionKey) else
    var ctx :- PreCheck(env, now, w.hook, w.sessions, env.adapter, nonceKey, mode, data);
    var es :- DecodeFrame(env, mode, data);
    var w1 :- Calls(env, now, w, nonceKey, s.sessionId, es, leaves);
    var h :- PostCheck(w1.hook, ctx);
    Ok(w1.(hook := h))
  }

  function Do(env: Env, now: nat, w: World, a: Action): Result<World>
    decreases a, 0
  {
    match a
    case Register(c, ownerSig, railguardSig) => RegisterSession(env, w, c, ownerSig, railguardSig)
    case Revoke(sender, nonceKey) => RevokeSession(env, w, sender, nonceKey)
    case Execute(sender, nonceKey, mode, data, leaves) => ExecuteWithSession(env, now, w, sender, nonceKey, mode, data, leaves)
    case Deposit(token, amount) => ReceiveTokens(w, token, amount)
  }

  /** The world after an action: a reverted one leaves no trace. */
  function Step(env: Env, now: nat, w: World, a: Action): World
    decreases a, 1
  {
    match Do(env, now, w, a)
    case Ok(next) => next
    case Revert(_) => w
  }

  function RunAll(env: Env, now: nat, w: World, actions: seq<Action>): World
    decreases actions
  {
    if actions == [] then w
    else RunAll(env, now, Step(env, now, w, actions[0]), actions[1..])
  }
}
