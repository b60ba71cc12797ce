/** The hook and the account adapter as objects with storage, tied to the functions of `SpendMachine`.

    A message sender, the block timestamp and, for the hook, the adapter storage behind `getSession` are parameters.
    A reverted transaction restores every field, as the EVM does.
 */
module Contracts {
  import opened Basics
  import opened Words
  import opened SessionTypes
  import opened ExecutionDecoder
  import SessionId
  import opened SpendMachine

  class ExecutionHook {
    const env: Env
    const deployer: Address
    var adapter: Option<Address>
    var sessionSpend: map<(Address, Word), nat>
    var usedExecutions: set<(Address, Word)>
    var sessionExecutionSeq: map<(Address, Word), nat>
    var events: seq<Allowed>

    ghost function State(): HookState
      reads this
    {
      HookState(sessionSpend, usedExecutions, sessionExecutionSeq, events)
    }

    constructor (env: Env, deployer: Address)
      ensures this.env == env && this.deployer == deployer && adapter == None
      ensures State() == HookState(map[], {}, map[], [])
    {
      this.env, this.deployer, adapter := env, deployer, None;
      sessionSpend, usedExecutions, sessionExecutionSeq, events := map[], {}, map[], [];
    }

    /** Binds the adapter once, on the deployer's word. */
    method SetAdapter(sender: Address, newAdapter: Address) returns (r: Result<()>)
      modifies this`adapter
      ensures r.Ok? <==> sender == deployer && old(adapter) == None && newAdapter != 0
      ensures adapter == if r.Ok? then Some(newAdapter) else old(adapter)
    {
      if sender != deployer || adapter != None {
        return Revert(Unauthorized);
      }
      if newAdapter == 0 {
        return Revert(ZeroAddress);
      }
      adapter := Some(newAdapter);
      return Ok(());
    }

    /** The leaf loop: one pass over the executions with a running, checked total. */
    method ValidateBatch(s: SessionConfig, account: Address, es: seq<Execution>) returns (r: Result<nat>)
      ensures r == ValidateLeaves(s, account, es, 0)
    {
      var frameSpend := 0;
      var i := 0;
      while i < |es|
        invariant 0 <= i <= |es|
        invariant ValidateLeaves(s, account, es, 0) == ValidateLeaves(s, account, es[i..], frameSpend)
      {
        var amount := ValidateLeaf(s, account, es[i]);
        if amount.Revert? {
          return amount;
        }
        var next := CheckedAdd(frameSpend, amount.value);
        if next.Revert? {
          return next;
        }
        assert es[i..][0] == es[i] && es[i..][1..] == es[i + 1..];
        frameSpend := next.value;
        i := i + 1;
      }
      return Ok(frameSpend);
    }

    method ValidateFrame(s: SessionConfig, account: Address, mode: nat, data: Bytes) returns (r: Result<nat>)
      ensures r == SpendMachine.ValidateFrame(env, s, account, mode, data)
    {
      if mode == CALLTYPE_DELEGATE {
        return Revert(DelegatecallRejected);
      }
      if mode == CALLTYPE_SINGLE {
        var e := DecodeSingle(data);
        if e.Revert? {
          return Revert(e.error);
        }
        r := ValidateBatch(s, account, [e.value]);
        return;
      }
      if mode == CALLTYPE_BATCH {
        if !s.allowBatch {
          return Revert(BatchNotAllowed);
        }
        var es := DecodeBatch(env, data);
        if es.Revert? {
          return Revert(es.error);
        }
        r := ValidateBatch(s, account, es.value);
        return;
      }
      return Revert(UnknownExecutionMode);
    }

    /** Changes nothing: on success the context goes back to the adapter, on failure the transaction is undone. */
    method PreCheck(sender: Address, now: nat, sessions: map<nat, SessionConfig>, account: Address, nonceKey: nat, mode: nat, data: Bytes) returns (r: Result<HookContext>)
      ensures r == if adapter == Some(sender) then SpendMachine.PreCheck(env, now, State(), sessions, account, nonceKey, mode, data) else Revert(Unauthorized)
    {
      if adapter != Some(sender) {
        return Revert(Unauthorized);
      }
      if account != env.adapter || nonceKey !in sessions {
        return Revert(SessionNotFound);
      }
      var s := sessions[nonceKey];
      var active := RequireActive(now, s);
      if active.Revert? {
        return Revert(active.error);
      }
      var key := (account, s.sessionId);
      var digest := ExecutionDigest(env, account, s.sessionId, nonceKey, mode, data, At(sessionExecutionSeq, key));
      if (account, digest) in usedExecutions {
        return Revert(ExecutionReplayed);
      }
      var frameSpend := ValidateFrame(s, account, mode, data);
      if frameSpend.Revert? {
        return Revert(frameSpend.error);
      }
      var total := CheckedAdd(At(sessionSpend, key), frameSpend.value);
      if total.Revert? {
        return Revert(total.error);
      }
      if total.value > s.maxTotalSpend {
        return Revert(ExceedsMaxTotalSpend);
      }
      return Ok(HookContext(account, s.sessionId, nonceKey, digest, At(sessionExecutionSeq, key), frameSpend.value, s.maxTotalSpend, false));
    }

    method PostCheck(sender: Address, ctx: HookContext) returns (r: Result<()>)
      modifies this`sessionSpend, this`usedExecutions, this`sessionExecutionSeq, this`events
      ensures adapter != Some(sender) ==> r == Revert(Unauthorized) && State() == old(State())
      ensures adapter == Some(sender) ==>
                match SpendMachine.PostCheck(old(State()), ctx)
                case Ok(h) => r.Ok? && State() == h
                case Revert(e) => r == Revert(e) && State() == old(State())
    {
      if adapter != Some(sender) {
        return Revert(Unauthorized);
      }
      if ctx.applied || (ctx.account, ctx.digest) in usedExecutions {
        return Revert(ExecutionReplayed);
      }
      var key := (ctx.account, ctx.sessionId);
      var newSpend := CheckedAdd(At(sessionSpend, key), ctx.frameSpend);
      if newSpend.Revert? {
        return Revert(newSpend.error);
      }
      if newSpend.value > ctx.maxTotalSpend {
        return Revert(ExceedsMaxTotalSpend);
      }
      var next := CheckedAdd(ctx.executionSeq, 1);
      if next.Revert? {
        return Revert(next.error);
      }
      sessionSpend := sessionSpend[key := newSpend.value];
      usedExecutions := usedExecutions + {(ctx.account, ctx.digest)};
      sessionExecutionSeq := sessionExecutionSeq[key := next.value];
      events := events + [Allowed(ctx.account, ctx.sessionId, ctx.nonceKey, ctx.digest, ctx.frameSpend, newSpend.value)];
      return Ok(());
    }
  }

  /** The adapter, with the balances its tokens keep for it. */
  class AccountAdapter {
    const env: Env
    const hook: ExecutionHook
    var sessions: map<nat, SessionConfig>
    var balances: map<Address, nat>
    var inflow: map<Address, nat>
    var calls: seq<ExternalCall>

    ghost predicate Valid()
      reads this, hook
    {
      hook.env == env && hook.adapter == Some(env.adapter)
    }

    ghost function Current(): World
      reads this, hook
    {
      World(sessions, hook.State(), balances, inflow, calls)
    }

    constructor (env: Env, hook: ExecutionHook, balances: map<Address, nat>)
      requires hook.env == env && hook.adapter == Some(env.adapter)
      ensures Valid() && this.env == env && this.hook == hook
      ensures Current() == World(map[], hook.State(), balances, map[], [])
    {
      this.env, this.hook, this.balances := env, hook, balances;
      sessions, inflow, calls := map[], map[], [];
    }

    method RegisterSession(c: SessionConfig, ownerSig: Signature, railguardSig: Signature) returns (r: Result<()>)
      requires Valid()
      modifies this`sessions
      ensures Matches(SpendMachine.RegisterSession(env, old(Current()), c, ownerSig, railguardSig), r, old(Current()), Current())
    {
      var checked := SpendMachine.ValidateConfig(c);
      if c.account != env.adapter {
        return Revert(InvalidAccount);
      }
      if checked.Revert? {
        return checked;
      }
      if c.nonceKey in sessions {
        return Revert(SessionAlreadyExists);
      }
      if ownerSig.length != 65 {
        return Revert(InvalidOwnerSignature);
      }
      if railguardSig.length != 65 {
        return Revert(InvalidRailguardSignature);
      }
      if ownerSig.signer == None {
        return Revert(InvalidSignature);
      }
      if ownerSig.signer != Some(env.owner) {
        return Revert(InvalidOwnerSignature);
      }
      if railguardSig.signer == None {
        return Revert(InvalidSignature);
      }
      if railguardSig.signer != Some(env.railguardSigner) {
        return Revert(InvalidRailguardSignature);
      }
      if c.sessionId != SessionId.DeriveFromConfig(env.chainId, env.adapter, c) {
        return Revert(InvalidSessionId);
      }
      sessions := sessions[c.nonceKey := c];
      return Ok(());
    }

    method RevokeSession(sender: Address, nonceKey: nat) returns (r: Result<()>)
      requires Valid()
      modifies this`sessions
      ensures Matches(SpendMachine.RevokeSession(env, old(Current()), sender, nonceKey), r, old(Current()), Current())
    {
      if sender != env.owner {
        return Revert(Unauthorized);
      }
      if nonceKey !in sessions {
        return Revert(SessionNotFound);
      }
      sessions := sessions[nonceKey := sessions[nonceKey].(revoked := true)];
      return Ok(());
    }

    method ReceiveTokens(token: Address, amount: nat) returns (r: Result<()>)
      requires Valid()
      modifies this`balances, this`inflow
      ensures Matches(SpendMachine.ReceiveTokens(old(Current()), token, amount), r, old(Current()), Current())
    {
      var balance := CheckedAdd(At(balances, token), amount);
      if balance.Revert? {
        return Revert(balance.error);
      }
      balances := balances[token := balance.value];
      inflow := inflow[token := At(inflow, token) + amount];
      return Ok(());
    }

    /** The token's side of one external call. */
    method TokenCall(nonceKey: nat, sessionId: Word, e: Execution) returns (r: Result<()>)
      requires Valid()
      modifies this`balances, this`calls
      ensures Completes(SpendMachine.TokenCall(env, old(Current()), nonceKey, sessionId, e), r, Current())
    {
      calls := calls + [ExternalCall(nonceKey, sessionId, e)];
      var args := ParseTransfer(e.callData);
      if args.Some? {
        var (recipient, amount) := args.value;
        var balance := At(balances, e.target);
        if balance < amount {
          return Revert(HookCallFailed);
        }
        if recipient != env.adapter {
          balances := balances[e.target := balance - amount];
        }
      }
      return Ok(());
    }

    method CallLeaf(now: nat, nonceKey: nat, sessionId: Word, e: Execution, leaf: LeafScript) returns (r: Result<()>)
      requires Valid()
      modifies this, hook
      ensures Valid()
      ensures Completes(SpendMachine.CallLeaf(env, now, old(Current()), nonceKey, sessionId, e, leaf), r, Current())
      decreases leaf
    {
      RunAll(now, leaf.before);
      r := TokenCall(nonceKey, sessionId, e);
      if r.Revert? {
        return;
      }
      RunAll(now, leaf.after);
      r := CheckReturn(leaf.outcome);
    }

    /** `_execute`'s loop over the frame's calls. */
    method ExecuteCalls(now: nat, nonceKey: nat, sessionId: Word, es: seq<Execution>, leaves: seq<LeafScript>) returns (r: Result<()>)
      requires Valid()
      modifies this, hook
      ensures Valid()
      ensures Completes(Calls(env, now, old(Current()), nonceKey, sessionId, es, leaves), r, Current())
      decreases leaves, 0
    {
      var i := 0;
      while i < |es|
        invariant 0 <= i <= |es| && Valid()
        invariant Calls(env, now, old(Current()), nonceKey, sessionId, es, leaves)
               == Calls(env, now, Current(), nonceKey, sessionId, es[i..], Drop(leaves, i))
      {
        assert es[i..][0] == es[i] && es[i..][1..] == es[i + 1..];
        if i < |leaves| {
          assert leaves[i..][0] == leaves[i] && leaves[i..][1..] == Drop(leaves, i + 1);
          r := CallLeaf(now, nonceKey, sessionId, es[i], leaves[i]);
        } else {
          r := TokenCall(nonceKey, sessionId, es[i]);
        }
        if r.Revert? {
          return;
        }
        i := i + 1;
      }
      assert es[i..] == [];
      return Ok(());
    }

    method ExecuteWithSession(now: nat, sender: Address, nonceKey: nat, mode: nat, data: Bytes, leaves: seq<LeafScript>) returns (r: Result<()>)
      requires Valid()
      modifies this, hook
      ensures Valid()
      ensures Matches(SpendMachine.ExecuteWithSession(env, now, old(Current()), sender, nonceKey, mode, data, leaves), r, old(Current()), Current())
      decreases leaves, 2
    {
      if nonceKey !in sessions {
        return Revert(SessionNotFound);
      }
      var s := sessions[nonceKey];
      var active := RequireActive(now, s);
      if active.Revert? {
        return active;
      }
      if sender != s.sessionKey && sender != env.owner {
        return Revert(InvalidSessionKey);
      }
      ghost var start := Current();
      FrameSplits(env, now, start, sender, nonceKey, mode, data, leaves);
      var ctx := hook.PreCheck(env.adapter, now, sessions, env.adapter, nonceKey, mode, data);
      if ctx.Revert? {
        return Revert(ctx.error);
      }
      var before := Snapshot();
      r := RunFrame(now, s.sessionId, nonceKey, mode, data, leaves, ctx.value);
      if r.Revert? {
        Restore(before);
      }
    }

    /** The part of a frame after `preCheck`; if it fails, the caller restores the state. */
    method RunFrame(now: nat, sessionId: Word, nonceKey: nat, mode: nat, data: Bytes, leaves: seq<LeafScript>, ctx: HookContext) returns (r: Result<()>)
      requires Valid()
      modifies this, hook
      ensures Valid()
      ensures Completes(FrameAfterPreCheck(env, now, old(Current()), sessionId, nonceKey, mode, data, leaves, ctx), r, Current())
      decreases leaves, 1
    {
      hide PreCheck, PostCheck;
      var es := DecodeFrame(env, mode, data);
      if es.Revert? {
        return Revert(es.error);
      }
      r := ExecuteCalls(now, nonceKey, sessionId, es.value, leaves);
      if r.Ok? {
        r := hook.PostCheck(env.adapter, ctx);
      }
    }

    method Do(now: nat, a: Action) returns (r: Result<()>)
      requires Valid()
      modifies this, hook
      ensures Valid()
      ensures Matches(SpendMachine.Do(env, now, old(Current()), a), r, old(Current()), Current())
      decreases a
    {
      match a
      case Register(c, ownerSig, railguardSig) => r := RegisterSession(c, ownerSig, railguardSig);
      case Revoke(sender, nonceKey) => r := RevokeSession(sender, nonceKey);
      case Execute(sender, nonceKey, mode, data, leaves) => r := ExecuteWithSession(now, sender, nonceKey, mode, data, leaves);
      case Deposit(token, amount) => r := ReceiveTokens(token, amount);
    }

    /** What a callback does to the adapter: its actions in turn, each one succeeding or undone. */
    method RunAll(now: nat, actions: seq<Action>)
      requires Valid()
      modifies this, hook
      ensures Valid()
      ensures Current() == SpendMachine.RunAll(env, now, old(Current()), actions)
      decreases actions
    {
      var i := 0;
      while i < |actions|
        invariant 0 <= i <= |actions| && Valid()
        invariant SpendMachine.RunAll(env, now, old(Current()), actions) == SpendMachine.RunAll(env, now, Current(), actions[i..])
      {
        assert actions[i..][0] == actions[i] && actions[i..][1..] == actions[i + 1..];
        var _ := Do(now, actions[i]);
        i := i + 1;
      }
      assert actions[i..] == [];
    }

    method Snapshot() returns (w: World)
      ensures w == Current()
    {
      w := World(sessions, HookState(hook.sessionSpend, hook.usedExecutions, hook.sessionExecutionSeq, hook.events), balances, inflow, calls);
    }

    /** Undoes every storage change since `w` was taken. */
    method Restore(w: World)
      requires Valid()
      modifies this, hook
      ensures Valid() && Current() == w
    {
      sessions, balances, inflow, calls := w.sessions, w.balances, w.inflow, w.calls;
      hook.sessionSpend, hook.usedExecutions := w.hook.spend, w.hook.used;
      hook.sessionExecutionSeq, hook.events := w.hook.seqs, w.hook.events;
    }
  }

  function Drop<T>(s: seq<T>, n: nat): seq<T> {
    if n <= |s| then s[n..] else []
  }

  /** `postCheck` after the calls of a frame. */
  function FrameAfterPreCheck(env: Env, now: nat, w: World, sessionId: Word, nonceKey: nat, mode: nat, data: Bytes, leaves: seq<LeafScript>, ctx: HookContext): Result<World> {
    var es :- DecodeFrame(env, mode, data);
    var w1 :- Calls(env, now, w, nonceKey, sessionId, es, leaves);
    var h :- SpendMachine.PostCheck(w1.hook, ctx);
    Ok(w1.(hook := h))
  }

  lemma FrameSplits(env: Env, now: nat, w: World, sender: Address, nonceKey: nat, mode: nat, data: Bytes, leaves: seq<LeafScript>)
    requires nonceKey in w.sessions && RequireActive(now, w.sessions[nonceKey]).Ok?
    requires sender == w.sessions[nonceKey].sessionKey || sender == env.owner
    ensures SpendMachine.ExecuteWithSession(env, now, w, sender, nonceKey, mode, data, leaves)
         == match SpendMachine.PreCheck(env, now, w.hook, w.sessions, env.adapter, nonceKey, mode, data)
            case Revert(e) => Revert(e)
            case Ok(ctx) => FrameAfterPreCheck(env, now, w, w.sessions[nonceKey].sessionId, nonceKey, mode, data, leaves, ctx)
  {
    hide SpendMachine.PreCheck, SpendMachine.PostCheck, DecodeFrame, Calls;
  }

  /** A call did what the specification says: the new state on success, the old one on failure. */
  predicate Matches(spec: Result<World>, r: Result<()>, before: World, after: World) {
    match spec
    case Ok(w) => r.Ok? && after == w
    case Revert(e) => r == Revert(e) && after == before
  }

  /** Like `Matches`, for the inside of a frame, whose caller undoes a failure. */
  predicate Completes(spec: Result<World>, r: Result<()>, after: World) {
    match spec
    case Ok(w) => r.Ok? && after == w
    case Revert(e) => r == Revert(e)
  }
}
