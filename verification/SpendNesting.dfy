/** A run with nested frames of one session, where its sequence number falls behind and a fresh frame is rejected. */
module SpendNesting {
  import opened Basics
  import opened Words
  import opened SessionTypes
  import opened ExecutionDecoder
  import opened SessionId
  import opened SpendMachine
  import opened SpendInvariants
  import opened SpendSafety
  import opened SpendTheorems

  const DEMO_ENV: Env := Env(1, 2, 3, 4, 5, (_: Bytes) => None)
  const DEMO_NOW: nat := 7
  const DEMO_TOKEN: Address := 10
  const DEMO_RECIPIENT: Address := 11

  function DemoLane(): SessionConfig {
    var c := SessionConfig(Num(0), Num(0), 3, 6, DEMO_TOKEN, DEMO_TOKEN, DEMO_RECIPIENT, TRANSFER_SELECTOR, 0, 100, 1000, 0, 20, false, false);
    c.(sessionId := DeriveFromConfig(DEMO_ENV.chainId, DEMO_ENV.adapter, c))
  }

  function DemoWorld(): World {
    Genesis(map[DEMO_TOKEN := 1000]).(sessions := map[0 := DemoLane()])
  }

  /** The single-call frame that transfers `amount` on the demonstration lane. */
  function DemoFrame(amount: nat): Bytes
    requires amount <= 100 < UINT256_LIMIT
  {
    EncodeSingle(DEMO_TOKEN, 0, EncodeTransfer(DEMO_RECIPIENT, amount))
  }

  function DemoExecute(amount: nat, leaves: seq<LeafScript>): Action
    requires amount <= 100 < UINT256_LIMIT
  {
    Execute(DEMO_ENV.owner, 0, CALLTYPE_SINGLE, DemoFrame(amount), leaves)
  }

  function DemoDigest(amount: nat, executionSeq: nat): Word
    requires amount <= 100 < UINT256_LIMIT
  {
    ExecutionDigest(DEMO_ENV, DEMO_ENV.adapter, DemoLane().sessionId, 0, CALLTYPE_SINGLE, DemoFrame(amount), executionSeq)
  }

  lemma UintIsWide()
    ensures 1000000 < UINT256_LIMIT
  {
    Pow256Grows(3, WORD_BYTES);
    assert Pow256(3) == 16777216;
  }

  function DemoExecution(amount: nat): Execution
    requires amount <= 100 < UINT256_LIMIT
  {
    Execution(DEMO_TOKEN, 0, EncodeTransfer(DEMO_RECIPIENT, amount))
  }

  lemma DemoFrameDecodes(amount: nat)
    requires amount <= 100 < UINT256_LIMIT
    ensures DecodeSingle(DemoFrame(amount)) == Ok(DemoExecution(amount))
    ensures ParseTransfer(DemoExecution(amount).callData) == Some((DEMO_RECIPIENT, amount))
  {
    var callData := EncodeTransfer(DEMO_RECIPIENT, amount);
    DecodeSingleInvertsEncode(DEMO_TOKEN, 0, callData);
    assert callData[..68] == callData;
    ParseTransferIff(callData, DEMO_RECIPIENT, amount);
  }

  lemma DemoFrameValid(amount: nat)
    requires amount <= 100 < UINT256_LIMIT
    ensures ValidateFrame(DEMO_ENV, DemoLane(), DEMO_ENV.adapter, CALLTYPE_SINGLE, DemoFrame(amount)) == Ok(amount)
  {
    DemoFrameDecodes(amount);
    ValidateLeavesIff(DemoLane(), DEMO_ENV.adapter, [DemoExecution(amount)], 0, amount);
  }

  /** A demonstration world after some frames: `seq` and `count` for the lane, and room in cap and balance. */
  predicate DemoState(w: World, number: nat, count: nat, spent: nat) {
    && w.sessions == map[0 := DemoLane()]
    && NextSeq(DEMO_ENV, w.hook, DemoLane().sessionId) == number
    && EventCount(w.hook.events, DemoLane().sessionId) == count
    && Spend(DEMO_ENV, w.hook, DemoLane().sessionId) == spent
    && At(w.balances, DEMO_TOKEN) == 1000 - spent
    && number <= 100 && spent <= 500
  }

  lemma DemoPreCheck(w: World, amount: nat, number: nat, count: nat, spent: nat) returns (ctx: HookContext)
    requires amount <= 100 < UINT256_LIMIT && DemoState(w, number, count, spent)
    requires (DEMO_ENV.adapter, DemoDigest(amount, number)) !in w.hook.used
    ensures PreCheck(DEMO_ENV, DEMO_NOW, w.hook, w.sessions, DEMO_ENV.adapter, 0, CALLTYPE_SINGLE, DemoFrame(amount)) == Ok(ctx)
    ensures ctx == HookContext(DEMO_ENV.adapter, DemoLane().sessionId, 0, DemoDigest(amount, number), number, amount, 1000, false)
  {
    UintIsWide();
    DemoFrameValid(amount);
    ctx := HookContext(DEMO_ENV.adapter, DemoLane().sessionId, 0, DemoDigest(amount, number), number, amount, 1000, false);
  }

  lemma DemoPostCheck(w: World, ctx: HookContext, number: nat, count: nat, spent: nat) returns (w': World)
    requires DemoState(w, number, count, spent) && 100 < UINT256_LIMIT
    requires ctx.account == DEMO_ENV.adapter && ctx.sessionId == DemoLane().sessionId && ctx.maxTotalSpend == 1000 && !ctx.applied
    requires ctx.frameSpend <= 100 && ctx.executionSeq <= 99 && spent <= 400
    requires (DEMO_ENV.adapter, ctx.digest) !in w.hook.used
    ensures PostCheck(w.hook, ctx).Ok? && w' == w.(hook := PostCheck(w.hook, ctx).value)
    ensures NextSeq(DEMO_ENV, w'.hook, ctx.sessionId) == ctx.executionSeq + 1
    ensures EventCount(w'.hook.events, ctx.sessionId) == count + 1
    ensures Spend(DEMO_ENV, w'.hook, ctx.sessionId) == spent + ctx.frameSpend
    ensures w'.hook.used == w.hook.used + {(DEMO_ENV.adapter, ctx.digest)}
  {
    UintIsWide();
    PostCheckCommits(DEMO_ENV, w.hook, ctx);
    w' := w.(hook := PostCheck(w.hook, ctx).value);
    AppendEvent(w.hook.events, w'.hook.events[|w.hook.events|], ctx.sessionId);
  }

  lemma DemoTokenCall(w: World, amount: nat, number: nat, count: nat, spent: nat) returns (w': World)
    requires amount <= 100 < UINT256_LIMIT && DemoState(w, number, count, spent)
    ensures TokenCall(DEMO_ENV, w, 0, DemoLane().sessionId, DemoExecution(amount)) == Ok(w')
    ensures w'.sessions == w.sessions && w'.hook == w.hook && At(w'.balances, DEMO_TOKEN) == 1000 - spent - amount
  {
    DemoFrameDecodes(amount);
    w' := TokenCall(DEMO_ENV, w, 0, DemoLane().sessionId, DemoExecution(amount)).value;
  }

  lemma DemoCalls(w: World, w1: World, amount: nat)
    requires amount <= 100 < UINT256_LIMIT
    requires TokenCall(DEMO_ENV, w, 0, DemoLane().sessionId, DemoExecution(amount)) == Ok(w1)
    ensures Calls(DEMO_ENV, DEMO_NOW, w, 0, DemoLane().sessionId, [DemoExecution(amount)], []) == Ok(w1)
  {
    hide TokenCall, DemoLane;
    assert [DemoExecution(amount)][1..] == [];
    assert Calls(DEMO_ENV, DEMO_NOW, w1, 0, DemoLane().sessionId, [], []) == Ok(w1);
  }

  /** The owner's frame on the demonstration lane, put together from its parts. */
  lemma DemoFrameParts(w: World, amount: nat, leaves: seq<LeafScript>, ctx: HookContext, w1: World, w': World)
    requires amount <= 100 < UINT256_LIMIT && w.sessions == map[0 := DemoLane()]
    requires PreCheck(DEMO_ENV, DEMO_NOW, w.hook, w.sessions, DEMO_ENV.adapter, 0, CALLTYPE_SINGLE, DemoFrame(amount)) == Ok(ctx)
    requires Calls(DEMO_ENV, DEMO_NOW, w, 0, DemoLane().sessionId, [DemoExecution(amount)], leaves) == Ok(w1)
    requires PostCheck(w1.hook, ctx) == Ok(w'.hook) && w' == w1.(hook := w'.hook)
    ensures Do(DEMO_ENV, DEMO_NOW, w, DemoExecute(amount, leaves)) == Ok(w')
  {
    hide PreCheck, PostCheck, Calls, DemoFrame;
    DemoFrameDecodes(amount);
  }

  /** On the demonstration lane, a frame with an unused digest commits. */
  lemma DemoQuietFrame(w: World, amount: nat, number: nat, count: nat, spent: nat) returns (w': World)
    requires amount <= 100 < UINT256_LIMIT && DemoState(w, number, count, spent) && number <= 99 && spent <= 400
    requires (DEMO_ENV.adapter, DemoDigest(amount, number)) !in w.hook.used
    ensures Do(DEMO_ENV, DEMO_NOW, w, DemoExecute(amount, [])) == Ok(w')
    ensures DemoState(w', number + 1, count + 1, spent + amount)
    ensures w'.hook.used == w.hook.used + {(DEMO_ENV.adapter, DemoDigest(amount, number))}
  {
    hide PreCheck, PostCheck, TokenCall, Calls, ExecutionDigest, DemoFrame, Do;
    var ctx := DemoPreCheck(w, amount, number, count, spent);
    var w1 := DemoTokenCall(w, amount, number, count, spent);
    var settled := DemoPostCheck(w, ctx, number, count, spent);
    w' := w1.(hook := settled.hook);
    DemoCalls(w, w1, amount);
    DemoFrameParts(w, amount, [], ctx, w1, w');
  }

  lemma DemoFramesDiffer()
    requires 100 < UINT256_LIMIT
    ensures DemoFrame(1) != DemoFrame(2)
  {
    DemoFrameDecodes(1);
    DemoFrameDecodes(2);
  }

  /** Two frames of amount 2 commit while a frame of amount 1 of the same session makes its call. */
  function DemoNested(): Action
    requires 100 < UINT256_LIMIT
  {
    DemoExecute(1, [LeafScript([DemoExecute(2, []), DemoExecute(2, [])], [], ReturnsTrue)])
  }

  lemma DemoDigestsDiffer()
    requires 100 < UINT256_LIMIT
    ensures DemoDigest(2, 0) != DemoDigest(2, 1)
    ensures DemoDigest(1, 0) != DemoDigest(2, 0)
    ensures DemoDigest(1, 0) != DemoDigest(2, 1)
  {
    hide DemoLane, DemoFrame;
    DemoFramesDiffer();
    assert DemoDigest(2, 0).preimage[5] != DemoDigest(2, 1).preimage[5];
    assert DemoDigest(1, 0).preimage[7] != DemoDigest(2, 0).preimage[7];
    assert DemoDigest(1, 0).preimage[7] != DemoDigest(2, 1).preimage[7];
  }

  lemma DemoNestedFrames() returns (w2: World, w4: World)
    requires 100 < UINT256_LIMIT
    ensures RunAll(DEMO_ENV, DEMO_NOW, DemoWorld(), [DemoExecute(2, []), DemoExecute(2, [])]) == w2
    ensures NextSeq(DEMO_ENV, w2.hook, DemoLane().sessionId) == 2
    ensures Do(DEMO_ENV, DEMO_NOW, DemoWorld(), DemoNested()) == Ok(w4)
    ensures w4.sessions == DemoWorld().sessions
    ensures NextSeq(DEMO_ENV, w4.hook, DemoLane().sessionId) == 1
    ensures EventCount(w4.hook.events, DemoLane().sessionId) == 3
    ensures (DEMO_ENV.adapter, DemoDigest(2, 1)) in w4.hook.used
  {
    hide PreCheck, PostCheck, TokenCall, DemoFrame, RunAll, DemoDigest, Do;
    DemoDigestsDiffer();
    var w0 := DemoWorld();
    var w1 := DemoQuietFrame(w0, 2, 0, 0, 0);
    w2 := DemoQuietFrame(w1, 2, 1, 1, 2);
    DemoInside(w0, w1, w2);
    var outer := DemoPreCheck(w0, 1, 0, 0, 0);
    var w3 := DemoTokenCall(w2, 1, 2, 2, 4);
    var settled := DemoPostCheck(w3.(balances := w2.balances), outer, 2, 2, 4);
    w4 := w3.(hook := settled.hook);
    DemoOuterFrame(w0, w2, w3, w4, outer);
  }

  lemma DemoReplayed(w: World)
    requires 100 < UINT256_LIMIT && w.sessions == DemoWorld().sessions
    requires NextSeq(DEMO_ENV, w.hook, DemoLane().sessionId) == 1 && (DEMO_ENV.adapter, DemoDigest(2, 1)) in w.hook.used
    ensures Do(DEMO_ENV, DEMO_NOW, w, DemoExecute(2, [])) == Revert(ExecutionReplayed)
  {
  }

  /** The lane's registration, under both signatures. */
  function DemoRegistration(): seq<Tx> {
    [Tx(DEMO_NOW, Register(DemoLane(), Signature(65, Some(DEMO_ENV.owner)), Signature(65, Some(DEMO_ENV.railguardSigner))))]
  }

  lemma DemoRegistered()
    ensures RunTxs(DEMO_ENV, Genesis(map[DEMO_TOKEN := 1000]), DemoRegistration()) == DemoWorld()
  {
    hide DeriveSessionId;
    var w, txs := Genesis(map[DEMO_TOKEN := 1000]), DemoRegistration();
    assert txs[..0] == [] && RunTxs(DEMO_ENV, w, []) == w;
    assert DeriveFromConfig(DEMO_ENV.chainId, DEMO_ENV.adapter, DemoLane()) == DemoLane().sessionId;
  }

  /** The nested run, from deployment on: one lane is registered, three executions commit, its sequence number goes 0, 1, 2
      and then back to 1, and a further frame of amount 2 is rejected as a replay of the second inner one. */
  lemma NestedRunMovesSequenceBack()
    ensures 100 < UINT256_LIMIT
    ensures var id := DemoLane().sessionId;
            var start := RunTxs(DEMO_ENV, Genesis(map[DEMO_TOKEN := 1000]), DemoRegistration());
            var inside := RunAll(DEMO_ENV, DEMO_NOW, start, [DemoExecute(2, []), DemoExecute(2, [])]);
            var r := Do(DEMO_ENV, DEMO_NOW, start, DemoNested());
            && NextSeq(DEMO_ENV, inside.hook, id) == 2
            && r.Ok?
            && NextSeq(DEMO_ENV, r.value.hook, id) == 1
            && EventCount(r.value.hook.events, id) == 3
            && Do(DEMO_ENV, DEMO_NOW, r.value, DemoExecute(2, [])) == Revert(ExecutionReplayed)
  {
    hide RunAll, Do, Genesis, DemoRegistration, RunTxs, DemoNested;
    UintIsWide();
    DemoRegistered();
    var w2, w4 := DemoNestedFrames();
    DemoReplayed(w4);
  }

  lemma DemoInside(w0: World, w1: World, w2: World)
    requires 100 < UINT256_LIMIT
    requires Do(DEMO_ENV, DEMO_NOW, w0, DemoExecute(2, [])) == Ok(w1) && Do(DEMO_ENV, DEMO_NOW, w1, DemoExecute(2, [])) == Ok(w2)
    ensures RunAll(DEMO_ENV, DEMO_NOW, w0, [DemoExecute(2, []), DemoExecute(2, [])]) == w2
  {
    var b := DemoExecute(2, []);
    assert [b, b][1..] == [b] && [b][1..] == [];
    assert RunAll(DEMO_ENV, DEMO_NOW, w2, []) == w2;
    assert RunAll(DEMO_ENV, DEMO_NOW, w1, [b]) == w2;
  }

  lemma DemoOuterFrame(w0: World, w2: World, w3: World, w4: World, outer: HookContext)
    requires 100 < UINT256_LIMIT && w0 == DemoWorld()
    requires PreCheck(DEMO_ENV, DEMO_NOW, w0.hook, w0.sessions, DEMO_ENV.adapter, 0, CALLTYPE_SINGLE, DemoFrame(1)) == Ok(outer)
    requires RunAll(DEMO_ENV, DEMO_NOW, w0, [DemoExecute(2, []), DemoExecute(2, [])]) == w2
    requires TokenCall(DEMO_ENV, w2, 0, DemoLane().sessionId, DemoExecution(1)) == Ok(w3)
    requires PostCheck(w3.hook, outer) == Ok(w4.hook) && w4 == w3.(hook := w4.hook)
    ensures Do(DEMO_ENV, DEMO_NOW, w0, DemoNested()) == Ok(w4)
  {
    hide PreCheck, PostCheck, ExecutionDigest, DemoFrame, TokenCall, Do, DemoLane;
    var id, e := DemoLane().sessionId, DemoExecution(1);
    var leaf := LeafScript([DemoExecute(2, []), DemoExecute(2, [])], [], ReturnsTrue);
    assert RunAll(DEMO_ENV, DEMO_NOW, w3, []) == w3;
    assert CallLeaf(DEMO_ENV, DEMO_NOW, w0, 0, id, e, leaf) == Ok(w3);
    assert [e][1..] == [] && [leaf][1..] == [];
    assert Calls(DEMO_ENV, DEMO_NOW, w3, 0, id, [], []) == Ok(w3);
    assert Calls(DEMO_ENV, DEMO_NOW, w0, 0, id, [e], [leaf]) == Ok(w3);
    DemoFrameParts(w0, 1, [leaf], outer, w3, w4);
  }
}
