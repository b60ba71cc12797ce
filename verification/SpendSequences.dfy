/** Sequence numbers and the replay guard, lane by lane: a lane's number lags behind its executions by exactly the frames
    of the lane that committed inside another frame of the lane. */
module SpendSequences {
  import opened Basics
  import opened Words
  import opened SessionTypes
  import opened ExecutionDecoder
  import opened SessionId
  import opened SpendMachine
  import opened SpendInvariants
  import opened SpendSafety
  import opened SpendTheorems
  import opened SpendProvenance

  // ---------- Walking a script ----------

  /** Of one lane: the frames that commit in a script, and how many of them do so inside another frame of the lane. */
  datatype Walk = Walk(commits: nat, lag: nat)

  function Join(first: Walk, next: Walk): Walk {
    Walk(first.commits + next.commits, first.lag + next.lag)
  }

  const STILL: Walk := Walk(0, 0)

  /** What an action does to lane `k`; an action that reverts takes everything inside it back. */
  function WalkDo(env: Env, now: nat, w: World, a: Action, k: nat): Walk
    decreases a, 0
  {
    if !a.Execute? || Do(env, now, w, a).Revert? || a.nonceKey !in w.sessions || DecodeFrame(env, a.mode, a.data).Revert? then STILL
    else
      var inside := WalkCalls(env, now, w, a.nonceKey, w.sessions[a.nonceKey].sessionId, DecodeFrame(env, a.mode, a.data).value, a.leaves, k);
      if a.nonceKey == k then Walk(inside.commits + 1, inside.commits) else inside
  }

  function WalkCalls(env: Env, now: nat, w: World, nonceKey: nat, sessionId: Word, es: seq<Execution>, leaves: seq<LeafScript>, k: nat): Walk
    decreases leaves
  {
    if es == [] || leaves == [] then STILL
    else
      match TokenCall(env, RunAll(env, now, w, leaves[0].before), nonceKey, sessionId, es[0])
      case Revert(_) => STILL
      case Ok(w2) =>
        var w3 := RunAll(env, now, w2, leaves[0].after);
        Join(Join(WalkAll(env, now, w, leaves[0].before, k), WalkAll(env, now, w2, leaves[0].after, k)),
             WalkCalls(env, now, w3, nonceKey, sessionId, es[1..], leaves[1..], k))
  }

  function WalkAll(env: Env, now: nat, w: World, actions: seq<Action>, k: nat): Walk
    decreases actions
  {
    if actions == [] then STILL
    else Join(WalkDo(env, now, w, actions[0], k), WalkAll(env, now, Step(env, now, w, actions[0]), actions[1..], k))
  }

  function WalkTxs(env: Env, w: World, txs: seq<Tx>, k: nat): Walk {
    if txs == [] then STILL
    else
      var earlier, last := txs[..|txs| - 1], txs[|txs| - 1];
      Join(WalkTxs(env, w, earlier, k), WalkDo(env, last.now, RunTxs(env, w, earlier), last.action, k))
  }

  // ---------- What the walk says of the hook ----------

  /** The id was derived for nonce key `k`. */
  predicate OwnId(id: Word, k: nat) {
    id.Keccak? && |id.preimage| == 5 && id.preimage[3] == Num(k)
  }

  /** If the lane is registered, its id is `id`. */
  predicate LaneIs(k: nat, id: Word, sessions: map<nat, SessionConfig>) {
    k in sessions ==> sessions[k].sessionId == id
  }

  function UsedOn(h: HookState, id: Word): set<(Address, Word)> {
    set u | u in h.used && u.1.Keccak? && |u.1.preimage| == 8 && u.1.preimage[3] == id
  }

  /** The session's used digests were made with numbers it has passed. */
  predicate UsedBelow(env: Env, h: HookState, id: Word) {
    forall u | u in UsedOn(h, id) :: u.1.preimage[5].Num? && u.1.preimage[5].n < NextSeq(env, h, id)
  }

  /** How far a session's number is behind the count of its executions. */
  function Lag(env: Env, h: HookState, id: Word): int {
    EventCount(h.events, id) - NextSeq(env, h, id)
  }

  predicate Tracks(env: Env, id: Word, h: HookState, h': HookState, walk: Walk) {
    && walk.lag <= walk.commits
    && EventCount(h'.events, id) == EventCount(h.events, id) + walk.commits
    && Lag(env, h', id) == Lag(env, h, id) + walk.lag
    && (walk.commits == 0 ==> UsedOn(h', id) == UsedOn(h, id))
    && (walk.lag == 0 && UsedBelow(env, h, id) ==> UsedBelow(env, h', id))
  }

  lemma {:induction false} TracksChain(env: Env, id: Word, h: HookState, h1: HookState, h2: HookState, walk1: Walk, walk2: Walk)
    requires Tracks(env, id, h, h1, walk1) && Tracks(env, id, h1, h2, walk2)
    ensures Tracks(env, id, h, h2, Join(walk1, walk2))
  {
    hide EventCount, UsedOn, UsedBelow, NextSeq;
  }

  lemma TracksStill(env: Env, id: Word, h: HookState)
    ensures Tracks(env, id, h, h, STILL)
  {
  }

  lemma EarlierLane(a: map<nat, SessionConfig>, b: map<nat, SessionConfig>, k: nat, id: Word)
    requires LanesKept(a, b) && LaneIs(k, id, b)
    ensures LaneIs(k, id, a)
  {
  }

  /** The commit of a frame: its own session's number is set from where it stood before the calls. */
  lemma CommitTracks(env: Env, id: Word, h: HookState, h1: HookState, ctx: HookContext, h': HookState, inside: Walk, mode: nat, data: Bytes)
    requires Tracks(env, id, h, h1, inside) && Commits(env, h1, ctx, h')
    requires ctx.executionSeq == NextSeq(env, h, ctx.sessionId)
    requires ctx.digest == ExecutionDigest(env, env.adapter, ctx.sessionId, ctx.nonceKey, mode, data, ctx.executionSeq)
    ensures Tracks(env, id, h, h', if ctx.sessionId == id then Walk(inside.commits + 1, inside.commits) else inside)
  {
    AppendEvent(h1.events, h'.events[|h1.events|], id);
    var d := (env.adapter, ctx.digest);
    assert d.1.preimage[3] == ctx.sessionId && d.1.preimage[5] == Num(ctx.executionSeq);
    assert UsedOn(h', id) == if ctx.sessionId == id then UsedOn(h1, id) + {d} else UsedOn(h1, id);
    assert NextSeq(env, h', id) == if id == ctx.sessionId then ctx.executionSeq + 1 else NextSeq(env, h1, id);
  }

  // ---------- Over every call tree ----------

  lemma LaneIdIsOwn(env: Env, w: World, k: nat)
    requires Inv(env, w) && k in w.sessions
    ensures OwnId(w.sessions[k].sessionId, k)
  {
    assert LaneOk(env, k, w.sessions[k]);
  }

  lemma OtherActionKeepsHook(env: Env, now: nat, w: World, a: Action)
    requires !a.Execute? && Do(env, now, w, a).Ok?
    ensures Do(env, now, w, a).value.hook == w.hook
  {
  }

  lemma {:induction false} DoTracks(env: Env, now: nat, w: World, a: Action, k: nat, id: Word)
    requires Inv(env, w) && OwnId(id, k) && Do(env, now, w, a).Ok? && LaneIs(k, id, Do(env, now, w, a).value.sessions)
    ensures Tracks(env, id, w.hook, Do(env, now, w, a).value.hook, WalkDo(env, now, w, a, k))
    decreases a, 1
  {
    hide Inv, Tracks, OwnId, LaneIs;
    if !a.Execute? {
      OtherActionKeepsHook(env, now, w, a);
      TracksStill(env, id, w.hook);
    } else {
      FrameTracks(env, now, w, a, k, id);
    }
  }

  lemma {:induction false} FrameTracks(env: Env, now: nat, w: World, a: Action, k: nat, id: Word)
    requires Inv(env, w) && OwnId(id, k) && a.Execute? && Do(env, now, w, a).Ok? && LaneIs(k, id, Do(env, now, w, a).value.sessions)
    ensures Tracks(env, id, w.hook, Do(env, now, w, a).value.hook, WalkDo(env, now, w, a, k))
    decreases a, 0
  {
    hide Inv, Tracks, WalkCalls, LaneIs, OwnId, DecodeFrame, ValidateFrame, ExecutionDigest;
    var ctx, es, w1 := ExecuteParts(env, now, w, a.sender, a.nonceKey, a.mode, a.data, a.leaves);
    var s := w.sessions[a.nonceKey];
    PreCheckContext(env, now, w, a.nonceKey, a.mode, a.data);
    FrameCallsTrack(env, now, w, a, k, id, w1);
    OwnLane(env, now, w, a, k, id, w1);
    var inside := WalkCalls(env, now, w, a.nonceKey, s.sessionId, es, a.leaves, k);
    CommitTracks(env, id, w.hook, w1.hook, ctx, Do(env, now, w, a).value.hook, inside, a.mode, a.data);
  }

  /** A frame is on lane `k` exactly when its session is `id`. */
  lemma OwnLane(env: Env, now: nat, w: World, a: Action, k: nat, id: Word, w1: World)
    requires Inv(env, w) && OwnId(id, k) && a.Execute? && a.nonceKey in w.sessions && LaneIs(k, id, w1.sessions)
    requires ValidateFrame(env, w.sessions[a.nonceKey], env.adapter, a.mode, a.data).Ok? && DecodeFrame(env, a.mode, a.data).Ok?
    requires Calls(env, now, w, a.nonceKey, w.sessions[a.nonceKey].sessionId, DecodeFrame(env, a.mode, a.data).value, a.leaves) == Ok(w1)
    ensures w.sessions[a.nonceKey].sessionId == id <==> a.nonceKey == k
  {
    var s := w.sessions[a.nonceKey];
    LaneIdIsOwn(env, w, a.nonceKey);
    hide Inv, Calls, ValidateFrame, DecodeFrame, LegitExecution;
    ValidatedIsExecuted(env, s, env.adapter, a.mode, a.data);
    CallsProgress(env, now, w, a.nonceKey, s.sessionId, DecodeFrame(env, a.mode, a.data).value, a.leaves);
    EarlierLane(w.sessions, w1.sessions, k, id);
  }

  lemma {:induction false} FrameCallsTrack(env: Env, now: nat, w: World, a: Action, k: nat, id: Word, w1: World)
    requires Inv(env, w) && OwnId(id, k) && a.Execute? && a.nonceKey in w.sessions && LaneIs(k, id, w1.sessions)
    requires ValidateFrame(env, w.sessions[a.nonceKey], env.adapter, a.mode, a.data).Ok?
    requires DecodeFrame(env, a.mode, a.data).Ok?
    requires Calls(env, now, w, a.nonceKey, w.sessions[a.nonceKey].sessionId, DecodeFrame(env, a.mode, a.data).value, a.leaves) == Ok(w1)
    ensures Tracks(env, id, w.hook, w1.hook,
                   WalkCalls(env, now, w, a.nonceKey, w.sessions[a.nonceKey].sessionId, DecodeFrame(env, a.mode, a.data).value, a.leaves, k))
    decreases a.leaves, 2
  {
    ValidatedIsExecuted(env, w.sessions[a.nonceKey], env.adapter, a.mode, a.data);
    CallsTrack(env, now, w, a.nonceKey, w.sessions[a.nonceKey].sessionId, DecodeFrame(env, a.mode, a.data).value, a.leaves, k, id);
  }

  lemma {:induction false} PlainCallsKeepHook(env: Env, now: nat, w: World, nonceKey: nat, sessionId: Word, es: seq<Execution>)
    requires Calls(env, now, w, nonceKey, sessionId, es, []).Ok?
    ensures Calls(env, now, w, nonceKey, sessionId, es, []).value.hook == w.hook
    decreases |es|
  {
    if es != [] {
      PlainCallsKeepHook(env, now, TokenCall(env, w, nonceKey, sessionId, es[0]).value, nonceKey, sessionId, es[1..]);
    }
  }

  lemma {:induction false} CallsTrack(env: Env, now: nat, w: World, nonceKey: nat, sessionId: Word, es: seq<Execution>, leaves: seq<LeafScript>, k: nat, id: Word)
    requires Inv(env, w) && nonceKey in w.sessions && w.sessions[nonceKey].sessionId == sessionId
    requires forall e | e in es :: LegitExecution(w.sessions[nonceKey], e)
    requires OwnId(id, k) && Calls(env, now, w, nonceKey, sessionId, es, leaves).Ok?
    requires LaneIs(k, id, Calls(env, now, w, nonceKey, sessionId, es, leaves).value.sessions)
    ensures Tracks(env, id, w.hook, Calls(env, now, w, nonceKey, sessionId, es, leaves).value.hook,
                   WalkCalls(env, now, w, nonceKey, sessionId, es, leaves, k))
    decreases leaves, 1
  {
    hide Inv, LegitExecution, TokenCall, RunAll, Tracks, OwnId, WalkAll;
    TracksStill(env, id, w.hook);
    if es != [] && leaves == [] {
      PlainCallsKeepHook(env, now, w, nonceKey, sessionId, es);
    } else if es != [] {
      var leaf := leaves[0];
      var w1 := RunAll(env, now, w, leaf.before);
      var w2 := TokenCall(env, w1, nonceKey, sessionId, es[0]).value;
      var w3 := RunAll(env, now, w2, leaf.after);
      assert CallLeaf(env, now, w, nonceKey, sessionId, es[0], leaf) == Ok(w3);
      AroundLeaf(env, now, w, nonceKey, sessionId, es, leaf);
      CallsProgress(env, now, w3, nonceKey, sessionId, es[1..], leaves[1..]);
      CallsTrack(env, now, w3, nonceKey, sessionId, es[1..], leaves[1..], k, id);
      EarlierLane(w3.sessions, Calls(env, now, w, nonceKey, sessionId, es, leaves).value.sessions, k, id);
      LeafTracks(env, now, w, nonceKey, sessionId, es[0], leaf, k, id);
      TracksChain(env, id, w.hook, w3.hook, Calls(env, now, w, nonceKey, sessionId, es, leaves).value.hook,
                  Join(WalkAll(env, now, w, leaf.before, k), WalkAll(env, now, w2, leaf.after, k)),
                  WalkCalls(env, now, w3, nonceKey, sessionId, es[1..], leaves[1..], k));
    }
  }

  lemma {:induction false} LeafTracks(env: Env, now: nat, w: World, nonceKey: nat, sessionId: Word, e: Execution, leaf: LeafScript, k: nat, id: Word)
    requires Inv(env, w) && OwnId(id, k)
    requires TokenCall(env, RunAll(env, now, w, leaf.before), nonceKey, sessionId, e).Ok?
    requires var w2 := TokenCall(env, RunAll(env, now, w, leaf.before), nonceKey, sessionId, e).value;
             Inv(env, w2) && LaneIs(k, id, RunAll(env, now, w2, leaf.after).sessions)
    ensures var w2 := TokenCall(env, RunAll(env, now, w, leaf.before), nonceKey, sessionId, e).value;
            Tracks(env, id, w.hook, RunAll(env, now, w2, leaf.after).hook,
                   Join(WalkAll(env, now, w, leaf.before, k), WalkAll(env, now, w2, leaf.after, k)))
    decreases leaf
  {
    hide Inv, RunAll, TokenCall, Tracks, OwnId, WalkAll;
    var w1 := RunAll(env, now, w, leaf.before);
    var w2 := TokenCall(env, w1, nonceKey, sessionId, e).value;
    TokenCallEffect(env, w1, nonceKey, sessionId, e);
    RunAllProgress(env, now, w2, leaf.after, id);
    EarlierLane(w2.sessions, RunAll(env, now, w2, leaf.after).sessions, k, id);
    AllTrack(env, now, w, leaf.before, k, id);
    AllTrack(env, now, w2, leaf.after, k, id);
    TracksChain(env, id, w.hook, w1.hook, RunAll(env, now, w2, leaf.after).hook,
                WalkAll(env, now, w, leaf.before, k), WalkAll(env, now, w2, leaf.after, k));
  }

  lemma {:induction false} AllTrack(env: Env, now: nat, w: World, actions: seq<Action>, k: nat, id: Word)
    requires Inv(env, w) && OwnId(id, k) && LaneIs(k, id, RunAll(env, now, w, actions).sessions)
    ensures Tracks(env, id, w.hook, RunAll(env, now, w, actions).hook, WalkAll(env, now, w, actions, k))
    decreases actions
  {
    hide Inv, Tracks, OwnId, WalkDo, Do;
    TracksStill(env, id, w.hook);
    if actions != [] {
      var w1 := Step(env, now, w, actions[0]);
      DoProgress(env, now, w, actions[0], id);
      RunAllProgress(env, now, w1, actions[1..], id);
      EarlierLane(w1.sessions, RunAll(env, now, w, actions).sessions, k, id);
      StepTracks(env, now, w, actions[0], k, id);
      AllTrack(env, now, w1, actions[1..], k, id);
      TracksChain(env, id, w.hook, w1.hook, RunAll(env, now, w, actions).hook,
                  WalkDo(env, now, w, actions[0], k), WalkAll(env, now, w1, actions[1..], k));
    }
  }

  lemma {:induction false} StepTracks(env: Env, now: nat, w: World, a: Action, k: nat, id: Word)
    requires Inv(env, w) && OwnId(id, k) && LaneIs(k, id, Step(env, now, w, a).sessions)
    ensures Tracks(env, id, w.hook, Step(env, now, w, a).hook, WalkDo(env, now, w, a, k))
    decreases a, 2
  {
    hide Tracks;
    if Do(env, now, w, a).Ok? {
      DoTracks(env, now, w, a, k, id);
    } else {
      TracksStill(env, id, w.hook);
    }
  }

  lemma {:induction false} RunTracks(env: Env, w: World, txs: seq<Tx>, k: nat, id: Word)
    requires Inv(env, w) && OwnId(id, k) && LaneIs(k, id, RunTxs(env, w, txs).sessions)
    ensures Tracks(env, id, w.hook, RunTxs(env, w, txs).hook, WalkTxs(env, w, txs, k))
  {
    hide Inv, Tracks, OwnId, WalkDo, Do;
    TracksStill(env, id, w.hook);
    if txs != [] {
      var earlier, last := txs[..|txs| - 1], txs[|txs| - 1];
      var w1 := RunTxs(env, w, earlier);
      RunProgress(env, w, earlier, id);
      DoProgress(env, last.now, w1, last.action, id);
      EarlierStep(env, last.now, w1, last.action, k, id);
      RunTracks(env, w, earlier, k, id);
      StepTracks(env, last.now, w1, last.action, k, id);
      TracksChain(env, id, w.hook, w1.hook, RunTxs(env, w, txs).hook, WalkTxs(env, w, earlier, k), WalkDo(env, last.now, w1, last.action, k));
    }
  }

  lemma EarlierStep(env: Env, now: nat, w: World, a: Action, k: nat, id: Word)
    requires Do(env, now, w, a).Ok? ==> Progress(env, w, Do(env, now, w, a).value, id, 0)
    requires LaneIs(k, id, Step(env, now, w, a).sessions)
    ensures LaneIs(k, id, w.sessions)
  {
  }

  // ---------- Scripts that never nest a lane ----------

  function ExecutesOn(k: nat): Property {
    (a: Action) => a.Execute? && a.nonceKey == k
  }

  /** A frame of the lane whose script holds, at any depth, another frame of the lane. */
  function NestsOn(k: nat): Property {
    (a: Action) => a.Execute? && a.nonceKey == k && LeavesContain(a.leaves, ExecutesOn(k))
  }

  /** The properties a script may be free of, with what its walk then is. */
  predicate FreeWalk(strict: bool, walk: Walk) {
    walk.lag == 0 && (strict ==> walk.commits == 0)
  }

  function Barred(k: nat, strict: bool): Property {
    if strict then ExecutesOn(k) else NestsOn(k)
  }

  lemma {:induction false} FreeDo(env: Env, now: nat, w: World, a: Action, k: nat, strict: bool)
    requires !Contains(a, Barred(k, strict))
    ensures FreeWalk(strict, WalkDo(env, now, w, a, k))
    decreases a, 0
  {
    hide Do;
    if a.Execute? && a.nonceKey in w.sessions && DecodeFrame(env, a.mode, a.data).Ok? {
      var s, es := w.sessions[a.nonceKey], DecodeFrame(env, a.mode, a.data).value;
      if a.nonceKey == k && !strict {
        assert !NestsOn(k)(a);
        FreeCalls(env, now, w, k, s.sessionId, es, a.leaves, k, true);
      } else {
        FreeCalls(env, now, w, a.nonceKey, s.sessionId, es, a.leaves, k, strict);
      }
    }
  }

  lemma {:induction false} NoLagThen(first: Walk, second: Walk)
    requires first.lag == 0 && second.lag == 0
    ensures Join(first, second).lag == 0
  {
  }

  lemma {:induction false} NoCommitsThen(first: Walk, second: Walk)
    requires first.commits == 0 && second.commits == 0
    ensures Join(first, second).commits == 0
  {
  }

  lemma {:induction false} FreeThen(strict: bool, first: Walk, second: Walk)
    requires FreeWalk(strict, first) && FreeWalk(strict, second)
    ensures FreeWalk(strict, Join(first, second))
  {
    hide Join;
    NoLagThen(first, second);
    if strict {
      NoCommitsThen(first, second);
    }
  }

  lemma FreeLeaf(leaves: seq<LeafScript>, p: Property)
    requires leaves != [] && !LeavesContain(leaves, p)
    ensures !AnyContains(leaves[0].before, p) && !AnyContains(leaves[0].after, p) && !LeavesContain(leaves[1..], p)
  {
  }

  lemma {:induction false} FreeCalls(env: Env, now: nat, w: World, nonceKey: nat, sessionId: Word, es: seq<Execution>, leaves: seq<LeafScript>, k: nat, strict: bool)
    requires !LeavesContain(leaves, Barred(k, strict))
    ensures FreeWalk(strict, WalkCalls(env, now, w, nonceKey, sessionId, es, leaves, k))
    decreases leaves
  {
    assert FreeWalk(strict, STILL);
    hide TokenCall, RunAll, WalkAll, Barred, LeavesContain, AnyContains, FreeWalk;
    if es != [] && leaves != [] {
      FreeLeaf(leaves, Barred(k, strict));
      var w1 := RunAll(env, now, w, leaves[0].before);
      if TokenCall(env, w1, nonceKey, sessionId, es[0]).Ok? {
        var w2 := TokenCall(env, w1, nonceKey, sessionId, es[0]).value;
        FreeAll(env, now, w, leaves[0].before, k, strict);
        FreeAll(env, now, w2, leaves[0].after, k, strict);
        var w3 := RunAll(env, now, w2, leaves[0].after);
        FreeCalls(env, now, w3, nonceKey, sessionId, es[1..], leaves[1..], k, strict);
        FreeThen(strict, WalkAll(env, now, w, leaves[0].before, k), WalkAll(env, now, w2, leaves[0].after, k));
        FreeThen(strict, Join(WalkAll(env, now, w, leaves[0].before, k), WalkAll(env, now, w2, leaves[0].after, k)),
                 WalkCalls(env, now, w3, nonceKey, sessionId, es[1..], leaves[1..], k));
      } else {
        assert WalkCalls(env, now, w, nonceKey, sessionId, es, leaves, k) == STILL;
      }
    }
  }

  lemma {:induction false} FreeAll(env: Env, now: nat, w: World, actions: seq<Action>, k: nat, strict: bool)
    requires !AnyContains(actions, Barred(k, strict))
    ensures FreeWalk(strict, WalkAll(env, now, w, actions, k))
    decreases actions
  {
    hide WalkDo, Step, Barred, Contains;
    if actions != [] {
      var w1 := Step(env, now, w, actions[0]);
      FreeDo(env, now, w, actions[0], k, strict);
      FreeAll(env, now, w1, actions[1..], k, strict);
      FreeThen(strict, WalkDo(env, now, w, actions[0], k), WalkAll(env, now, w1, actions[1..], k));
    }
  }

  lemma {:induction false} FreeTxs(env: Env, w: World, txs: seq<Tx>, k: nat)
    requires forall tx | tx in txs :: !Contains(tx.action, NestsOn(k))
    ensures WalkTxs(env, w, txs, k).lag == 0
  {
    hide WalkDo;
    if txs != [] {
      FreeTxs(env, w, txs[..|txs| - 1], k);
      FreeDo(env, txs[|txs| - 1].now, RunTxs(env, w, txs[..|txs| - 1]), txs[|txs| - 1].action, k, false);
    }
  }

  // ---------- Exactness ----------

  /** Over every run, a lane's number is behind the count of its executions by exactly the frames of the lane that
      committed inside another one of the lane, and equal to the count if and only if there was none. */
  lemma LagIsNestedCommits(env: Env, balances: map<Address, nat>, txs: seq<Tx>, k: nat)
    requires k in RunTxs(env, Genesis(balances), txs).sessions
    ensures var w := RunTxs(env, Genesis(balances), txs);
            var id, walk := w.sessions[k].sessionId, WalkTxs(env, Genesis(balances), txs, k);
            && EventCount(w.hook.events, id) == walk.commits
            && NextSeq(env, w.hook, id) + walk.lag == walk.commits
            && (NextSeq(env, w.hook, id) == EventCount(w.hook.events, id) <==> walk.lag == 0)
            && (walk.lag == 0 ==> UsedBelow(env, w.hook, id))
  {
    hide Inv, WalkTxs;
    var w := RunTxs(env, Genesis(balances), txs);
    Reachable(env, balances, txs, Num(0));
    GenesisInv(env, balances);
    LaneIdIsOwn(env, w, k);
    RunTracks(env, Genesis(balances), txs, k, w.sessions[k].sessionId);
  }

  /** In a run where no frame of the lane has another of its frames anywhere in its script, whatever other lanes nest, the
      lane's number counts its executions and every digest it used carries a smaller number. */
  lemma UnnestedLaneIsExact(env: Env, balances: map<Address, nat>, txs: seq<Tx>, k: nat)
    requires k in RunTxs(env, Genesis(balances), txs).sessions
    requires forall tx | tx in txs :: !Contains(tx.action, NestsOn(k))
    ensures var w := RunTxs(env, Genesis(balances), txs);
            var id := w.sessions[k].sessionId;
            NextSeq(env, w.hook, id) == EventCount(w.hook.events, id) && UsedBelow(env, w.hook, id)
  {
    LagIsNestedCommits(env, balances, txs, k);
    FreeTxs(env, Genesis(balances), txs, k);
  }

  /** A lag never shrinks again. */
  lemma LagIsForGood(env: Env, balances: map<Address, nat>, txs: seq<Tx>, more: seq<Tx>, k: nat)
    requires k in RunTxs(env, Genesis(balances), txs).sessions
    ensures var w, w' := RunTxs(env, Genesis(balances), txs), RunTxs(env, RunTxs(env, Genesis(balances), txs), more);
            Lag(env, w'.hook, w.sessions[k].sessionId) == Lag(env, w.hook, w.sessions[k].sessionId) + WalkTxs(env, w, more, k).lag
  {
    hide Inv, WalkTxs;
    var w := RunTxs(env, Genesis(balances), txs);
    Reachable(env, balances, txs, Num(0));
    LaneIdIsOwn(env, w, k);
    RunProgress(env, w, more, Num(0));
    RunTracks(env, w, more, k, w.sessions[k].sessionId);
  }

  /** A frame advances its session's sequence number by one from where it stood when the frame began. */
  lemma FrameAdvancesSequenceByOne(env: Env, now: nat, w: World, sender: Address, nonceKey: nat, mode: nat, data: Bytes, leaves: seq<LeafScript>)
    requires Do(env, now, w, Execute(sender, nonceKey, mode, data, leaves)).Ok?
    ensures nonceKey in w.sessions
    ensures var id := w.sessions[nonceKey].sessionId;
            NextSeq(env, Do(env, now, w, Execute(sender, nonceKey, mode, data, leaves)).value.hook, id) == NextSeq(env, w.hook, id) + 1
  {
    var ctx, es, w1 := ExecuteParts(env, now, w, sender, nonceKey, mode, data, leaves);
    PreCheckContext(env, now, w, nonceKey, mode, data);
  }

  /** From an exact count, a frame leaves it exact if and only if, walking its script from the state it starts in, no other
      frame of its lane commits inside it; so in particular if none is in the script. */
  lemma ExactAfterFrameIff(env: Env, now: nat, w: World, sender: Address, nonceKey: nat, mode: nat, data: Bytes, leaves: seq<LeafScript>)
    requires Inv(env, w) && Do(env, now, w, Execute(sender, nonceKey, mode, data, leaves)).Ok?
    requires nonceKey in w.sessions && DecodeFrame(env, mode, data).Ok?
    requires var id := w.sessions[nonceKey].sessionId; NextSeq(env, w.hook, id) == EventCount(w.hook.events, id)
    ensures var id := w.sessions[nonceKey].sessionId;
            var h' := Do(env, now, w, Execute(sender, nonceKey, mode, data, leaves)).value.hook;
            var inside := WalkCalls(env, now, w, nonceKey, id, DecodeFrame(env, mode, data).value, leaves, nonceKey);
            && (NextSeq(env, h', id) == EventCount(h'.events, id) <==> inside.commits == 0)
            && (!LeavesContain(leaves, ExecutesOn(nonceKey)) ==> inside.commits == 0)
  {
    hide Inv, WalkCalls, Do;
    var a, id := Execute(sender, nonceKey, mode, data, leaves), w.sessions[nonceKey].sessionId;
    LaneIdIsOwn(env, w, nonceKey);
    DoProgress(env, now, w, a, id);
    DoTracks(env, now, w, a, nonceKey, id);
    if !LeavesContain(leaves, ExecutesOn(nonceKey)) {
      FreeCalls(env, now, w, nonceKey, id, DecodeFrame(env, mode, data).value, leaves, nonceKey, true);
    }
  }

  // ---------- The replay guard ----------

  /** While used digests are below the sequence number, the next digest is unused. */
  lemma NextDigestUnused(env: Env, h: HookState, id: Word, nonceKey: nat, mode: nat, data: Bytes)
    requires UsedBelow(env, h, id)
    ensures (env.adapter, ExecutionDigest(env, env.adapter, id, nonceKey, mode, data, NextSeq(env, h, id))) !in h.used
  {
    var u := (env.adapter, ExecutionDigest(env, env.adapter, id, nonceKey, mode, data, NextSeq(env, h, id)));
    assert u.1.preimage[3] == id && u.1.preimage[5] == Num(NextSeq(env, h, id));
    assert u in h.used ==> u in UsedOn(h, id);
  }

  lemma {:induction false} CallsNeverReplay(env: Env, now: nat, w: World, nonceKey: nat, sessionId: Word, es: seq<Execution>, leaves: seq<LeafScript>)
    ensures var r := Calls(env, now, w, nonceKey, sessionId, es, leaves); r.Revert? ==> r.error != ExecutionReplayed
    decreases |es|
  {
    if es != [] && leaves == [] {
      var r := TokenCall(env, w, nonceKey, sessionId, es[0]);
      if r.Ok? {
        CallsNeverReplay(env, now, r.value, nonceKey, sessionId, es[1..], []);
      }
    } else if es != [] {
      var r := CallLeaf(env, now, w, nonceKey, sessionId, es[0], leaves[0]);
      if r.Ok? {
        CallsNeverReplay(env, now, r.value, nonceKey, sessionId, es[1..], leaves[1..]);
      }
    }
  }

  lemma ValidationNeverReplays(env: Env, s: SessionConfig, mode: nat, data: Bytes)
    ensures var r := ValidateFrame(env, s, env.adapter, mode, data); r.Revert? ==> r.error != ExecutionReplayed
  {
    if mode == CALLTYPE_SINGLE && DecodeSingle(data).Ok? {
      LeavesNeverReplay(s, env.adapter, [DecodeSingle(data).value], 0);
    } else if mode == CALLTYPE_BATCH && env.decodeBatch(data).Some? {
      LeavesNeverReplay(s, env.adapter, env.decodeBatch(data).value, 0);
    }
  }

  lemma LeafNeverReplays(s: SessionConfig, account: Address, e: Execution)
    ensures var r := ValidateLeaf(s, account, e); r.Revert? ==> r.error != ExecutionReplayed
  {
    hide ParseTransfer;
  }

  lemma AddNeverReplays(a: nat, b: nat)
    ensures var r := CheckedAdd(a, b); r.Revert? ==> r.error != ExecutionReplayed
  {
  }

  lemma {:induction false} LeavesNeverReplay(s: SessionConfig, account: Address, es: seq<Execution>, spent: nat)
    ensures var r := ValidateLeaves(s, account, es, spent); r.Revert? ==> r.error != ExecutionReplayed
    decreases |es|
  {
    hide ValidateLeaf, CheckedAdd;
    if es != [] {
      LeafNeverReplays(s, account, es[0]);
      if ValidateLeaf(s, account, es[0]).Ok? {
        var next := CheckedAdd(spent, ValidateLeaf(s, account, es[0]).value);
        AddNeverReplays(spent, ValidateLeaf(s, account, es[0]).value);
        if next.Ok? {
          LeavesNeverReplay(s, account, es[1..], next.value);
        }
      }
    }
  }

  /** The lane's terms let the frame's content through and leave room for its amounts. */
  predicate ContentFits(env: Env, h: HookState, s: SessionConfig, mode: nat, data: Bytes) {
    AllowedFrame(env, s, env.adapter, mode, data) && Spend(env, h, s.sessionId) + Amounts(DecodeFrame(env, mode, data).value) <= s.maxTotalSpend
  }

  lemma PreCheckWithoutReplay(env: Env, now: nat, w: World, nonceKey: nat, mode: nat, data: Bytes)
    requires nonceKey in w.sessions && UsedBelow(env, w.hook, w.sessions[nonceKey].sessionId)
    requires w.sessions[nonceKey].maxTotalSpend < UINT256_LIMIT
    ensures var s := w.sessions[nonceKey];
            var r := PreCheck(env, now, w.hook, w.sessions, env.adapter, nonceKey, mode, data);
            && (r.Ok? <==> RequireActive(now, s).Ok? && ContentFits(env, w.hook, s, mode, data))
            && (r.Revert? ==> r.error != ExecutionReplayed)
  {
    hide ValidateFrame, UsedBelow, ExecutionDigest, AllowedFrame;
    var s := w.sessions[nonceKey];
    NextDigestUnused(env, w.hook, s.sessionId, nonceKey, mode, data);
    ValidationNeverReplays(env, s, mode, data);
    PreCheckIff(env, now, w, nonceKey, mode, data);
  }

  /** If no frame of the session committed since `preCheck`, `postCheck` agrees with it. */
  lemma PostCheckAgrees(env: Env, now: nat, w: World, w1: World, nonceKey: nat, mode: nat, data: Bytes)
    requires Inv(env, w) && Inv(env, w1) && w.hook.events <= w1.hook.events
    requires nonceKey in w.sessions && UsedBelow(env, w.hook, w.sessions[nonceKey].sessionId)
    requires PreCheck(env, now, w.hook, w.sessions, env.adapter, nonceKey, mode, data).Ok?
    requires Tracks(env, w.sessions[nonceKey].sessionId, w.hook, w1.hook, STILL)
    requires w.sessions[nonceKey].maxTotalSpend < UINT256_LIMIT && NextSeq(env, w.hook, w.sessions[nonceKey].sessionId) + 1 < UINT256_LIMIT
    ensures PostCheck(w1.hook, PreCheck(env, now, w.hook, w.sessions, env.adapter, nonceKey, mode, data).value).Ok?
  {
    hide Inv, HookOk, ValidateFrame, ExecutionDigest, EventCount, FrameSum, UsedOn, Spend;
    var id := w.sessions[nonceKey].sessionId;
    PreCheckContext(env, now, w, nonceKey, mode, data);
    SpendUnmoved(env, w, w1, id);
    PreCheckLeavesRoom(env, now, w, nonceKey, mode, data);
    NextDigestUnused(env, w1.hook, id, nonceKey, mode, data);
    PostCheckSucceeds(env, w1.hook, PreCheck(env, now, w.hook, w.sessions, env.adapter, nonceKey, mode, data).value);
  }

  lemma PreCheckLeavesRoom(env: Env, now: nat, w: World, nonceKey: nat, mode: nat, data: Bytes)
    requires PreCheck(env, now, w.hook, w.sessions, env.adapter, nonceKey, mode, data).Ok?
    ensures var ctx := PreCheck(env, now, w.hook, w.sessions, env.adapter, nonceKey, mode, data).value;
            Spend(env, w.hook, ctx.sessionId) + ctx.frameSpend <= ctx.maxTotalSpend
  {
    hide ValidateFrame, ExecutionDigest;
  }

  lemma SpendUnmoved(env: Env, w: World, w1: World, id: Word)
    requires Inv(env, w) && Inv(env, w1) && w.hook.events <= w1.hook.events
    requires EventCount(w.hook.events, id) == EventCount(w1.hook.events, id)
    ensures Spend(env, w1.hook, id) == Spend(env, w.hook, id)
  {
    NoNewEventsNoNewSpend(w.hook.events, w1.hook.events, id);
    assert Spend(env, w.hook, id) == FrameSum(w.hook.events, id) && Spend(env, w1.hook, id) == FrameSum(w1.hook.events, id);
  }

  lemma PostCheckSucceeds(env: Env, h: HookState, ctx: HookContext)
    requires ctx.account == env.adapter && !ctx.applied && (env.adapter, ctx.digest) !in h.used
    requires Spend(env, h, ctx.sessionId) + ctx.frameSpend <= ctx.maxTotalSpend < UINT256_LIMIT && ctx.executionSeq + 1 < UINT256_LIMIT
    ensures PostCheck(h, ctx).Ok?
  {
  }

  /** Whether a frame is let through when no frame of its own lane is in its script, whatever other lanes do inside: by its
      lane's state, its content, the cap, the balances its calls meet and what they return.  It is never rejected as a replay. */
  lemma UnnestedFrameAccepted(env: Env, now: nat, w: World, sender: Address, nonceKey: nat, mode: nat, data: Bytes, leaves: seq<LeafScript>)
    requires Inv(env, w) && nonceKey in w.sessions && UsedBelow(env, w.hook, w.sessions[nonceKey].sessionId)
    requires !LeavesContain(leaves, ExecutesOn(nonceKey))
    requires w.sessions[nonceKey].maxTotalSpend < UINT256_LIMIT && NextSeq(env, w.hook, w.sessions[nonceKey].sessionId) + 1 < UINT256_LIMIT
    ensures var s := w.sessions[nonceKey];
            var r := Do(env, now, w, Execute(sender, nonceKey, mode, data, leaves));
            && (r.Ok? <==>
                  && MayExecute(env, now, s, sender)
                  && ContentFits(env, w.hook, s, mode, data)
                  && CallsGoThrough(env, now, w, nonceKey, s.sessionId, DecodeFrame(env, mode, data).value, leaves))
            && (r.Revert? ==> r.error != ExecutionReplayed)
  {
    hide Inv, ValidateFrame, DecodeFrame, PreCheck, PostCheck, Calls, CallsGoThrough, UsedBelow, LeavesContain, LegitExecution, Tracks;
    var s := w.sessions[nonceKey];
    PreCheckWithoutReplay(env, now, w, nonceKey, mode, data);
    if PreCheck(env, now, w.hook, w.sessions, env.adapter, nonceKey, mode, data).Ok? {
      var es := DecodeFrame(env, mode, data).value;
      CallsNeverReplay(env, now, w, nonceKey, s.sessionId, es, leaves);
      CallsGoThroughIff(env, now, w, nonceKey, s.sessionId, es, leaves);
      if Calls(env, now, w, nonceKey, s.sessionId, es, leaves).Ok? {
        UnnestedCallsAreStill(env, now, w, nonceKey, es, leaves);
        CallsProgress(env, now, w, nonceKey, s.sessionId, es, leaves);
        PostCheckAgrees(env, now, w, Calls(env, now, w, nonceKey, s.sessionId, es, leaves).value, nonceKey, mode, data);
      }
    }
  }

  lemma UnnestedCallsAreStill(env: Env, now: nat, w: World, nonceKey: nat, es: seq<Execution>, leaves: seq<LeafScript>)
    requires Inv(env, w) && nonceKey in w.sessions && !LeavesContain(leaves, ExecutesOn(nonceKey))
    requires forall e | e in es :: LegitExecution(w.sessions[nonceKey], e)
    requires Calls(env, now, w, nonceKey, w.sessions[nonceKey].sessionId, es, leaves).Ok?
    ensures Tracks(env, w.sessions[nonceKey].sessionId, w.hook,
                   Calls(env, now, w, nonceKey, w.sessions[nonceKey].sessionId, es, leaves).value.hook, STILL)
  {
    hide Inv, Calls, LegitExecution;
    var id := w.sessions[nonceKey].sessionId;
    LaneIdIsOwn(env, w, nonceKey);
    CallsProgress(env, now, w, nonceKey, id, es, leaves);
    CallsTrack(env, now, w, nonceKey, id, es, leaves, nonceKey, id);
    FreeCalls(env, now, w, nonceKey, id, es, leaves, nonceKey, true);
  }
}
