/** Where a run's lanes come from: whatever re-enters, both signers authorised every lane and only the owner revokes. */
module SpendProvenance {
  import opened Basics
  import opened Words
  import opened SessionTypes
  import opened ExecutionDecoder
  import opened SessionId
  import opened SpendMachine
  import opened SpendInvariants
  import opened SpendSafety
  import opened SpendTheorems

  type Property = Action -> bool

  type Sessions = map<nat, SessionConfig>

  /** What a lane-changing step may do to the adapter's sessions. */
  type Relation = (Sessions, Sessions) -> bool

  /** An action of a call tree, at any depth, has the property, whether or not it would succeed. */
  predicate Contains(a: Action, p: Property)
    decreases a, 0
  {
    p(a) || (a.Execute? && LeavesContain(a.leaves, p))
  }

  predicate LeavesContain(leaves: seq<LeafScript>, p: Property)
    decreases leaves
  {
    leaves != [] && (AnyContains(leaves[0].before, p) || AnyContains(leaves[0].after, p) || LeavesContain(leaves[1..], p))
  }

  predicate AnyContains(actions: seq<Action>, p: Property)
    decreases actions
  {
    actions != [] && (Contains(actions[0], p) || AnyContains(actions[1..], p))
  }

  /** An action with the property takes effect: it succeeds, and so does every frame it is inside of. */
  predicate Happens(env: Env, now: nat, w: World, a: Action, p: Property)
    decreases a, 0
  {
    && Do(env, now, w, a).Ok?
    && (|| p(a)
        || (&& a.Execute? && a.nonceKey in w.sessions && DecodeFrame(env, a.mode, a.data).Ok?
            && HappensInCalls(env, now, w, a.nonceKey, w.sessions[a.nonceKey].sessionId, DecodeFrame(env, a.mode, a.data).value, a.leaves, p)))
  }

  predicate HappensInCalls(env: Env, now: nat, w: World, nonceKey: nat, id: Word, es: seq<Execution>, leaves: seq<LeafScript>, p: Property)
    decreases leaves
  {
    es != [] && leaves != [] &&
    match TokenCall(env, RunAll(env, now, w, leaves[0].before), nonceKey, id, es[0])
    case Revert(_) => false
    case Ok(w2) =>
      || HappensAmong(env, now, w, leaves[0].before, p)
      || HappensAmong(env, now, w2, leaves[0].after, p)
      || HappensInCalls(env, now, RunAll(env, now, w2, leaves[0].after), nonceKey, id, es[1..], leaves[1..], p)
  }

  predicate HappensAmong(env: Env, now: nat, w: World, actions: seq<Action>, p: Property)
    decreases actions
  {
    actions != [] && (Happens(env, now, w, actions[0], p) || HappensAmong(env, now, Step(env, now, w, actions[0]), actions[1..], p))
  }

  predicate HappensInRun(env: Env, w: World, txs: seq<Tx>, p: Property) {
    txs != [] &&
    var earlier, last := txs[..|txs| - 1], txs[|txs| - 1];
    HappensInRun(env, w, earlier, p) || Happens(env, last.now, RunTxs(env, w, earlier), last.action, p)
  }

  ghost predicate Preorder(rel: Relation) {
    (forall a :: rel(a, a)) && (forall a, b, c | rel(a, b) && rel(b, c) :: rel(a, c))
  }

  /** The direct effect of every action without the property stays in the relation. */
  ghost predicate Respects(env: Env, p: Property, rel: Relation) {
    && (forall w, c, o, r | !p(Register(c, o, r)) && RegisterSession(env, w, c, o, r).Ok? :: rel(w.sessions, w.sessions[c.nonceKey := c]))
    && (forall w, sender, k | !p(Revoke(sender, k)) && RevokeSession(env, w, sender, k).Ok? ::
          rel(w.sessions, RevokeSession(env, w, sender, k).value.sessions))
  }

  // ---------- Induction over call trees ----------

  lemma {:induction false} DoRespects(env: Env, now: nat, w: World, a: Action, p: Property, rel: Relation)
    requires Preorder(rel) && Respects(env, p, rel) && !Happens(env, now, w, a, p)
    ensures Do(env, now, w, a).Ok? ==> rel(w.sessions, Do(env, now, w, a).value.sessions)
    decreases a, 0
  {
    if Do(env, now, w, a).Ok? {
      match a
      case Register(c, o, r) => assert rel(w.sessions, w.sessions[c.nonceKey := c]);
      case Revoke(sender, k) =>
      case Execute(sender, k, mode, data, leaves) =>
        assert ExecuteWithSession(env, now, w, sender, k, mode, data, leaves).Ok?;
        CallsRespect(env, now, w, k, w.sessions[k].sessionId, DecodeFrame(env, mode, data).value, leaves, p, rel);
      case Deposit(token, amount) =>
    }
  }

  lemma {:induction false} PlainCallsKeepSessions(env: Env, now: nat, w: World, nonceKey: nat, id: Word, es: seq<Execution>)
    requires Calls(env, now, w, nonceKey, id, es, []).Ok?
    ensures Calls(env, now, w, nonceKey, id, es, []).value.sessions == w.sessions
    decreases |es|
  {
    hide TokenCall;
    if es != [] {
      assert TokenCall(env, w, nonceKey, id, es[0]).Ok?;
      TokenCallEffect(env, w, nonceKey, id, es[0]);
      PlainCallsKeepSessions(env, now, TokenCall(env, w, nonceKey, id, es[0]).value, nonceKey, id, es[1..]);
    }
  }

  lemma {:induction false} CallsRespect(env: Env, now: nat, w: World, nonceKey: nat, id: Word, es: seq<Execution>, leaves: seq<LeafScript>, p: Property, rel: Relation)
    requires Preorder(rel) && Respects(env, p, rel) && !HappensInCalls(env, now, w, nonceKey, id, es, leaves, p)
    ensures var r := Calls(env, now, w, nonceKey, id, es, leaves); r.Ok? ==> rel(w.sessions, r.value.sessions)
    decreases leaves
  {
    hide Respects, TokenCall, RunAll, HappensAmong;
    if es != [] && Calls(env, now, w, nonceKey, id, es, leaves).Ok? {
      if leaves == [] {
        PlainCallsKeepSessions(env, now, w, nonceKey, id, es);
      } else {
        var w1 := RunAll(env, now, w, leaves[0].before);
        assert CallLeaf(env, now, w, nonceKey, id, es[0], leaves[0]).Ok?;
        var w2 := TokenCall(env, w1, nonceKey, id, es[0]).value;
        var w3 := RunAll(env, now, w2, leaves[0].after);
        assert CallLeaf(env, now, w, nonceKey, id, es[0], leaves[0]) == Ok(w3);
        TokenCallEffect(env, w1, nonceKey, id, es[0]);
        AllRespect(env, now, w, leaves[0].before, p, rel);
        AllRespect(env, now, w2, leaves[0].after, p, rel);
        CallsRespect(env, now, w3, nonceKey, id, es[1..], leaves[1..], p, rel);
      }
    }
  }

  lemma {:induction false} AllRespect(env: Env, now: nat, w: World, actions: seq<Action>, p: Property, rel: Relation)
    requires Preorder(rel) && Respects(env, p, rel) && !HappensAmong(env, now, w, actions, p)
    ensures rel(w.sessions, RunAll(env, now, w, actions).sessions)
    decreases actions
  {
    hide Respects, Happens, Do;
    if actions != [] {
      DoRespects(env, now, w, actions[0], p, rel);
      AllRespect(env, now, Step(env, now, w, actions[0]), actions[1..], p, rel);
    }
  }

  /** A run in which no action with the property takes effect, at any depth, keeps the adapter's sessions in the relation. */
  lemma {:induction false} RunRespects(env: Env, w: World, txs: seq<Tx>, p: Property, rel: Relation)
    requires Preorder(rel) && Respects(env, p, rel) && !HappensInRun(env, w, txs, p)
    ensures rel(w.sessions, RunTxs(env, w, txs).sessions)
  {
    hide Respects, Happens, Do;
    if txs != [] {
      var last, w1 := txs[|txs| - 1], RunTxs(env, w, txs[..|txs| - 1]);
      RunRespects(env, w, txs[..|txs| - 1], p, rel);
      DoRespects(env, last.now, w1, last.action, p, rel);
    }
  }

  // ---------- Registration and revocation ----------

  predicate BothSigned(env: Env, ownerSig: Signature, railguardSig: Signature) {
    && ownerSig.length == 65 && ownerSig.signer == Some(env.owner)
    && railguardSig.length == 65 && railguardSig.signer == Some(env.railguardSigner)
  }

  /** Terms a lane can have: the adapter's own account, a token with plain transfers only, and consistent limits and window. */
  predicate SaneTerms(env: Env, c: SessionConfig) {
    && c.account == env.adapter && c.sessionKey != 0 && c.token != 0
    && c.allowedTarget == c.token && c.allowedSelector == TRANSFER_SELECTOR
    && 0 < c.maxPerTransfer <= c.maxTotalSpend && c.validAfter < c.validUntil
    && c.sessionId == DeriveFromConfig(env.chainId, env.adapter, c)
  }

  /** A registration succeeds exactly with such terms, under a free nonce key and both signatures; it stores the terms. */
  lemma RegistrationIff(env: Env, w: World, c: SessionConfig, ownerSig: Signature, railguardSig: Signature)
    ensures var r := RegisterSession(env, w, c, ownerSig, railguardSig);
            && (r.Ok? <==> SaneTerms(env, c) && c.nonceKey !in w.sessions && BothSigned(env, ownerSig, railguardSig))
            && (r.Ok? ==> r.value == w.(sessions := w.sessions[c.nonceKey := c]))
  {
    hide DeriveFromConfig;
  }

  lemma LanesHaveSaneTerms(env: Env, k: nat, c: SessionConfig)
    requires LaneOk(env, k, c)
    ensures SaneTerms(env, c) && c.nonceKey == k
  {
    hide DeriveFromConfig;
  }

  /** Equal but for revocation. */
  predicate SameTerms(a: SessionConfig, b: SessionConfig) {
    a.(revoked := false) == b.(revoked := false)
  }

  /** A registration of these terms that carries both signatures. */
  predicate SignsFor(env: Env, terms: SessionConfig, a: Action) {
    a.Register? && SameTerms(a.config, terms) && BothSigned(env, a.ownerSig, a.railguardSig)
  }

  /** The owner revoking the lane, or its registration in revoked form. */
  predicate Revokes(env: Env, k: nat, a: Action) {
    a == Revoke(env.owner, k) || (a.Register? && a.config.nonceKey == k && a.config.revoked)
  }

  function SignedFor(env: Env, terms: SessionConfig): Property {
    a => SignsFor(env, terms, a)
  }

  function TermsKept(k: nat, terms: SessionConfig): Relation {
    (a, b) => Holds(k, terms, b) ==> Holds(k, terms, a)
  }

  predicate Holds(k: nat, terms: SessionConfig, sessions: Sessions) {
    k in sessions && SameTerms(sessions[k], terms)
  }

  /** Only a signed registration puts terms in place that were not there. */
  lemma SignedRespects(env: Env, k: nat, terms: SessionConfig)
    ensures Preorder(TermsKept(k, terms)) && Respects(env, SignedFor(env, terms), TermsKept(k, terms))
  {
    hide ValidateConfig, DeriveFromConfig;
  }

  function RevokedBy(env: Env, k: nat): Property {
    a => Revokes(env, k, a)
  }

  function RevocationKept(k: nat): Relation {
    (a, b) => IsRevoked(k, b) ==> IsRevoked(k, a)
  }

  predicate IsRevoked(k: nat, sessions: Sessions) {
    k in sessions && sessions[k].revoked
  }

  lemma RevokesRespects(env: Env, k: nat)
    ensures Preorder(RevocationKept(k)) && Respects(env, RevokedBy(env, k), RevocationKept(k))
  {
    hide ValidateConfig, DeriveFromConfig;
  }

  /** Every lane of every run was put in place by a registration that took effect in it, on exactly its terms and under both
      signatures; its limits and window are consistent and its id is its own. */
  lemma EveryLaneWasSigned(env: Env, balances: map<Address, nat>, txs: seq<Tx>, k: nat)
    requires k in RunTxs(env, Genesis(balances), txs).sessions
    ensures var lane := RunTxs(env, Genesis(balances), txs).sessions[k];
            SaneTerms(env, lane) && lane.nonceKey == k && HappensInRun(env, Genesis(balances), txs, SignedFor(env, lane))
  {
    hide Preorder, Respects, RunTxs, LaneOk, HappensInRun, SaneTerms;
    var lane := RunTxs(env, Genesis(balances), txs).sessions[k];
    Reachable(env, balances, txs, Num(0));
    LanesHaveSaneTerms(env, k, lane);
    SignedRespects(env, k, lane);
    if !HappensInRun(env, Genesis(balances), txs, SignedFor(env, lane)) {
      RunRespects(env, Genesis(balances), txs, SignedFor(env, lane), TermsKept(k, lane));
    }
  }

  // ---------- Revocation ----------

  lemma RevocationStays(a: Sessions, b: Sessions, k: nat)
    requires LanesKept(a, b) && IsRevoked(k, a)
    ensures IsRevoked(k, b)
  {
  }

  /** What revokes a lane, at any depth of a call tree, leaves it revoked when the tree is done. */
  lemma {:induction false} DoEstablishes(env: Env, now: nat, w: World, a: Action, k: nat)
    requires Inv(env, w) && Happens(env, now, w, a, RevokedBy(env, k))
    ensures IsRevoked(k, Do(env, now, w, a).value.sessions)
    decreases a, 1
  {
    hide Inv, Calls, PreCheck, PostCheck, DecodeFrame, ValidateConfig, DeriveFromConfig;
    if a.Execute? {
      FrameEstablishes(env, now, w, a, k);
    }
  }

  lemma {:induction false} FrameEstablishes(env: Env, now: nat, w: World, a: Action, k: nat)
    requires Inv(env, w) && a.Execute? && Happens(env, now, w, a, RevokedBy(env, k))
    ensures IsRevoked(k, Do(env, now, w, a).value.sessions)
    decreases a, 0
  {
    hide Inv, Calls, PreCheck, PostCheck, DecodeFrame, IsRevoked, HappensInCalls, LegitExecution, ValidateFrame;
    var ctx, es, w1 := ExecuteParts(env, now, w, a.sender, a.nonceKey, a.mode, a.data, a.leaves);
    var s := w.sessions[a.nonceKey];
    PreCheckContext(env, now, w, a.nonceKey, a.mode, a.data);
    ValidatedIsExecuted(env, s, env.adapter, a.mode, a.data);
    CallsEstablish(env, now, w, a.nonceKey, s.sessionId, es, a.leaves, k);
  }

  lemma {:induction false} CallsEstablish(env: Env, now: nat, w: World, nonceKey: nat, id: Word, es: seq<Execution>, leaves: seq<LeafScript>, k: nat)
    requires Inv(env, w) && nonceKey in w.sessions && w.sessions[nonceKey].sessionId == id
    requires forall e | e in es :: LegitExecution(w.sessions[nonceKey], e)
    requires Calls(env, now, w, nonceKey, id, es, leaves).Ok? && HappensInCalls(env, now, w, nonceKey, id, es, leaves, RevokedBy(env, k))
    ensures IsRevoked(k, Calls(env, now, w, nonceKey, id, es, leaves).value.sessions)
    decreases leaves
  {
    hide Inv, LegitExecution, TokenCall, RunAll, HappensAmong, IsRevoked;
    var w1 := RunAll(env, now, w, leaves[0].before);
    assert CallLeaf(env, now, w, nonceKey, id, es[0], leaves[0]).Ok?;
    var w2 := TokenCall(env, w1, nonceKey, id, es[0]).value;
    var w3 := RunAll(env, now, w2, leaves[0].after);
    assert CallLeaf(env, now, w, nonceKey, id, es[0], leaves[0]) == Ok(w3);
    AroundLeaf(env, now, w, nonceKey, id, es, leaves[0]);
    TokenCallEffect(env, w1, nonceKey, id, es[0]);
    RunAllProgress(env, now, w2, leaves[0].after, id);
    CallsProgress(env, now, w3, nonceKey, id, es[1..], leaves[1..]);
    var last := Calls(env, now, w, nonceKey, id, es, leaves).value;
    if HappensInCalls(env, now, w3, nonceKey, id, es[1..], leaves[1..], RevokedBy(env, k)) {
      CallsEstablish(env, now, w3, nonceKey, id, es[1..], leaves[1..], k);
    } else {
      if HappensAmong(env, now, w, leaves[0].before, RevokedBy(env, k)) {
        AllEstablish(env, now, w, leaves[0].before, k);
        RevocationStays(w2.sessions, w3.sessions, k);
      } else {
        AllEstablish(env, now, w2, leaves[0].after, k);
      }
      RevocationStays(w3.sessions, last.sessions, k);
    }
  }

  lemma {:induction false} AllEstablish(env: Env, now: nat, w: World, actions: seq<Action>, k: nat)
    requires Inv(env, w) && HappensAmong(env, now, w, actions, RevokedBy(env, k))
    ensures IsRevoked(k, RunAll(env, now, w, actions).sessions)
    decreases actions
  {
    hide Inv, Happens, IsRevoked, Do;
    var w1 := Step(env, now, w, actions[0]);
    DoProgress(env, now, w, actions[0], Num(0));
    if Happens(env, now, w, actions[0], RevokedBy(env, k)) {
      StepEstablishes(env, now, w, actions[0], k);
      RunAllProgress(env, now, w1, actions[1..], Num(0));
      RevocationStays(w1.sessions, RunAll(env, now, w, actions).sessions, k);
    } else {
      AllEstablish(env, now, w1, actions[1..], k);
    }
  }

  lemma {:induction false} StepEstablishes(env: Env, now: nat, w: World, a: Action, k: nat)
    requires Inv(env, w) && Happens(env, now, w, a, RevokedBy(env, k))
    ensures IsRevoked(k, Step(env, now, w, a).sessions)
    decreases a, 2
  {
    DoEstablishes(env, now, w, a, k);
  }

  lemma {:induction false} RunEstablishes(env: Env, w: World, txs: seq<Tx>, k: nat)
    requires Inv(env, w) && HappensInRun(env, w, txs, RevokedBy(env, k))
    ensures IsRevoked(k, RunTxs(env, w, txs).sessions)
  {
    hide Inv, Happens, IsRevoked, Do;
    var earlier, last := txs[..|txs| - 1], txs[|txs| - 1];
    var w1 := RunTxs(env, w, earlier);
    RunProgress(env, w, earlier, Num(0));
    if Happens(env, last.now, w1, last.action, RevokedBy(env, k)) {
      StepEstablishes(env, last.now, w1, last.action, k);
    } else {
      RunEstablishes(env, w, earlier, k);
      DoProgress(env, last.now, w1, last.action, Num(0));
      StepKeepsRevoked(env, last.now, w1, last.action, k);
    }
  }

  lemma StepKeepsRevoked(env: Env, now: nat, w: World, a: Action, k: nat)
    requires IsRevoked(k, w.sessions) && (Do(env, now, w, a).Ok? ==> Progress(env, w, Do(env, now, w, a).value, Num(0), 0))
    ensures IsRevoked(k, Step(env, now, w, a).sessions)
  {
    hide Do;
    if Do(env, now, w, a).Ok? {
      RevocationStays(w.sessions, Do(env, now, w, a).value.sessions, k);
    }
  }

  /** A lane is revoked if and only if a call of the owner that revokes it took effect, at any depth, or it was registered
      in revoked form. */
  lemma OnlyTheOwnerRevokes(env: Env, balances: map<Address, nat>, txs: seq<Tx>, k: nat)
    ensures IsRevoked(k, RunTxs(env, Genesis(balances), txs).sessions) <==> HappensInRun(env, Genesis(balances), txs, RevokedBy(env, k))
  {
    hide Inv, Preorder, Respects, RunTxs, HappensInRun;
    RevokesRespects(env, k);
    GenesisInv(env, balances);
    if HappensInRun(env, Genesis(balances), txs, RevokedBy(env, k)) {
      RunEstablishes(env, Genesis(balances), txs, k);
    } else {
      RunRespects(env, Genesis(balances), txs, RevokedBy(env, k), RevocationKept(k));
    }
  }

  /** A revocation succeeds exactly for the owner on a registered lane; it sets the lane's flag and changes nothing else. */
  lemma RevocationIff(env: Env, now: nat, w: World, sender: Address, k: nat)
    ensures var r := Do(env, now, w, Revoke(sender, k));
            && (r.Ok? <==> sender == env.owner && k in w.sessions)
            && (r.Ok? ==>
                  && r.value == w.(sessions := r.value.sessions) && r.value.sessions.Keys == w.sessions.Keys
                  && r.value.sessions[k] == w.sessions[k].(revoked := true)
                  && forall j | j in w.sessions && j != k :: r.value.sessions[j] == w.sessions[j])
  {
  }

  /** After a revocation, at any point of a run, every frame on the lane is refused, and nothing is executed or spent on it
      again. */
  lemma RevocationIsForGood(env: Env, balances: map<Address, nat>, txs: seq<Tx>, now: nat, sender: Address, k: nat, more: seq<Tx>)
    requires Do(env, now, RunTxs(env, Genesis(balances), txs), Revoke(sender, k)).Ok?
    ensures var w := RunTxs(env, Genesis(balances), txs);
            var after := RunTxs(env, Do(env, now, w, Revoke(sender, k)).value, more);
            && k in w.sessions && IsRevoked(k, after.sessions)
            && EventCount(after.hook.events, w.sessions[k].sessionId) == EventCount(w.hook.events, w.sessions[k].sessionId)
            && Spend(env, after.hook, w.sessions[k].sessionId) == Spend(env, w.hook, w.sessions[k].sessionId)
            && forall later, someone, mode, data, leaves ::
                 Do(env, later, after, Execute(someone, k, mode, data, leaves)) == Revert(SessionRevoked)
  {
    hide Inv, RunTxs, DecodeFrame, Calls, PreCheck, PostCheck;
    var w := RunTxs(env, Genesis(balances), txs);
    RevocationIff(env, now, w, sender, k);
    var revoked := Do(env, now, w, Revoke(sender, k)).value;
    Reachable(env, balances, txs, Num(0));
    DoProgress(env, now, w, Revoke(sender, k), Num(0));
    RevokedLaneIsDeadFrom(env, revoked, more, k);
    RunProgress(env, revoked, more, Num(0));
    RevocationStays(revoked.sessions, RunTxs(env, revoked, more).sessions, k);
  }
}
