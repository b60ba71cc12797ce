/** What holds of the tables over every interleaving of evaluations and registrations. */
module AuthorizationTheorems {
  import opened Basics
  import opened Words
  import opened SessionTypes
  import opened SessionId
  import opened BudgetKeys
  import opened SessionAuthorization
  import opened AuthorizationHistory

  function RunApi(rules: Rules, st: State, events: seq<Event>): State {
    Run(HandlersFor(rules), st, events)
  }

  lemma HandlersAreSound(rules: Rules)
    ensures Sound(HandlersFor(rules), Fitness(rules))
  {
    var h, fit := HandlersFor(rules), Fitness(rules);
    assert SourcesKept(h);
    forall db, q | h.prepare(db, q).Some?
      ensures var a := h.prepare(db, q).value; RowBacked(db, a.decisionId, a.row) && fit(a.sessionId, a.row)
    {
      PreparedIsBacked(rules, db, q);
    }
  }

  /** What the handler prepares is backed by the decision it read, and fits the rules. */
  lemma PreparedIsBacked(rules: Rules, db: Db, q: RegisterRequest)
    requires Prepare(rules, db, q).Some?
    ensures var a := Prepare(rules, db, q).value; RowBacked(db, a.decisionId, a.row) && RowFits(rules, a.sessionId, a.row)
  {
  }

  lemma RunIsGood(rules: Rules, st: State, events: seq<Event>)
    requires Inv(HandlersFor(rules), Fitness(rules), st)
    ensures Inv(HandlersFor(rules), Fitness(rules), RunApi(rules, st, events)) && Evolves(st.db, RunApi(rules, st, events).db)
  {
    HandlersAreSound(rules);
    RunKeepsInv(HandlersFor(rules), Fitness(rules), st, events);
  }

  lemma BindingsAreFinal(a: Db, b: Db, d: string, e: string)
    requires BindingsInjective(a) && Evolves(a, b) && d in a.decisions && e in a.decisions && a.decisions[d].consumed.Some?
    ensures a.decisions[e].consumed == a.decisions[d].consumed ==> d == e
    ensures d in b.decisions && b.decisions[d] == a.decisions[d]
  {
    assert SameDecision(a.decisions[d], b.decisions[d]);
  }

  /** In every interleaving, two decisions are never bound to one session, and a binding, once made, stays. */
  lemma BindingsAreUniqueAndFinal(rules: Rules, events: seq<Event>, more: seq<Event>, d: string, e: string)
    requires var db := RunApi(rules, EMPTY, events).db; d in db.decisions && e in db.decisions && db.decisions[d].consumed.Some?
    ensures var db := RunApi(rules, EMPTY, events).db;
            var later := RunApi(rules, RunApi(rules, EMPTY, events), more).db;
            && (db.decisions[e].consumed == db.decisions[d].consumed ==> d == e)
            && d in later.decisions && later.decisions[d] == db.decisions[d]
  {
    var st := RunApi(rules, EMPTY, events);
    RunIsGood(rules, EMPTY, events);
    RunIsGood(rules, st, more);
    BindingsAreFinal(st.db, RunApi(rules, st, more).db, d, e);
  }

  /** Steps seen from one state that satisfies the invariant. */
  lemma RepeatStep(h: Handlers, st: State, pid: nat, a: Auth)
    requires TablesOk(st) && pid in st.txns && st.txns[pid] == Starting(a)
    requires a.decisionId in st.db.decisions && st.db.decisions[a.decisionId].consumed == Some(a.sessionId)
    ensures Apply(h, st, Step(pid)) == Goto(st, pid, Finished(true))
  {
    assert TxnBacked(st.db, st.txns[pid]);
    assert !RowLocked(st, a.decisionId);
  }

  /** A decision is bound to the session and its row is stored. */
  predicate Authorized(db: Db, a: Auth) {
    && a.decisionId in db.decisions && db.decisions[a.decisionId].allow
    && db.decisions[a.decisionId].consumed == Some(a.sessionId) && a.sessionId in db.sessions
  }

  /** A transaction's next step ends it, successfully. */
  predicate StepSucceeds(h: Handlers, st: State, pid: nat) {
    pid in st.txns && pid in StepTxn(h, st, pid).txns && StepTxn(h, st, pid).txns[pid] == Finished(true)
  }

  lemma StartSuccess(st: State, pid: nat, a: Auth)
    requires TablesOk(st) && pid in st.txns && st.txns[pid] == Starting(a) && SelectStep(st, pid, a).txns[pid] == Finished(true)
    ensures Authorized(st.db, a)
  {
  }

  lemma CommitSuccess(st: State, pid: nat, a: Auth)
    requires TxnsBacked(st) && LocksOk(st) && RowsPresent(st) && pid in st.txns && st.txns[pid].Inserted? && st.txns[pid].a == a
    ensures Authorized(AfterCommit(st, pid, true).db, a)
  {
    assert TxnBacked(st.db, st.txns[pid]);
  }

  lemma SuccessStep(h: Handlers, st: State, pid: nat, a: Auth)
    requires TablesOk(st) && StepSucceeds(h, st, pid) && AuthOf(st.txns[pid]) == Some(a)
    ensures Authorized(StepTxn(h, st, pid).db, a)
  {
    if st.txns[pid].Starting? {
      StartSuccess(st, pid, a);
    } else {
      assert st.txns[pid].Inserted?;
      CommitSuccess(st, pid, a);
    }
  }

  /** A repeat for the session a decision is already bound to succeeds and changes no table. */
  lemma RepeatSucceedsWithoutEffect(rules: Rules, events: seq<Event>, pid: nat, a: Auth)
    requires var st := RunApi(rules, EMPTY, events);
             pid in st.txns && st.txns[pid] == Starting(a) && a.decisionId in st.db.decisions
             && st.db.decisions[a.decisionId].consumed == Some(a.sessionId)
    ensures var st := RunApi(rules, EMPTY, events);
            Apply(HandlersFor(rules), st, Step(pid)) == Goto(st, pid, Finished(true))
  {
    RunIsGood(rules, EMPTY, events);
    RepeatStep(HandlersFor(rules), RunApi(rules, EMPTY, events), pid, a);
  }

  /** An authorization reports success only once its decision is bound to its session and the session's row is stored; it was
      asked for by its process, and the decision was given as ALLOW. */
  lemma SuccessIsBound(rules: Rules, events: seq<Event>, pid: nat, a: Auth)
    requires var st := RunApi(rules, EMPTY, events);
             StepSucceeds(HandlersFor(rules), st, pid) && AuthOf(st.txns[pid]) == Some(a)
    ensures var db := StepTxn(HandlersFor(rules), RunApi(rules, EMPTY, events), pid).db;
            && Authorized(db, a)
            && SaveDecision(a.decisionId, db.decisions[a.decisionId].judged, true, db.decisions[a.decisionId].policyHash) in events
            && Asked(Happened(events), pid, a)
  {
    assert pid in RunApi(rules, EMPTY, events).txns;
    hide Inv, Traced, StepSucceeds, Authorized, DecisionsGiven, TxnsAsked;
    var h, st := HandlersFor(rules), RunApi(rules, EMPTY, events);
    RunIsGood(rules, EMPTY, events);
    RunIsTraced(rules, events);
    GoodTables(h, Fitness(rules), st);
    SuccessStep(h, st, pid, a);
    SuccessWasGiven(h, Happened(events), st, pid, a);
  }

  lemma GoodTables(h: Handlers, fit: (Word, SessionRow) -> bool, st: State)
    requires Inv(h, fit, st)
    ensures TablesOk(st)
  {
  }

  lemma SuccessWasGiven(h: Handlers, past: Past, st: State, pid: nat, a: Auth)
    requires Traced(past, st) && pid in st.txns && AuthOf(st.txns[pid]) == Some(a) && Authorized(StepTxn(h, st, pid).db, a)
    ensures var d := StepTxn(h, st, pid).db.decisions[a.decisionId]; SaveDecision(a.decisionId, d.judged, true, d.policyHash) in past
    ensures Asked(past, pid, a)
  {
    hide RowAsks, AuthAsks, LanesDistinct, KeysDistinct;
    OneAsked(past, st, pid);
  }

  /** A stored row's decision, and what `fit` says of the row. */
  lemma SessionHasDecision(h: Handlers, fit: (Word, SessionRow) -> bool, st: State, s: Word) returns (d: string)
    requires Inv(h, fit, st) && s in st.db.sessions
    ensures d in st.db.decisions && st.db.decisions[d].consumed == Some(s) && RowBacked(st.db, d, st.db.sessions[s])
    ensures fit(s, st.db.sessions[s])
    ensures var intent := st.db.intents[st.db.decisions[d].hash];
            h.hashOf(intent.source) == h.hashOf(st.db.decisions[d].judged) && h.intentOf(intent.source) == Some(intent)
  {
    assert SessionBound(st.db, s);
    d :| d in st.db.decisions && st.db.decisions[d].consumed == Some(s) && RowBacked(st.db, d, st.db.sessions[s]);
  }

  /** A row with the terms of an intent has those of any request that hashes alike. */
  lemma RowHasTerms(row: SessionRow, intent: Intent, judged: EvaluateRequest)
    requires RowOfIntent(row, intent) && IntentOf(intent.source) == Some(intent) && HashOf(intent.source) == HashOf(judged)
    ensures RowOfRequest(row, judged)
  {
    SameHashSameLimits(intent.source, judged);
  }

  /** Every session row has its decision, given as ALLOW, and its account, token, recipient, limits and batch flag are those
      of the very request that decision judged, whatever was evaluated before or since; its policy is the decision's and the
      one in force, its key, nonce key and window are those some call registered it with, and its id is the one the adapter
      derives. */
  lemma LimitsDoNotDrift(rules: Rules, events: seq<Event>, s: Word) returns (d: string)
    requires s in RunApi(rules, EMPTY, events).db.sessions
    ensures var db := RunApi(rules, EMPTY, events).db;
            var row := db.sessions[s];
            && d in db.decisions && db.decisions[d].consumed == Some(s)
            && SaveDecision(d, db.decisions[d].judged, true, row.policyHash) in events
            && RowOfRequest(row, db.decisions[d].judged)
            && Lower(row.policyHash) == Lower(rules.policyHash)
            && (exists e | e in events :: e.BeginRegister? && e.request.decisionId == d && RowAsks(row, e.request))
            && 0 < row.maxPerTransfer <= row.maxTotalSpend && 0 < row.validAfter < row.validUntil
            && ValidRow(row) && s == DeriveFromConfig(rules.chainId, rules.adapter, ConfigOf(rules, row))
  {
    hide Inv, Traced, RowAsks, RowOfRequest, ValidRow, ConfigOf;
    RunIsGood(rules, EMPTY, events);
    RunIsTraced(rules, events);
    var st := RunApi(rules, EMPTY, events);
    d := SessionHasDecision(HandlersFor(rules), Fitness(rules), st, s);
    RowHasTerms(st.db.sessions[s], st.db.intents[st.db.decisions[d].hash], st.db.decisions[d].judged);
    GoodTables(HandlersFor(rules), Fitness(rules), st);
    SessionWasAsked(Happened(events), st, s, d);
    RowIsFit(rules, s, st.db.sessions[s]);
  }

  lemma RowIsFit(rules: Rules, s: Word, row: SessionRow)
    requires Fitness(rules)(s, row)
    ensures ValidRow(row) && Lower(row.policyHash) == Lower(rules.policyHash)
    ensures 0 < row.maxPerTransfer <= row.maxTotalSpend && 0 < row.validAfter < row.validUntil
    ensures s == DeriveFromConfig(rules.chainId, rules.adapter, ConfigOf(rules, row))
  {
    hide Lower, TrimSpace, ParseDecimal;
  }

  lemma SessionWasAsked(past: Past, st: State, s: Word, d: string)
    requires Traced(past, st) && TablesOk(st) && s in st.db.sessions && d in st.db.decisions
    requires st.db.decisions[d].consumed == Some(s) && RowBacked(st.db, d, st.db.sessions[s])
    ensures SaveDecision(d, st.db.decisions[d].judged, true, st.db.sessions[s].policyHash) in past
    ensures exists e | e in past :: e.BeginRegister? && e.request.decisionId == d && RowAsks(st.db.sessions[s], e.request)
  {
    hide RowAsks, LanesDistinct, KeysDistinct, TxnsAsked;
    assert SessionAsked(past, st.db, s);
    var e :| && e in past && e.BeginRegister? && e.request.decisionId in st.db.decisions
             && st.db.decisions[e.request.decisionId].consumed == Some(s) && RowAsks(st.db.sessions[s], e.request);
    assert e.request.decisionId == d;
  }

  /** A row's terms are a request's: numbers as numbers, names up to letter case. */
  predicate RowOfRequest(row: SessionRow, q: EvaluateRequest) {
    && Lower(row.agentId) == Lower(q.agentId) && Lower(row.account) == Lower(q.account)
    && Lower(row.token) == Lower(q.token) && Lower(row.recipient) == Lower(q.recipient)
    && Some(row.maxPerTransfer) == Numeric(q.maxPerTransfer) && Some(row.maxTotalSpend) == Numeric(q.maxTotalSpend)
    && row.allowBatch == q.allowBatch
  }

  /** Two requests hash alike exactly if they agree on every field of the canonical form: amounts and limits as text but for
      surrounding blanks of the limits, names up to letter case, the path exactly. */
  lemma HashIff(p: EvaluateRequest, q: EvaluateRequest)
    ensures HashOf(p) == HashOf(q)
       <==> && Lower(p.agentId) == Lower(q.agentId) && Lower(p.account) == Lower(q.account) && p.chainId == q.chainId
            && Lower(p.token) == Lower(q.token) && Lower(p.recipient) == Lower(q.recipient) && p.amountAtomic == q.amountAtomic
            && Lower(p.domain) == Lower(q.domain) && p.path == q.path && Upper(p.httpMethod) == Upper(q.httpMethod)
            && TrimSpace(p.maxPerTransfer) == TrimSpace(q.maxPerTransfer) && TrimSpace(p.maxTotalSpend) == TrimSpace(q.maxTotalSpend)
            && p.allowBatch == q.allowBatch
  {
  }

  /** Requests with one intent hash agree on every limit. */
  lemma SameHashSameLimits(p: EvaluateRequest, q: EvaluateRequest)
    requires HashOf(p) == HashOf(q)
    ensures Numeric(p.maxPerTransfer) == Numeric(q.maxPerTransfer) && Numeric(p.maxTotalSpend) == Numeric(q.maxTotalSpend)
    ensures Numeric(p.amountAtomic) == Numeric(q.amountAtomic) && p.allowBatch == q.allowBatch
    ensures Lower(p.account) == Lower(q.account) && Lower(p.token) == Lower(q.token) && Lower(p.recipient) == Lower(q.recipient) && Lower(p.agentId) == Lower(q.agentId)
  {
  }

  /** A stored intent never changes, and an authorised session row never does either. */
  lemma StoredTermsAreFinal(rules: Rules, events: seq<Event>, more: seq<Event>, h: IntentHash, s: Word)
    ensures var db, later := RunApi(rules, EMPTY, events).db, RunApi(rules, RunApi(rules, EMPTY, events), more).db;
            && (h in db.intents ==> h in later.intents && later.intents[h] == db.intents[h])
            && (s in db.sessions ==> s in later.sessions && later.sessions[s] == db.sessions[s])
  {
    RunIsGood(rules, EMPTY, events);
    RunIsGood(rules, RunApi(rules, EMPTY, events), more);
  }

  // ---------- Where the tables' contents come from ----------

  lemma HandlersAnswer(rules: Rules)
    ensures Answers(HandlersFor(rules))
  {
    var h := HandlersFor(rules);
    forall db, q | h.prepare(db, q).Some? ensures AuthAsks(h.prepare(db, q).value, q) {
      PreparedIsAsked(rules, db, q);
    }
  }

  lemma PreparedIsAsked(rules: Rules, db: Db, q: RegisterRequest)
    requires Prepare(rules, db, q).Some?
    ensures AuthAsks(Prepare(rules, db, q).value, q)
  {
    hide ValidRow, ConfigOf, Lower;
  }

  lemma RunIsTraced(rules: Rules, events: seq<Event>)
    ensures Traced(Happened(events), RunApi(rules, EMPTY, events))
  {
    HandlersAnswer(rules);
    HandlersAreSound(rules);
    RunTraced(HandlersFor(rules), Fitness(rules), {}, EMPTY, events);
    assert {} + Happened(events) == Happened(events);
  }

  /** Every stored decision is one that was given, on the request, with the verdict and under the policy it is stored with;
      every stored intent was evaluated. */
  lemma DecisionsWereGiven(rules: Rules, events: seq<Event>, d: string, k: IntentHash)
    ensures var db := RunApi(rules, EMPTY, events).db;
            && (d in db.decisions ==> SaveDecision(d, db.decisions[d].judged, db.decisions[d].allow, db.decisions[d].policyHash) in events)
            && (k in db.intents ==> SaveIntent(db.intents[k].source) in events && k == HashOf(db.intents[k].source))
  {
    RunIsTraced(rules, events);
    RunIsGood(rules, EMPTY, events);
  }

  /** A decision that was not ALLOW is never consumed, in no interleaving. */
  lemma OnlyAllowedIsConsumed(rules: Rules, events: seq<Event>, d: string)
    requires var db := RunApi(rules, EMPTY, events).db; d in db.decisions && db.decisions[d].consumed.Some?
    ensures RunApi(rules, EMPTY, events).db.decisions[d].allow
  {
    hide Inv;
    var st := RunApi(rules, EMPTY, events);
    RunIsGood(rules, EMPTY, events);
    GoodTables(HandlersFor(rules), Fitness(rules), st);
    ConsumedIsAllowed(st, d);
  }

  lemma ConsumedIsAllowed(st: State, d: string)
    requires TablesOk(st) && d in st.db.decisions && st.db.decisions[d].consumed.Some?
    ensures st.db.decisions[d].allow
  {
    hide LocksOk, PendingOk, TxnsBacked, RowOfIntent;
    var s := st.db.decisions[d].consumed.value;
    assert s in st.db.sessions && SessionBound(st.db, s);
    var e :| e in st.db.decisions && st.db.decisions[e].consumed == Some(s) && RowBacked(st.db, e, st.db.sessions[s]);
    assert d == e;
  }

  /** In every interleaving, no two session rows share an account and nonce key, and no two intents an idempotency key. */
  lemma RowsAreUnique(rules: Rules, events: seq<Event>, s: Word, t: Word, j: IntentHash, k: IntentHash)
    ensures var db := RunApi(rules, EMPTY, events).db;
            && (s in db.sessions && t in db.sessions && SameLaneKey(db.sessions[s], db.sessions[t]) ==> s == t)
            && (j in db.intents && k in db.intents && db.intents[j].idempotencyKey == db.intents[k].idempotencyKey ==> j == k)
  {
    hide SameLaneKey;
    RunIsTraced(rules, events);
  }

  // ---------- Undisturbed calls ----------

  /** What an evaluation finds afterwards: its intent is stored if it was before, or if its numbers are numbers and its
      idempotency key is new; a decision on it is stored exactly if the intent is and the id is new. */
  lemma EvaluationStores(rules: Rules, db: Db, q: EvaluateRequest, d: string, allow: bool, policyHash: string)
    ensures HashOf(q) in StoreIntent(HandlersFor(rules), db, q).intents
       <==> || HashOf(q) in db.intents
            || (IntentOf(q).Some? && forall k | k in db.intents :: db.intents[k].idempotencyKey != q.idempotencyKey)
    ensures HashOf(q) !in db.intents && HashOf(q) in StoreIntent(HandlersFor(rules), db, q).intents ==>
              StoreIntent(HandlersFor(rules), db, q).intents == db.intents[HashOf(q) := IntentOf(q).value]
    ensures d !in db.decisions ==>
              (d in StoreDecision(HandlersFor(rules), db, d, q, allow, policyHash).decisions <==> IntentOf(q).Some? && HashOf(q) in db.intents)
  {
    hide HashOf, IntentOf;
  }

  /** A registration request can be prepared exactly with an ALLOW decision whose intent is stored, under the policy in force,
      with limits that fit each other, a window, a nonce key that is a number, and names that are more than blanks. */
  lemma PrepareIff(rules: Rules, db: Db, q: RegisterRequest)
    ensures Prepare(rules, db, q).Some?
       <==> && q.decisionId in db.decisions && db.decisions[q.decisionId].allow && db.decisions[q.decisionId].hash in db.intents
            && Lower(db.decisions[q.decisionId].policyHash) == Lower(rules.policyHash) && q.sessionKey != ""
            && var intent := db.intents[db.decisions[q.decisionId].hash];
            && 0 < intent.maxPerTransfer <= intent.maxTotalSpend && 0 < q.validAfter < q.validUntil
            && ParseDecimal(q.nonceKey).Some? && ParseDecimal(q.nonceKey).value >= 0 && TrimSpace(q.sessionKey) != ""
            && TrimSpace(intent.account) != "" && TrimSpace(intent.token) != "" && TrimSpace(intent.recipient) != ""
  {
    hide ConfigOf, Lower, TrimSpace, ParseDecimal;
  }

  /** No other transaction is under way. */
  predicate Alone(st: State, pid: nat) {
    && (pid in st.txns ==> st.txns[pid].Finished?)
    && forall p | p in st.txns && p != pid :: AuthOf(st.txns[p]).None?
  }

  /** The decision is free, the session unbound and the lane free; or it is a repeat. */
  predicate CanAuthorize(db: Db, a: Auth) {
    && a.decisionId in db.decisions && db.decisions[a.decisionId].allow
    && (|| db.decisions[a.decisionId].consumed == Some(a.sessionId)
        || (db.decisions[a.decisionId].consumed.None? && !BindingCommitted(db, a.sessionId) && !LaneCommitted(db, a.row)))
  }

  function Undisturbed(pid: nat, q: RegisterRequest): seq<Event> {
    [BeginRegister(pid, q), Step(pid), Step(pid), Step(pid), Step(pid), Step(pid)]
  }

  /** A registration that nothing disturbs ends: successfully exactly if it can be prepared and authorized; then its binding
      and row are stored, if they were not before, and otherwise the tables are as they were. */
  lemma UndisturbedRegistration(h: Handlers, fit: (Word, SessionRow) -> bool, st: State, pid: nat, q: RegisterRequest)
    requires Sound(h, fit) && Inv(h, fit, st) && Alone(st, pid)
    ensures var st', prepared := Run(h, st, Undisturbed(pid, q)), h.prepare(st.db, q);
            var ok := prepared.Some? && CanAuthorize(st.db, prepared.value);
            && pid in st'.txns && st'.txns[pid] == Finished(ok)
            && st'.db == if ok && st.db.decisions[prepared.value.decisionId].consumed.None? then Committed(st.db, prepared.value, true) else st.db
  {
    hide Sound, Inv, BindingCommitted, LaneCommitted, Committed, CanAuthorize;
    var st1 := Goto(st, pid, Reading(q));
    RunSixth(h, st, pid, q);
    var prepared := h.prepare(st.db, q);
    if prepared.Some? {
      var a := prepared.value;
      var st2 := Goto(st1, pid, Starting(a));
      PreparedTables(h, fit, st, q);
      AloneSteps(h, st, st2, pid, a);
    }
  }

  lemma PreparedTables(h: Handlers, fit: (Word, SessionRow) -> bool, st: State, q: RegisterRequest)
    requires Sound(h, fit) && Inv(h, fit, st) && h.prepare(st.db, q).Some?
    ensures SessionsOk(st.db) && RowBacked(st.db, h.prepare(st.db, q).value.decisionId, h.prepare(st.db, q).value.row)
  {
  }

  function Step4(h: Handlers, st: State, pid: nat): State {
    Apply(h, Apply(h, Apply(h, Apply(h, st, Step(pid)), Step(pid)), Step(pid)), Step(pid))
  }

  lemma RunSixth(h: Handlers, st: State, pid: nat, q: RegisterRequest)
    ensures Run(h, st, Undisturbed(pid, q)) == Step4(h, Apply(h, Apply(h, st, BeginRegister(pid, q)), Step(pid)), pid)
  {
    hide Apply;
    var s := Step(pid);
    assert Undisturbed(pid, q)[1..] == [s, s, s, s, s] && [s, s, s, s, s][1..] == [s, s, s, s] && [s, s, s, s][1..] == [s, s, s];
    assert [s, s, s][1..] == [s, s] && [s, s][1..] == [s] && [s][1..] == [];
    var st1 := Apply(h, st, BeginRegister(pid, q));
    var st5 := Step4(h, Apply(h, st1, s), pid);
    assert Run(h, st5, []) == st5;
    var st3 := Apply(h, Apply(h, st1, s), s);
    assert Run(h, Apply(h, Apply(h, st3, s), s), [s]) == st5;
    assert Run(h, Apply(h, st3, s), [s, s]) == st5;
    assert Run(h, st3, [s, s, s]) == st5;
    assert Run(h, Apply(h, st1, s), [s, s, s, s]) == st5;
    assert Run(h, st1, [s, s, s, s, s]) == st5;
  }

  /** The four steps of an authorization that has been prepared. */
  lemma AloneSteps(h: Handlers, st: State, st2: State, pid: nat, a: Auth)
    requires Alone(st, pid) && st2 == State(st.db, st.txns[pid := Starting(a)])
    requires SessionsOk(st.db) && a.decisionId in st.db.decisions && st.db.decisions[a.decisionId].allow
    ensures var st', ok := Step4(h, st2, pid), CanAuthorize(st.db, a);
            && pid in st'.txns && st'.txns[pid] == Finished(ok)
            && st'.db == if ok && st.db.decisions[a.decisionId].consumed.None? then Committed(st.db, a, true) else st.db
  {
    hide SessionsOk, Committed, BindingCommitted, LaneCommitted;
    SessionIsCommitted(st.db, a.sessionId);
    assert !RowLocked(st2, a.decisionId);
    if st.db.decisions[a.decisionId].consumed.None? {
      var st3 := Goto(st2, pid, Selected(a));
      assert Apply(h, st2, Step(pid)) == st3;
      assert !BindingPending(st3, a.sessionId);
      if !BindingCommitted(st.db, a.sessionId) {
        var st4 := Goto(st3, pid, Bound(a));
        assert Apply(h, st3, Step(pid)) == st4;
        assert !LanePending(st4, a.row);
      }
    }
  }
}
