/** Where the tables' contents come from: every decision, intent and session row goes back to the event that brought it. */
module AuthorizationHistory {
  import opened Basics
  import opened Words
  import opened SessionAuthorization

  type Past = set<Event>

  // ---------- What is traced ----------

  predicate DecisionsGiven(past: Past, db: Db) {
    forall id | id in db.decisions ::
      SaveDecision(id, db.decisions[id].judged, db.decisions[id].allow, db.decisions[id].policyHash) in past
  }

  predicate IntentsGiven(past: Past, db: Db) {
    forall k | k in db.intents :: SaveIntent(db.intents[k].source) in past
  }

  /** The row's key, nonce key and window are the request's. */
  predicate RowAsks(row: SessionRow, q: RegisterRequest) {
    row.sessionKey == q.sessionKey && row.nonceKey == q.nonceKey && row.validAfter == q.validAfter && row.validUntil == q.validUntil
  }

  predicate AuthAsks(a: Auth, q: RegisterRequest) {
    a.decisionId == q.decisionId && RowAsks(a.row, q)
  }

  /** The transaction is what some request of its process asked for. */
  predicate Asked(past: Past, pid: nat, a: Auth) {
    exists e | e in past :: e.BeginRegister? && e.pid == pid && AuthAsks(a, e.request)
  }

  predicate TxnAsked(past: Past, pid: nat, t: Txn) {
    && (t.Reading? ==> BeginRegister(pid, t.q) in past)
    && (AuthOf(t).Some? ==> Asked(past, pid, AuthOf(t).value))
  }

  predicate TxnsAsked(past: Past, st: State) {
    forall p | p in st.txns :: TxnAsked(past, p, st.txns[p])
  }

  /** A session row is what some request asked for, on the decision bound to it. */
  predicate SessionAsked(past: Past, db: Db, s: Word)
    requires s in db.sessions
  {
    exists e | e in past ::
      && e.BeginRegister? && e.request.decisionId in db.decisions && db.decisions[e.request.decisionId].consumed == Some(s)
      && RowAsks(db.sessions[s], e.request)
  }

  predicate SessionsAsked(past: Past, db: Db) {
    forall s | s in db.sessions :: SessionAsked(past, db, s)
  }

  /** No two session rows, stored or about to be, share an account and nonce key. */
  predicate LanesDistinct(st: State) {
    && (forall s, t | s in st.db.sessions && t in st.db.sessions && SameLaneKey(st.db.sessions[s], st.db.sessions[t]) :: s == t)
    && (forall p | p in st.txns && Adds(st.txns[p]) :: !LaneCommitted(st.db, st.txns[p].a.row))
    && (forall p, r | p in st.txns && r in st.txns && Adds(st.txns[p]) && Adds(st.txns[r]) && SameLaneKey(st.txns[p].a.row, st.txns[r].a.row) :: p == r)
  }

  predicate Adds(t: Txn) {
    t.Inserted? && t.added
  }

  /** No two stored intents share an idempotency key. */
  predicate KeysDistinct(db: Db) {
    forall j, k | j in db.intents && k in db.intents && db.intents[j].idempotencyKey == db.intents[k].idempotencyKey :: j == k
  }

  predicate Traced(past: Past, st: State) {
    && DecisionsGiven(past, st.db) && IntentsGiven(past, st.db) && TxnsAsked(past, st) && SessionsAsked(past, st.db)
    && LanesDistinct(st) && KeysDistinct(st.db)
  }

  // ---------- Evaluations ----------

  lemma PastGrows(past: Past, more: Past, st: State)
    requires past <= more && Traced(past, st)
    ensures Traced(more, st)
  {
    hide AuthAsks, RowAsks, LanesDistinct, KeysDistinct;
    forall p | p in st.txns ensures TxnAsked(more, p, st.txns[p]) {
      assert TxnAsked(past, p, st.txns[p]);
    }
    forall s | s in st.db.sessions ensures SessionAsked(more, st.db, s) {
      assert SessionAsked(past, st.db, s);
    }
  }

  lemma IntentTraced(h: Handlers, past: Past, st: State, q: EvaluateRequest)
    requires SourcesKept(h) && Traced(past, st) && SaveIntent(q) in past
    ensures Traced(past, st.(db := StoreIntent(h, st.db, q)))
  {
    hide TxnAsked, LaneCommitted, SameLaneKey, RowAsks;
    var db := StoreIntent(h, st.db, q);
    assert db.decisions == st.db.decisions && db.sessions == st.db.sessions;
    forall s | s in db.sessions ensures SessionAsked(past, db, s) {
      assert SessionAsked(past, st.db, s);
    }
    SameSessionsSameLanes(st, db);
  }

  lemma SameSessionsSameLanes(st: State, db: Db)
    requires LanesDistinct(st) && db.sessions == st.db.sessions
    ensures LanesDistinct(st.(db := db))
  {
    forall p | p in st.txns && Adds(st.txns[p]) ensures !LaneCommitted(db, st.txns[p].a.row) {
      assert !LaneCommitted(st.db, st.txns[p].a.row);
    }
  }

  lemma DecisionTraced(h: Handlers, past: Past, st: State, id: string, q: EvaluateRequest, allow: bool, policyHash: string)
    requires Traced(past, st) && SaveDecision(id, q, allow, policyHash) in past
    ensures Traced(past, st.(db := StoreDecision(h, st.db, id, q, allow, policyHash)))
  {
    hide TxnAsked, LaneCommitted, SameLaneKey, RowAsks;
    var db := StoreDecision(h, st.db, id, q, allow, policyHash);
    assert db.sessions == st.db.sessions && db.intents == st.db.intents;
    forall s | s in db.sessions ensures SessionAsked(past, db, s) {
      assert SessionAsked(past, st.db, s);
    }
    SameSessionsSameLanes(st, db);
  }

  // ---------- Registrations ----------

  lemma MoveTraced(past: Past, st: State, pid: nat, t: Txn)
    requires Traced(past, st) && TxnAsked(past, pid, t)
    requires Adds(t) ==> !LanePending(st, t.a.row) && !LaneCommitted(st.db, t.a.row)
    ensures Traced(past, Goto(st, pid, t))
  {
    hide TxnAsked, LaneCommitted, SameLaneKey, RowAsks, KeysDistinct;
    var st' := Goto(st, pid, t);
    forall p, r | p in st'.txns && r in st'.txns && Adds(st'.txns[p]) && Adds(st'.txns[r]) && SameLaneKey(st'.txns[p].a.row, st'.txns[r].a.row)
      ensures p == r
    {
      SameLaneSymmetric(st'.txns[p].a.row, st'.txns[r].a.row);
    }
  }

  lemma SameLaneSymmetric(a: SessionRow, b: SessionRow)
    ensures SameLaneKey(a, b) == SameLaneKey(b, a)
  {
  }

  lemma CommitTraced(past: Past, st: State, pid: nat, ok: bool)
    requires TablesOk(st) && Traced(past, st) && pid in st.txns && st.txns[pid].Inserted?
    ensures Traced(past, AfterCommit(st, pid, ok))
  {
    var a, added := st.txns[pid].a, st.txns[pid].added;
    assert TxnAsked(past, pid, st.txns[pid]);
    CommitKeepsTables(st, pid, ok);
    CommitKeepsLocks(st, pid, ok);
    InsertionIsFresh(st, pid);
    CommitLanes(st, pid, ok);
    CommitSessionsAsked(past, st.db, a, added, pid);
    CommitDecisionsGiven(past, st.db, a, added);
    CommitTxnsAsked(past, st, pid, ok);
    CommitIntentsKept(past, st.db, a, added);
    hide TxnsAsked, LanesDistinct, SessionsAsked, DecisionsGiven, IntentsGiven, KeysDistinct, Committed, TablesOk;
  }

  lemma CommitTxnsAsked(past: Past, st: State, pid: nat, ok: bool)
    requires TxnsAsked(past, st) && pid in st.txns && st.txns[pid].Inserted?
    ensures TxnsAsked(past, AfterCommit(st, pid, ok))
  {
    hide TxnAsked, Committed;
    FinishedAsksNothing(past, pid, ok);
  }

  lemma CommitIntentsKept(past: Past, db: Db, a: Auth, added: bool)
    requires IntentsGiven(past, db) && KeysDistinct(db)
    ensures IntentsGiven(past, Committed(db, a, added)) && KeysDistinct(Committed(db, a, added))
  {
    assert Committed(db, a, added).intents == db.intents;
  }

  lemma FinishedAsksNothing(past: Past, pid: nat, ok: bool)
    ensures TxnAsked(past, pid, Finished(ok))
  {
  }

  lemma CommitDecisionsGiven(past: Past, db: Db, a: Auth, added: bool)
    requires DecisionsGiven(past, db)
    ensures DecisionsGiven(past, Committed(db, a, added))
  {
  }

  lemma CommitSessionsAsked(past: Past, db: Db, a: Auth, added: bool, pid: nat)
    requires SessionsAsked(past, db) && Asked(past, pid, a) && Unconsumed(db, a.decisionId) && a.sessionId !in db.sessions
    ensures SessionsAsked(past, Committed(db, a, added))
  {
    hide RowAsks;
    var db' := Committed(db, a, added);
    forall s | s in db'.sessions ensures SessionAsked(past, db', s) {
      if s == a.sessionId {
        var e :| e in past && e.BeginRegister? && e.pid == pid && AuthAsks(a, e.request);
        assert db'.decisions[e.request.decisionId].consumed == Some(s);
      } else {
        assert SessionAsked(past, db, s);
        var e :| && e in past && e.BeginRegister? && e.request.decisionId in db.decisions && db.decisions[e.request.decisionId].consumed == Some(s)
                 && RowAsks(db.sessions[s], e.request);
        assert db'.decisions[e.request.decisionId].consumed == Some(s);
      }
    }
  }

  lemma CommitLanes(st: State, pid: nat, ok: bool)
    requires LanesDistinct(st) && RowsPresent(st) && pid in st.txns && st.txns[pid].Inserted?
    requires st.txns[pid].a.sessionId !in st.db.sessions && st.txns[pid].a.decisionId in st.db.decisions
    ensures LanesDistinct(AfterCommit(st, pid, ok))
  {
    var a, st' := st.txns[pid].a, AfterCommit(st, pid, ok);
    assert Adds(st.txns[pid]) && !LaneCommitted(st.db, a.row);
    assert st'.db.sessions == st.db.sessions[a.sessionId := a.row];
    forall p | p in st'.txns && Adds(st'.txns[p]) ensures !LaneCommitted(st'.db, st'.txns[p].a.row) {
      assert p != pid && !LaneCommitted(st.db, st.txns[p].a.row);
      SameLaneSymmetric(a.row, st.txns[p].a.row);
    }
    forall s | s in st.db.sessions ensures !SameLaneKey(st.db.sessions[s], a.row) && !SameLaneKey(a.row, st.db.sessions[s]) {
      SameLaneSymmetric(a.row, st.db.sessions[s]);
    }
  }

  /** What the handler prepares is what the request asked for. */
  ghost predicate Answers(h: Handlers) {
    forall db, q | h.prepare(db, q).Some? :: AuthAsks(h.prepare(db, q).value, q)
  }

  lemma StepTraced(h: Handlers, past: Past, st: State, pid: nat)
    requires Answers(h) && TablesOk(st) && Traced(past, st) && pid in st.txns
    ensures Traced(past, StepTxn(h, st, pid))
  {
    hide Traced, TablesOk, Adds, LanePending, LaneCommitted, BindingPending, BindingCommitted, RowLocked;
    assert TxnAsked(past, pid, st.txns[pid]) by {
      OneAsked(past, st, pid);
    }
    if st.txns[pid].Inserted? {
      CommitTraced(past, st, pid, true);
    } else if StepTxn(h, st, pid) != st {
      StepAsked(h, past, st, pid);
      MoveTraced(past, st, pid, StepTxn(h, st, pid).txns[pid]);
    }
  }

  lemma OneAsked(past: Past, st: State, pid: nat)
    requires Traced(past, st) && pid in st.txns
    ensures TxnAsked(past, pid, st.txns[pid])
  {
  }

  lemma StepAsked(h: Handlers, past: Past, st: State, pid: nat)
    requires Answers(h) && pid in st.txns && !st.txns[pid].Inserted? && TxnAsked(past, pid, st.txns[pid])
    requires StepTxn(h, st, pid) != st
    ensures pid in StepTxn(h, st, pid).txns && StepTxn(h, st, pid) == Goto(st, pid, StepTxn(h, st, pid).txns[pid])
    ensures var t := StepTxn(h, st, pid).txns[pid];
            TxnAsked(past, pid, t) && (Adds(t) ==> !LanePending(st, t.a.row) && !LaneCommitted(st.db, t.a.row))
  {
    hide RowAsks, LanePending, LaneCommitted, BindingPending, BindingCommitted, RowLocked;
    if st.txns[pid].Reading? && h.prepare(st.db, st.txns[pid].q).Some? {
      assert AuthAsks(h.prepare(st.db, st.txns[pid].q).value, st.txns[pid].q);
      assert BeginRegister(pid, st.txns[pid].q) in past;
    }
  }

  lemma DropTraced(past: Past, st: State, pid: nat, t: Txn)
    requires Traced(past, st) && AuthOf(t).None? && (t.Reading? ==> BeginRegister(pid, t.q) in past)
    ensures Traced(past, Goto(st, pid, t))
  {
    hide Traced;
    MoveTraced(past, st, pid, t);
  }

  lemma ApplyTraced(h: Handlers, past: Past, st: State, ev: Event)
    requires Answers(h) && SourcesKept(h) && TablesOk(st) && Traced(past, st) && ev in past
    ensures Traced(past, Apply(h, st, ev))
  {
    hide Traced, TablesOk, StoreIntent, StoreDecision, StepTxn, AfterCommit, Answers, SourcesKept;
    match ev
    case SaveIntent(q) => IntentTraced(h, past, st, q);
    case SaveDecision(id, q, allow, policyHash) => DecisionTraced(h, past, st, id, q, allow, policyHash);
    case BeginRegister(pid, q) => DropTraced(past, st, pid, Reading(q));
    case Step(pid) => if pid in st.txns { StepTraced(h, past, st, pid); }
    case CommitUnknown(pid) => if pid in st.txns && st.txns[pid].Inserted? { CommitTraced(past, st, pid, false); }
    case Abort(pid) => DropTraced(past, st, pid, Finished(false));
  }

  function Happened(events: seq<Event>): Past {
    set e | e in events
  }

  lemma HappenedNext(past: Past, events: seq<Event>)
    requires events != []
    ensures past + {events[0]} + Happened(events[1..]) == past + Happened(events)
  {
    assert events == [events[0]] + events[1..];
  }

  lemma {:induction false} RunTraced(h: Handlers, fit: (Word, SessionRow) -> bool, past: Past, st: State, events: seq<Event>)
    requires Answers(h) && Sound(h, fit) && Inv(h, fit, st) && Traced(past, st)
    ensures Traced(past + Happened(events), Run(h, st, events))
    decreases |events|
  {
    assert SourcesKept(h);
    assert TablesOk(st);
    hide Answers, Sound, Traced, Apply, SourcesKept, TablesOk, Inv;
    if events == [] {
      assert past + Happened(events) == past;
    } else {
      hide Happened;
      var now := past + {events[0]};
      PastGrows(past, now, st);
      ApplyTraced(h, now, st, events[0]);
      ApplyKeepsInv(h, fit, st, events[0]);
      RunTraced(h, fit, now, Apply(h, st, events[0]), events[1..]);
      HappenedNext(past, events);
    }
  }
}
