/** Evaluating intents and registering sessions against Postgres, interleaved statement by statement.

    An authorization is a transaction: it locks its decision row, binds it, inserts the session row and commits; its
    writes are visible to others only after the commit, and a unique key held by an open transaction makes others wait.
 */
module SessionAuthorization {
  import opened Basics
  import opened Words
  import opened SessionTypes
  import opened SessionId
  import opened BudgetKeys

  datatype EvaluateRequest = EvaluateRequest(
    agentId: string, account: string, chainId: int, token: string, recipient: string, amountAtomic: string,
    maxPerTransfer: string, maxTotalSpend: string, allowBatch: bool,
    domain: string, path: string, httpMethod: string, idempotencyKey: string)

  /** The canonical form an intent hash is taken of; the hash is injective, so the form itself serves as the hash. */
  datatype IntentHash = IntentHash(
    agentId: string, account: string, chainId: int, token: string, recipient: string, amountAtomic: string,
    domain: string, path: string, httpMethod: string, maxPerTransfer: string, maxTotalSpend: string, allowBatch: bool)

  function HashOf(q: EvaluateRequest): IntentHash {
    IntentHash(Lower(q.agentId), Lower(q.account), q.chainId, Lower(q.token), Lower(q.recipient), q.amountAtomic,
               Lower(q.domain), q.path, Upper(q.httpMethod), TrimSpace(q.maxPerTransfer), TrimSpace(q.maxTotalSpend), q.allowBatch)
  }

  /** A numeric column's reading of an integer literal. */
  function Numeric(text: string): Option<int> {
    ParseDecimal(TrimSpace(text))
  }

  /** A stored intent; `source` is the request it was stored for. */
  datatype Intent = Intent(
    agentId: string, account: string, token: string, recipient: string, amount: int,
    maxPerTransfer: int, maxTotalSpend: int, allowBatch: bool, idempotencyKey: string, source: EvaluateRequest)

  function IntentOf(q: EvaluateRequest): Option<Intent> {
    if Numeric(q.amountAtomic).None? || Numeric(q.maxPerTransfer).None? || Numeric(q.maxTotalSpend).None? then None
    else Some(Intent(q.agentId, q.account, q.token, q.recipient, Numeric(q.amountAtomic).value,
                     Numeric(q.maxPerTransfer).value, Numeric(q.maxTotalSpend).value, q.allowBatch, q.idempotencyKey, q))
  }

  /** A decision, the request it judged, and the session it was consumed by, if any. */
  datatype Decision = Decision(hash: IntentHash, allow: bool, policyHash: string, consumed: Option<Word>, judged: EvaluateRequest)

  datatype RegisterRequest = RegisterRequest(decisionId: string, sessionKey: string, nonceKey: string, validAfter: int, validUntil: int)

  datatype SessionRow = SessionRow(
    account: string, agentId: string, sessionKey: string, token: string, recipient: string, nonceKey: string,
    maxPerTransfer: int, maxTotalSpend: int, validAfter: int, validUntil: int, allowBatch: bool, policyHash: string)

  datatype Db = Db(intents: map<IntentHash, Intent>, decisions: map<string, Decision>, sessions: map<Word, SessionRow>)

  /** What one authorization is about: its decision, the derived session id and the row to insert. */
  datatype Auth = Auth(decisionId: string, sessionId: Word, row: SessionRow)

  datatype Txn =
    | Reading(q: RegisterRequest)          // before GetAllowDecision
    | Starting(a: Auth)                    // before SELECT .. FOR UPDATE
    | Selected(a: Auth)                    // decision row locked, not yet consumed
    | Bound(a: Auth)                       // decision updated, not committed
    | Inserted(a: Auth, added: bool)       // session row inserted (or found present), not committed
    | Finished(ok: bool)

  datatype State = State(db: Db, txns: map<nat, Txn>)

  /** Deployment constants; `addressOf` parses a hex address. */
  datatype Rules = Rules(chainId: nat, adapter: Address, addressOf: string -> Address, policyHash: string)

  datatype Event =
    | SaveIntent(q: EvaluateRequest)
    | SaveDecision(decisionId: string, q: EvaluateRequest, allow: bool, policyHash: string)
    | BeginRegister(pid: nat, request: RegisterRequest)
    | Step(pid: nat)
    | CommitUnknown(pid: nat)   // the commit takes effect but its reply is lost
    | Abort(pid: nat)

  /** What the handlers compute without touching a table; the machine and its invariant are the same for any of them. */
  datatype Handlers = Handlers(
    hashOf: EvaluateRequest -> IntentHash, intentOf: EvaluateRequest -> Option<Intent>,
    prepare: (Db, RegisterRequest) -> Option<Auth>)

  function HandlersFor(rules: Rules): Handlers {
    Handlers(HashOf, IntentOf, (db, q) => Prepare(rules, db, q))
  }

  // ---------- Evaluation ----------

  /** INSERT .. ON CONFLICT (intent_hash) DO NOTHING, refused on a used idempotency key or a non-numeric amount. */
  function StoreIntent(h: Handlers, db: Db, q: EvaluateRequest): Db {
    if h.intentOf(q).None? || h.hashOf(q) in db.intents then db
    else if exists k | k in db.intents :: db.intents[k].idempotencyKey == q.idempotencyKey then db
    else db.(intents := db.intents[h.hashOf(q) := h.intentOf(q).value])
  }

  /** The decision is saved once its intent was. */
  function StoreDecision(h: Handlers, db: Db, decisionId: string, q: EvaluateRequest, allow: bool, policyHash: string): Db {
    if h.intentOf(q).None? || h.hashOf(q) !in db.intents || decisionId in db.decisions then db
    else db.(decisions := db.decisions[decisionId := Decision(h.hashOf(q), allow, policyHash, None, q)])
  }

  // ---------- Registration ----------

  function RowFor(q: RegisterRequest, intent: Intent, policyHash: string): SessionRow {
    SessionRow(intent.account, intent.agentId, q.sessionKey, intent.token, intent.recipient, q.nonceKey,
               intent.maxPerTransfer, intent.maxTotalSpend, q.validAfter, q.validUntil, intent.allowBatch, policyHash)
  }

  /** ValidateV1 on what varies. */
  predicate ValidRow(row: SessionRow) {
    && TrimSpace(row.account) != "" && TrimSpace(row.sessionKey) != "" && TrimSpace(row.token) != "" && TrimSpace(row.recipient) != ""
    && ParseDecimal(row.nonceKey).Some? && ParseDecimal(row.nonceKey).value >= 0
    && 0 < row.maxPerTransfer <= row.maxTotalSpend
    && 0 < row.validAfter < row.validUntil
  }

  /** The on-chain configuration a row describes, with the id derived for it. */
  function ConfigOf(rules: Rules, row: SessionRow): SessionConfig
    requires ValidRow(row)
  {
    var token := rules.addressOf(row.token);
    var c := SessionConfig(Num(0), KeccakBytes([]), rules.addressOf(row.account), rules.addressOf(row.sessionKey), token, token,
                           rules.addressOf(row.recipient), TRANSFER_SELECTOR, ParseDecimal(row.nonceKey).value,
                           row.maxPerTransfer, row.maxTotalSpend, row.validAfter, row.validUntil, row.allowBatch, false);
    c.(sessionId := DeriveFromConfig(rules.chainId, rules.adapter, c))
  }

  /** The handler's work before the transaction: read the decision and its intent, check them, derive the id. */
  function Prepare(rules: Rules, db: Db, q: RegisterRequest): Option<Auth> {
    if q.decisionId !in db.decisions || !db.decisions[q.decisionId].allow then None
    else
      var d := db.decisions[q.decisionId];
      if d.hash !in db.intents || Lower(d.policyHash) != Lower(rules.policyHash) then None
      else
        var row := RowFor(q, db.intents[d.hash], d.policyHash);
        if q.sessionKey == "" || !ValidRow(row) then None
        else Some(Auth(q.decisionId, ConfigOf(rules, row).sessionId, row))
  }

  /** The open transaction's authorization, once it holds its decision row. */
  function Holding(t: Txn): Option<Auth> {
    match t
    case Selected(a) => Some(a)
    case Bound(a) => Some(a)
    case Inserted(a, _) => Some(a)
    case _ => None
  }

  /** The authorization whose binding an open transaction has written. */
  function Binding(t: Txn): Option<Auth> {
    match t
    case Bound(a) => Some(a)
    case Inserted(a, _) => Some(a)
    case _ => None
  }

  predicate RowLocked(st: State, decisionId: string) {
    exists p | p in st.txns :: Holding(st.txns[p]).Some? && Holding(st.txns[p]).value.decisionId == decisionId
  }

  /** Another open transaction has bound some decision to the session. */
  predicate BindingPending(st: State, sessionId: Word) {
    exists p | p in st.txns :: Binding(st.txns[p]).Some? && Binding(st.txns[p]).value.sessionId == sessionId
  }

  predicate BindingCommitted(db: Db, sessionId: Word) {
    exists d | d in db.decisions :: db.decisions[d].consumed == Some(sessionId)
  }

  predicate SameLaneKey(a: SessionRow, b: SessionRow) {
    a.account == b.account && a.nonceKey == b.nonceKey
  }

  /** Another open transaction has inserted a row with the same account and nonce key. */
  predicate LanePending(st: State, row: SessionRow) {
    exists p | p in st.txns && st.txns[p].Inserted? :: st.txns[p].added && SameLaneKey(st.txns[p].a.row, row)
  }

  predicate LaneCommitted(db: Db, row: SessionRow) {
    exists s | s in db.sessions :: SameLaneKey(db.sessions[s], row)
  }

  function Goto(st: State, pid: nat, t: Txn): State {
    st.(txns := st.txns[pid := t])
  }

  function ReadStep(h: Handlers, st: State, pid: nat, q: RegisterRequest): State {
    match h.prepare(st.db, q)
    case None => Goto(st, pid, Finished(false))
    case Some(a) => Goto(st, pid, Starting(a))
  }

  function SelectStep(st: State, pid: nat, a: Auth): State {
    if RowLocked(st, a.decisionId) then st
    else if a.decisionId !in st.db.decisions || !st.db.decisions[a.decisionId].allow then Goto(st, pid, Finished(false))
    else if st.db.decisions[a.decisionId].consumed.Some? then Goto(st, pid, Finished(st.db.decisions[a.decisionId].consumed == Some(a.sessionId)))
    else Goto(st, pid, Selected(a))
  }

  function BindStep(st: State, pid: nat, a: Auth): State {
    if BindingPending(st, a.sessionId) then st
    else if BindingCommitted(st.db, a.sessionId) then Goto(st, pid, Finished(false))
    else Goto(st, pid, Bound(a))
  }

  function InsertStep(st: State, pid: nat, a: Auth): State {
    if a.sessionId in st.db.sessions then Goto(st, pid, Inserted(a, false))
    else if LanePending(st, a.row) then st
    else if LaneCommitted(st.db, a.row) then Goto(st, pid, Finished(false))
    else Goto(st, pid, Inserted(a, true))
  }

  function Committed(db: Db, a: Auth, added: bool): Db {
    if a.decisionId !in db.decisions then db
    else
      Db(db.intents,
         db.decisions[a.decisionId := db.decisions[a.decisionId].(consumed := Some(a.sessionId))],
         if added then db.sessions[a.sessionId := a.row] else db.sessions)
  }

  /** The state after an open insertion commits. */
  function AfterCommit(st: State, pid: nat, ok: bool): State
    requires pid in st.txns && st.txns[pid].Inserted?
  {
    State(Committed(st.db, st.txns[pid].a, st.txns[pid].added), st.txns[pid := Finished(ok)])
  }

  function StepTxn(h: Handlers, st: State, pid: nat): State
    requires pid in st.txns
  {
    match st.txns[pid]
    case Reading(q) => ReadStep(h, st, pid, q)
    case Starting(a) => SelectStep(st, pid, a)
    case Selected(a) => BindStep(st, pid, a)
    case Bound(a) => InsertStep(st, pid, a)
    case Inserted(_, _) => AfterCommit(st, pid, true)
    case Finished(_) => st
  }

  function Apply(h: Handlers, st: State, ev: Event): State {
    match ev
    case SaveIntent(q) => st.(db := StoreIntent(h, st.db, q))
    case SaveDecision(id, q, allow, policyHash) => st.(db := StoreDecision(h, st.db, id, q, allow, policyHash))
    case BeginRegister(pid, q) => if pid in st.txns && !st.txns[pid].Finished? then st else Goto(st, pid, Reading(q))
    case Step(pid) => if pid in st.txns then StepTxn(h, st, pid) else st
    case CommitUnknown(pid) =>
      if pid in st.txns && st.txns[pid].Inserted?
      then AfterCommit(st, pid, false)
      else st
    case Abort(pid) => if pid in st.txns then Goto(st, pid, Finished(false)) else st
  }

  function Run(h: Handlers, st: State, events: seq<Event>): State
    decreases |events|
  {
    if events == [] then st else Run(h, Apply(h, st, events[0]), events[1..])
  }

  const EMPTY: State := State(Db(map[], map[], map[]), map[])

  // ---------- The invariant ----------

  predicate IntentsOk(h: Handlers, db: Db) {
    forall k | k in db.intents :: h.hashOf(db.intents[k].source) == k && h.intentOf(db.intents[k].source) == Some(db.intents[k])
  }

  predicate DecisionsOk(h: Handlers, db: Db) {
    forall d | d in db.decisions :: db.decisions[d].hash in db.intents && h.hashOf(db.decisions[d].judged) == db.decisions[d].hash
  }

  /** A row carries the limits of the intent behind an ALLOW decision, and the policy of that decision. */
  predicate RowBacked(db: Db, decisionId: string, row: SessionRow) {
    && decisionId in db.decisions
    && db.decisions[decisionId].allow
    && db.decisions[decisionId].hash in db.intents
    && row.policyHash == db.decisions[decisionId].policyHash
    && RowOfIntent(row, db.intents[db.decisions[decisionId].hash])
  }

  predicate RowOfIntent(row: SessionRow, intent: Intent) {
    && row.account == intent.account && row.agentId == intent.agentId && row.token == intent.token && row.recipient == intent.recipient
    && row.maxPerTransfer == intent.maxPerTransfer && row.maxTotalSpend == intent.maxTotalSpend && row.allowBatch == intent.allowBatch
  }

  /** A row is valid, made under the policy in force, and stands under the id derived for it. */
  predicate RowFits(rules: Rules, sessionId: Word, row: SessionRow) {
    ValidRow(row) && Lower(row.policyHash) == Lower(rules.policyHash) && sessionId == ConfigOf(rules, row).sessionId
  }

  predicate SessionBound(db: Db, s: Word)
    requires s in db.sessions
  {
    exists d | d in db.decisions :: db.decisions[d].consumed == Some(s) && RowBacked(db, d, db.sessions[s])
  }

  predicate SessionsOk(db: Db) {
    forall s | s in db.sessions :: SessionBound(db, s)
  }

  /** A session is bound by at most one decision. */
  predicate BindingsInjective(db: Db) {
    forall d, e | d in db.decisions && e in db.decisions && db.decisions[d].consumed.Some? && db.decisions[d].consumed == db.decisions[e].consumed :: d == e
  }

  function AuthOf(t: Txn): Option<Auth> {
    match t
    case Starting(a) => Some(a)
    case Selected(a) => Some(a)
    case Bound(a) => Some(a)
    case Inserted(a, _) => Some(a)
    case _ => None
  }

  predicate TxnBacked(db: Db, t: Txn) {
    AuthOf(t).Some? ==> RowBacked(db, AuthOf(t).value.decisionId, AuthOf(t).value.row)
  }

  predicate TxnsBacked(st: State) {
    forall p | p in st.txns :: TxnBacked(st.db, st.txns[p])
  }

  /** A held decision row is held by one transaction and still unconsumed. */
  predicate LocksOk(st: State) {
    && (forall p | p in st.txns && Holding(st.txns[p]).Some? :: Unconsumed(st.db, Holding(st.txns[p]).value.decisionId))
    && (forall p, r | p in st.txns && r in st.txns && Holding(st.txns[p]).Some? && Holding(st.txns[r]).Some? ::
          Holding(st.txns[p]).value.decisionId == Holding(st.txns[r]).value.decisionId ==> p == r)
  }

  predicate Unconsumed(db: Db, decisionId: string) {
    decisionId in db.decisions && db.decisions[decisionId].consumed.None?
  }

  /** A binding not yet committed is for a session no other decision is bound to, committed or not. */
  predicate PendingOk(st: State) {
    && (forall p | p in st.txns && Binding(st.txns[p]).Some? :: !BindingCommitted(st.db, Binding(st.txns[p]).value.sessionId))
    && (forall p, r | p in st.txns && r in st.txns && Binding(st.txns[p]).Some? && Binding(st.txns[r]).Some? ::
          Binding(st.txns[p]).value.sessionId == Binding(st.txns[r]).value.sessionId ==> p == r)
  }

  /** A consumed decision has its session row, and an open insertion is always a new row. */
  predicate RowsPresent(st: State) {
    && (forall d | d in st.db.decisions && st.db.decisions[d].consumed.Some? :: st.db.decisions[d].consumed.value in st.db.sessions)
    && (forall p | p in st.txns && st.txns[p].Inserted? :: st.txns[p].added)
  }

  /** Every session row and every open authorization passes `fit`. */
  predicate AllFit(fit: (Word, SessionRow) -> bool, st: State) {
    && (forall s | s in st.db.sessions :: fit(s, st.db.sessions[s]))
    && (forall p | p in st.txns && AuthOf(st.txns[p]).Some? :: fit(AuthOf(st.txns[p]).value.sessionId, AuthOf(st.txns[p]).value.row))
  }

  /** The part of the invariant about who holds and binds what. */
  predicate TablesOk(st: State) {
    SessionsOk(st.db) && BindingsInjective(st.db) && TxnsBacked(st) && LocksOk(st) && PendingOk(st) && RowsPresent(st)
  }

  /** The rules' fitness test, as a value: proofs about tables carry it along unopened. */
  function Fitness(rules: Rules): (Word, SessionRow) -> bool {
    (sessionId, row) => RowFits(rules, sessionId, row)
  }

  /** What is prepared is backed by the decision read and passes `fit`, and an intent remembers its request. */
  ghost predicate Sound(h: Handlers, fit: (Word, SessionRow) -> bool) {
    && SourcesKept(h)
    && (forall db, q | h.prepare(db, q).Some? ::
          var a := h.prepare(db, q).value; RowBacked(db, a.decisionId, a.row) && fit(a.sessionId, a.row))
  }

  ghost predicate SourcesKept(h: Handlers) {
    forall q | h.intentOf(q).Some? :: h.intentOf(q).value.source == q && h.intentOf(q).value.idempotencyKey == q.idempotencyKey
  }

  predicate Inv(h: Handlers, fit: (Word, SessionRow) -> bool, st: State) {
    IntentsOk(h, st.db) && DecisionsOk(h, st.db) && TablesOk(st) && AllFit(fit, st)
  }

  /** What one step may do to the tables: intents stay, bindings stay, sessions stay. */
  predicate Evolves(a: Db, b: Db) {
    && (forall h | h in a.intents :: h in b.intents && b.intents[h] == a.intents[h])
    && (forall d | d in a.decisions :: d in b.decisions && SameDecision(a.decisions[d], b.decisions[d]))
    && (forall s | s in a.sessions :: s in b.sessions && b.sessions[s] == a.sessions[s])
  }

  predicate SameDecision(a: Decision, b: Decision) {
    b == a || (a.consumed.None? && b == a.(consumed := b.consumed))
  }

  // ---------- Steps ----------

  lemma RowStaysBacked(a: Db, b: Db, decisionId: string, row: SessionRow)
    requires Evolves(a, b) && RowBacked(a, decisionId, row)
    ensures RowBacked(b, decisionId, row)
  {
    assert SameDecision(a.decisions[decisionId], b.decisions[decisionId]);
  }

  lemma SessionStaysBound(a: Db, b: Db, s: Word)
    requires Evolves(a, b) && s in a.sessions && SessionBound(a, s)
    ensures s in b.sessions && SessionBound(b, s)
  {
    var d :| d in a.decisions && a.decisions[d].consumed == Some(s) && RowBacked(a, d, a.sessions[s]);
    assert SameDecision(a.decisions[d], b.decisions[d]);
    RowStaysBacked(a, b, d, a.sessions[s]);
  }

  /** Evaluations add unconsumed decisions only. */
  predicate Evaluated(a: Db, b: Db) {
    && b.sessions == a.sessions
    && (forall h | h in a.intents :: h in b.intents && b.intents[h] == a.intents[h])
    && (forall d | d in a.decisions :: d in b.decisions && b.decisions[d] == a.decisions[d])
    && (forall d | d in b.decisions && d !in a.decisions :: b.decisions[d].consumed.None?)
  }

  lemma EvaluationKeepsTables(st: State, db: Db)
    requires TablesOk(st) && Evaluated(st.db, db)
    ensures TablesOk(st.(db := db)) && Evolves(st.db, db)
  {
    var st' := st.(db := db);
    assert Evolves(st.db, db);
    forall s | s in db.sessions ensures SessionBound(db, s) {
      SessionStaysBound(st.db, db, s);
    }
    forall p | p in st'.txns ensures TxnBacked(db, st'.txns[p]) {
      assert TxnBacked(st.db, st.txns[p]);
      if AuthOf(st.txns[p]).Some? {
        RowStaysBacked(st.db, db, AuthOf(st.txns[p]).value.decisionId, AuthOf(st.txns[p]).value.row);
      }
    }
    forall s ensures BindingCommitted(db, s) ==> BindingCommitted(st.db, s) {
    }
    assert LocksOk(st');
    assert PendingOk(st');
    assert RowsPresent(st');
  }

  /** A transaction may newly hold a decision row that nobody holds and nothing consumed. */
  predicate MayHold(st: State, pid: nat, t: Txn) {
    Holding(t).Some? ==>
      || (pid in st.txns && Holding(st.txns[pid]) == Holding(t))
      || (!RowLocked(st, Holding(t).value.decisionId) && Unconsumed(st.db, Holding(t).value.decisionId))
  }

  /** It may newly bind a session that nobody else binds. */
  predicate MayBind(st: State, pid: nat, t: Txn) {
    Binding(t).Some? ==>
      || (pid in st.txns && Binding(st.txns[pid]) == Binding(t))
      || (!BindingPending(st, Binding(t).value.sessionId) && !BindingCommitted(st.db, Binding(t).value.sessionId))
  }

  lemma MoveKeepsLocks(st: State, pid: nat, t: Txn)
    requires LocksOk(st) && MayHold(st, pid, t)
    ensures LocksOk(Goto(st, pid, t))
  {
  }

  lemma MoveKeepsPending(st: State, pid: nat, t: Txn)
    requires PendingOk(st) && MayBind(st, pid, t)
    ensures PendingOk(Goto(st, pid, t))
  {
  }

  /** A transaction moves on without touching the tables. */
  lemma MoveKeepsTables(st: State, pid: nat, t: Txn)
    requires TablesOk(st) && TxnBacked(st.db, t) && MayHold(st, pid, t) && MayBind(st, pid, t)
    requires t.Inserted? ==> t.added
    ensures TablesOk(Goto(st, pid, t))
  {
    MoveKeepsLocks(st, pid, t);
    MoveKeepsPending(st, pid, t);
  }

  lemma SessionIsCommitted(db: Db, s: Word)
    requires SessionsOk(db)
    ensures s in db.sessions ==> BindingCommitted(db, s)
  {
    if s in db.sessions {
      assert SessionBound(db, s);
    }
  }

  /** No session row exists for a binding that is still pending, so the insertion's DO NOTHING never applies. */
  lemma InsertionIsFresh(st: State, pid: nat)
    requires TablesOk(st) && pid in st.txns && Binding(st.txns[pid]).Some?
    ensures Binding(st.txns[pid]).value.sessionId !in st.db.sessions
  {
    SessionIsCommitted(st.db, Binding(st.txns[pid]).value.sessionId);
  }

  lemma CommittedEvolves(db: Db, a: Auth, added: bool)
    requires Unconsumed(db, a.decisionId) && a.sessionId !in db.sessions
    ensures Evolves(db, Committed(db, a, added))
    ensures forall s :: BindingCommitted(Committed(db, a, added), s) <==> s == a.sessionId || BindingCommitted(db, s)
  {
    var db' := Committed(db, a, added);
    assert db'.decisions[a.decisionId].consumed == Some(a.sessionId);
    forall s | BindingCommitted(db, s) ensures BindingCommitted(db', s) {
      var d :| d in db.decisions && db.decisions[d].consumed == Some(s);
      assert db'.decisions[d].consumed == Some(s);
    }
  }

  lemma CommitKeepsSessions(db: Db, a: Auth, added: bool)
    requires SessionsOk(db) && RowBacked(db, a.decisionId, a.row) && Unconsumed(db, a.decisionId) && a.sessionId !in db.sessions
    ensures SessionsOk(Committed(db, a, added))
  {
    var db' := Committed(db, a, added);
    CommittedEvolves(db, a, added);
    forall s | s in db'.sessions ensures SessionBound(db', s) {
      if s == a.sessionId {
        RowStaysBacked(db, db', a.decisionId, a.row);
        assert db'.decisions[a.decisionId].consumed == Some(s);
      } else {
        SessionStaysBound(db, db', s);
      }
    }
  }

  lemma CommitKeepsInjective(db: Db, a: Auth, added: bool)
    requires BindingsInjective(db) && Unconsumed(db, a.decisionId) && !BindingCommitted(db, a.sessionId)
    ensures BindingsInjective(Committed(db, a, added))
  {
  }

  lemma CommitKeepsBacked(st: State, pid: nat, ok: bool)
    requires TxnsBacked(st) && pid in st.txns && st.txns[pid].Inserted?
    requires Evolves(st.db, AfterCommit(st, pid, ok).db)
    ensures TxnsBacked(AfterCommit(st, pid, ok))
  {
    var st' := AfterCommit(st, pid, ok);
    forall p | p in st'.txns ensures TxnBacked(st'.db, st'.txns[p]) {
      if p != pid && AuthOf(st.txns[p]).Some? {
        assert TxnBacked(st.db, st.txns[p]);
        RowStaysBacked(st.db, st'.db, AuthOf(st.txns[p]).value.decisionId, AuthOf(st.txns[p]).value.row);
      }
    }
  }

  lemma CommitKeepsLocks(st: State, pid: nat, ok: bool)
    requires LocksOk(st) && pid in st.txns && st.txns[pid].Inserted?
    ensures LocksOk(AfterCommit(st, pid, ok)) && Unconsumed(st.db, st.txns[pid].a.decisionId)
  {
    assert Holding(st.txns[pid]) == Some(st.txns[pid].a);
  }

  lemma CommitKeepsPending(st: State, pid: nat, ok: bool)
    requires PendingOk(st) && pid in st.txns && st.txns[pid].Inserted?
    requires Unconsumed(st.db, st.txns[pid].a.decisionId) && st.txns[pid].a.sessionId !in st.db.sessions
    ensures PendingOk(AfterCommit(st, pid, ok)) && !BindingCommitted(st.db, st.txns[pid].a.sessionId)
  {
    assert Binding(st.txns[pid]) == Some(st.txns[pid].a);
    CommittedEvolves(st.db, st.txns[pid].a, st.txns[pid].added);
  }

  lemma CommitKeepsRows(st: State, pid: nat, ok: bool)
    requires RowsPresent(st) && pid in st.txns && st.txns[pid].Inserted?
    ensures RowsPresent(AfterCommit(st, pid, ok))
  {
  }

  lemma CommitKeepsTables(st: State, pid: nat, ok: bool)
    requires TablesOk(st) && pid in st.txns && st.txns[pid].Inserted?
    ensures Evolves(st.db, AfterCommit(st, pid, ok).db) && TablesOk(AfterCommit(st, pid, ok))
  {
    var a, added := st.txns[pid].a, st.txns[pid].added;
    CommitKeepsLocks(st, pid, ok);
    InsertionIsFresh(st, pid);
    CommitKeepsPending(st, pid, ok);
    CommittedEvolves(st.db, a, added);
    CommitKeepsBacked(st, pid, ok);
    assert RowBacked(st.db, a.decisionId, a.row) by {
      assert TxnBacked(st.db, st.txns[pid]);
    }
    CommitKeepsSessions(st.db, a, added);
    CommitKeepsInjective(st.db, a, added);
    CommitKeepsRows(st, pid, ok);
  }

  lemma ReadKeepsTables(h: Handlers, fit: (Word, SessionRow) -> bool, st: State, pid: nat, q: RegisterRequest)
    requires Sound(h, fit) && TablesOk(st)
    ensures TablesOk(ReadStep(h, st, pid, q)) && ReadStep(h, st, pid, q).db == st.db
  {
    MoveKeepsTables(st, pid, ReadStep(h, st, pid, q).txns[pid]);
  }

  lemma StepTxnKeepsTables(h: Handlers, fit: (Word, SessionRow) -> bool, st: State, pid: nat)
    requires Sound(h, fit) && TablesOk(st) && pid in st.txns
    ensures TablesOk(StepTxn(h, st, pid)) && Evolves(st.db, StepTxn(h, st, pid).db)
  {
    assert TxnBacked(st.db, st.txns[pid]);
    match st.txns[pid]
    case Reading(q) => ReadKeepsTables(h, fit, st, pid, q);
    case Starting(a) => SelectKeepsTables(st, pid, a);
    case Selected(a) => BindKeepsTables(st, pid, a);
    case Bound(a) => InsertKeepsTables(st, pid, a);
    case Inserted(a, added) => CommitKeepsTables(st, pid, true);
    case Finished(_) =>
  }

  lemma SelectKeepsTables(st: State, pid: nat, a: Auth)
    requires TablesOk(st) && pid in st.txns && st.txns[pid] == Starting(a) && TxnBacked(st.db, Starting(a))
    ensures TablesOk(SelectStep(st, pid, a)) && SelectStep(st, pid, a).db == st.db
  {
    if SelectStep(st, pid, a) != st {
      MoveKeepsTables(st, pid, SelectStep(st, pid, a).txns[pid]);
    }
  }

  lemma BindKeepsTables(st: State, pid: nat, a: Auth)
    requires TablesOk(st) && pid in st.txns && st.txns[pid] == Selected(a) && TxnBacked(st.db, Selected(a))
    ensures TablesOk(BindStep(st, pid, a)) && BindStep(st, pid, a).db == st.db
  {
    if BindStep(st, pid, a) != st {
      MoveKeepsTables(st, pid, BindStep(st, pid, a).txns[pid]);
    }
  }

  lemma InsertKeepsTables(st: State, pid: nat, a: Auth)
    requires TablesOk(st) && pid in st.txns && st.txns[pid] == Bound(a) && TxnBacked(st.db, Bound(a))
    ensures TablesOk(InsertStep(st, pid, a)) && InsertStep(st, pid, a).db == st.db
  {
    InsertionIsFresh(st, pid);
    if InsertStep(st, pid, a) != st {
      MoveKeepsTables(st, pid, InsertStep(st, pid, a).txns[pid]);
    }
  }

  lemma StepTxnKeepsFit(h: Handlers, fit: (Word, SessionRow) -> bool, st: State, pid: nat)
    requires Sound(h, fit) && AllFit(fit, st) && pid in st.txns
    ensures AllFit(fit, StepTxn(h, st, pid))
  {
    if st.txns[pid].Inserted? {
      CommitKeepsFit(fit, st, pid, true);
    }
  }

  lemma CommitKeepsFit(fit: (Word, SessionRow) -> bool, st: State, pid: nat, ok: bool)
    requires AllFit(fit, st) && pid in st.txns && st.txns[pid].Inserted?
    ensures AllFit(fit, AfterCommit(st, pid, ok))
  {
    assert AuthOf(st.txns[pid]) == Some(st.txns[pid].a);
  }

  /** Evaluations keep intents and decisions filed under the hash of their request. */
  lemma IntentKeepsTerms(h: Handlers, db: Db, q: EvaluateRequest)
    requires SourcesKept(h) && IntentsOk(h, db) && DecisionsOk(h, db)
    ensures var b := StoreIntent(h, db, q); IntentsOk(h, b) && DecisionsOk(h, b) && Evaluated(db, b)
  {
  }

  lemma DecisionKeepsTerms(h: Handlers, db: Db, decisionId: string, q: EvaluateRequest, allow: bool, policyHash: string)
    requires IntentsOk(h, db) && DecisionsOk(h, db)
    ensures var b := StoreDecision(h, db, decisionId, q, allow, policyHash); IntentsOk(h, b) && DecisionsOk(h, b) && Evaluated(db, b)
  {
  }

  /** A registration step leaves intents alone and changes nothing of a decision but its consumption. */
  lemma TermsSurvive(h: Handlers, a: Db, b: Db)
    requires IntentsOk(h, a) && DecisionsOk(h, a) && Evolves(a, b) && b.intents == a.intents && b.decisions.Keys == a.decisions.Keys
    ensures IntentsOk(h, b) && DecisionsOk(h, b)
  {
    forall d | d in b.decisions ensures b.decisions[d].hash in b.intents && h.hashOf(b.decisions[d].judged) == b.decisions[d].hash {
      assert SameDecision(a.decisions[d], b.decisions[d]);
    }
  }

  lemma StepTxnFrame(h: Handlers, st: State, pid: nat)
    requires pid in st.txns
    ensures StepTxn(h, st, pid).db.intents == st.db.intents && StepTxn(h, st, pid).db.decisions.Keys == st.db.decisions.Keys
  {
    if st.txns[pid].Inserted? {
      CommitFrame(st.db, st.txns[pid].a, st.txns[pid].added);
    }
  }

  lemma CommitFrame(db: Db, a: Auth, added: bool)
    ensures Committed(db, a, added).intents == db.intents && Committed(db, a, added).decisions.Keys == db.decisions.Keys
  {
  }

  lemma StepKeepsInv(h: Handlers, fit: (Word, SessionRow) -> bool, st: State, pid: nat)
    requires Sound(h, fit) && Inv(h, fit, st) && pid in st.txns
    ensures Inv(h, fit, StepTxn(h, st, pid)) && Evolves(st.db, StepTxn(h, st, pid).db)
  {
    StepTxnKeepsTables(h, fit, st, pid);
    StepTxnKeepsFit(h, fit, st, pid);
    StepTxnFrame(h, st, pid);
    TermsSurvive(h, st.db, StepTxn(h, st, pid).db);
  }

  /** Moves to a state that carries no authorization. */
  lemma DropKeepsInv(h: Handlers, fit: (Word, SessionRow) -> bool, st: State, pid: nat, t: Txn)
    requires Inv(h, fit, st) && AuthOf(t).None?
    ensures Inv(h, fit, Goto(st, pid, t))
  {
    MoveKeepsTables(st, pid, t);
  }

  lemma CommitKeepsInv(h: Handlers, fit: (Word, SessionRow) -> bool, st: State, pid: nat, ok: bool)
    requires Inv(h, fit, st) && pid in st.txns && st.txns[pid].Inserted?
    ensures Inv(h, fit, AfterCommit(st, pid, ok)) && Evolves(st.db, AfterCommit(st, pid, ok).db)
  {
    CommitKeepsTables(st, pid, ok);
    CommitKeepsFit(fit, st, pid, ok);
    CommitFrame(st.db, st.txns[pid].a, st.txns[pid].added);
    TermsSurvive(h, st.db, AfterCommit(st, pid, ok).db);
  }

  lemma EvaluationKeepsInv(h: Handlers, fit: (Word, SessionRow) -> bool, st: State, db: Db)
    requires Inv(h, fit, st) && IntentsOk(h, db) && DecisionsOk(h, db) && Evaluated(st.db, db)
    ensures Inv(h, fit, st.(db := db)) && Evolves(st.db, db)
  {
    EvaluationKeepsTables(st, db);
  }

  lemma EvaluateKeepsInv(h: Handlers, fit: (Word, SessionRow) -> bool, st: State, ev: Event)
    requires Sound(h, fit) && Inv(h, fit, st) && (ev.SaveIntent? || ev.SaveDecision?)
    ensures Inv(h, fit, Apply(h, st, ev)) && Evolves(st.db, Apply(h, st, ev).db)
  {
    if ev.SaveIntent? {
      IntentKeepsTerms(h, st.db, ev.q);
    } else {
      DecisionKeepsTerms(h, st.db, ev.decisionId, ev.q, ev.allow, ev.policyHash);
    }
    EvaluationKeepsInv(h, fit, st, Apply(h, st, ev).db);
  }

  lemma ApplyKeepsInv(h: Handlers, fit: (Word, SessionRow) -> bool, st: State, ev: Event)
    requires Sound(h, fit) && Inv(h, fit, st)
    ensures Inv(h, fit, Apply(h, st, ev)) && Evolves(st.db, Apply(h, st, ev).db)
  {
    match ev
    case SaveIntent(_) => EvaluateKeepsInv(h, fit, st, ev);
    case SaveDecision(_, _, _, _) => EvaluateKeepsInv(h, fit, st, ev);
    case BeginRegister(pid, q) => DropKeepsInv(h, fit, st, pid, Reading(q));
    case Step(pid) => if pid in st.txns { StepKeepsInv(h, fit, st, pid); }
    case CommitUnknown(pid) => if pid in st.txns && st.txns[pid].Inserted? { CommitKeepsInv(h, fit, st, pid, false); }
    case Abort(pid) => DropKeepsInv(h, fit, st, pid, Finished(false));
  }

  lemma {:induction false} RunKeepsInv(h: Handlers, fit: (Word, SessionRow) -> bool, st: State, events: seq<Event>)
    requires Sound(h, fit) && Inv(h, fit, st)
    ensures Inv(h, fit, Run(h, st, events)) && Evolves(st.db, Run(h, st, events).db)
    decreases |events|
  {
    if events != [] {
      var st1 := Apply(h, st, events[0]);
      ApplyKeepsInv(h, fit, st, events[0]);
      RunKeepsInv(h, fit, st1, events[1..]);
      EvolvesTransitive(st.db, st1.db, Run(h, st, events).db);
    }
  }

  lemma EvolvesTransitive(a: Db, b: Db, c: Db)
    requires Evolves(a, b) && Evolves(b, c)
    ensures Evolves(a, c)
  {
    forall d | d in a.decisions ensures d in c.decisions && SameDecision(a.decisions[d], c.decisions[d]) {
      assert SameDecision(a.decisions[d], b.decisions[d]);
    }
  }
}
