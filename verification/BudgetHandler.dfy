/** The reserve and finalize handlers over the reservation service: a session's budget over its whole life. */
module BudgetHandler {
  import opened Basics
  import opened BudgetKeys
  import opened Budget
  import opened BudgetHistory
  import opened BudgetConservation

  datatype Row = Row(
    agentId: string, intentHash: string, maxPerTransfer: string, maxTotalSpend: string,
    validAfter: int, validUntil: int, status: string)

  datatype ReserveCall = ReserveCall(
    sessionId: string, agentId: string, intentHash: string, amountAtomic: string, idempotencyKey: string)

  datatype Reply = NotFound | Conflict | BadRequest | Denied | Failed | Granted(reservationId: string)

  /** The service state with the reservation rows in Postgres, by their unique idempotency key. */
  datatype Api = Api(sys: System, saved: map<string, string>)

  datatype ApiOp =
    | ReserveBudget(request: ReserveCall, newId: string, saveUp: bool, lookupUp: bool)
    | Finalize(reservationId: string)
    | Reverted(reservationId: string)
    | Wait(seconds: nat)

  const ACTIVE: string := "session_authorized"

  datatype Verdict = Refused(reply: Reply) | Passed(request: Request)

  /** Whether the handler lets a request reach the reservation service, and with which lifetime for the aggregate. */
  function Gate(rows: map<string, Row>, now: nat, c: ReserveCall): Verdict {
    if Lower(c.sessionId) !in rows then Refused(NotFound)
    else
      var row := rows[Lower(c.sessionId)];
      if row.status != "" && Lower(row.status) != ACTIVE then Refused(Conflict)
      else if now < row.validAfter || now > row.validUntil then Refused(Conflict)
      else if Lower(c.agentId) != Lower(row.agentId) then Refused(Conflict)
      else if row.intentHash != "" && Lower(c.intentHash) != Lower(row.intentHash) then Refused(Conflict)
      else if Positive(c.amountAtomic).None? then Refused(BadRequest)
      else if ParseDecimal(row.maxPerTransfer).None? || Positive(c.amountAtomic).value > ParseDecimal(row.maxPerTransfer).value then Refused(Denied)
      else
        var left := row.validUntil - now;
        Passed(Request(c.sessionId, c.idempotencyKey, c.amountAtomic, row.maxTotalSpend, 300, if left < 60 then 60 else left))
  }

  /** INSERT INTO budget_reservations under its two unique keys. */
  predicate CanSave(api: Api, saveUp: bool, idempotencyKey: string, reservationId: string) {
    saveUp && idempotencyKey !in api.saved && reservationId !in api.saved.Values
  }

  function HandleReserve(rows: map<string, Row>, api: Api, c: ReserveCall, newId: string, saveUp: bool, lookupUp: bool): (Api, Reply) {
    match Gate(rows, api.sys.redis.now, c)
    case Refused(reply) => (api, reply)
    case Passed(q) =>
      var outcome := Reserve(api.sys.redis, q, newId).1;
      var reserved := api.(sys := Apply(api.sys, ReserveOp(q, newId)));
      match outcome
      case Rejected(_) => (reserved, Denied)
      case Reserved(id) =>
        if CanSave(reserved, saveUp, c.idempotencyKey, id) then (reserved.(saved := reserved.saved[c.idempotencyKey := id]), Granted(id))
        else if lookupUp && c.idempotencyKey in reserved.saved && reserved.saved[c.idempotencyKey] == id then (reserved, Granted(id))
        else (reserved.(sys := Apply(reserved.sys, ReleaseOp(id))), Failed)
  }

  function Handle(rows: map<string, Row>, api: Api, op: ApiOp): Api {
    match op
    case ReserveBudget(c, newId, saveUp, lookupUp) => HandleReserve(rows, api, c, newId, saveUp, lookupUp).0
    case Finalize(id) => api.(sys := Apply(api.sys, CommitOp(id)))
    case Reverted(id) => api.(sys := Apply(api.sys, ReleaseOp(id)))
    case Wait(seconds) => api.(sys := Apply(api.sys, TickOp(seconds)))
  }

  function RunApi(rows: map<string, Row>, api: Api, ops: seq<ApiOp>): Api
    decreases |ops|
  {
    if ops == [] then api else RunApi(rows, Handle(rows, api, ops[0]), ops[1..])
  }

  predicate FreshIds(rows: map<string, Row>, api: Api, ops: seq<ApiOp>)
    decreases |ops|
  {
    ops != [] ==>
      && (ops[0].ReserveBudget? ==> ops[0].newId != "" && ops[0].newId !in api.sys.issued)
      && FreshIds(rows, Handle(rows, api, ops[0]), ops[1..])
  }

  /** The cap of the row a session string selects; a string without a row has no budget. */
  function Cap(rows: map<string, Row>, session: string): nat {
    if Lower(session) in rows && Positive(rows[Lower(session)].maxTotalSpend).Some?
    then Positive(rows[Lower(session)].maxTotalSpend).value
    else 0
  }

  predicate WithinLife(rows: map<string, Row>, now: nat, session: string) {
    Lower(session) in rows ==> now <= rows[Lower(session)].validUntil
  }

  /** A session string's budget: conserved while its window lasts, because the aggregate outlives it, and never over the cap. */
  predicate SessionOk(rows: map<string, Row>, sys: System, session: string) {
    && Total(sys, session) <= Cap(rows, session)
    && (session in sys.redis.aggregates ==>
          Lower(session) in rows && sys.redis.aggregates[session].expiresAt >= rows[Lower(session)].validUntil)
    && (WithinLife(rows, sys.redis.now, session) ==> Conserved(sys, session))
  }

  // ---------- Steps ----------

  lemma {:induction false} SweepNeverAdds(sys: System, due: seq<Member>, session: string)
    requires Inv(sys.redis, sys.issued) && DistinctIds(due) && forall m | m in due :: m in sys.redis.index
    ensures Pending(SweepMembers(sys.redis, due).index, session) <= Pending(sys.redis.index, session)
    ensures SameKeys(sys.redis.aggregates, SweepMembers(sys.redis, due).aggregates)
    decreases |due|
  {
    if due != [] {
      WithoutPending(sys.redis.index, due[0], session);
      SplitIndex(due);
      SweepMemberKeepsInv(sys.redis, sys.issued, due[0]);
      WithoutEffect(sys.redis.index, due[0].reservationId);
      SweepNeverAdds(sys.(redis := SweepMember(sys.redis, due[0])), due[1..], session);
    }
  }

  /** The same sessions, with the same expiry. */
  predicate SameKeys(a: map<string, Aggregate>, b: map<string, Aggregate>) {
    a.Keys == b.Keys && forall s | s in a :: a[s].expiresAt == b[s].expiresAt
  }

  lemma SweepKeepsOk(rows: map<string, Row>, sys: System, session: string)
    requires Inv(sys.redis, sys.issued) && SessionOk(rows, sys, session)
    ensures SessionOk(rows, Apply(sys, SweepOp), session)
  {
    DueEffect(sys.redis.index, sys.redis.now);
    SweepEffect(sys.redis, sys.issued);
    SweepNeverAdds(sys, Due(sys.redis.index, sys.redis.now), session);
    if WithinLife(rows, sys.redis.now, session) {
      SweepConserves(sys, session);
    }
  }

  lemma CommitKeepsOk(rows: map<string, Row>, sys: System, id: string, session: string)
    requires Inv(sys.redis, sys.issued) && SessionOk(rows, sys, session)
    ensures SessionOk(rows, Apply(sys, CommitOp(id)), session)
  {
    match FindMember(sys.redis.index, id)
    case None => WithoutAbsent(sys.redis.index, id);
    case Some(m) => WithoutPending(sys.redis.index, m, session);
  }

  lemma ReleaseKeepsOk(rows: map<string, Row>, sys: System, id: string, session: string)
    requires Inv(sys.redis, sys.issued) && SessionOk(rows, sys, session)
    ensures SessionOk(rows, Apply(sys, ReleaseOp(id)), session)
  {
    hide MembersKnown, ClaimsHeld, OnePerKey, ClaimsIssued, Lower;
    if LiveMeta(sys.redis, id) {
      var meta := sys.redis.metadata[id];
      var m :| m in sys.redis.index && m.reservationId == id && m.session == meta.session && m.amount == meta.amount;
      WithoutPending(sys.redis.index, m, session);
      if WithinLife(rows, sys.redis.now, session) {
        ReleaseConserves(sys, id, session);
      }
    }
  }

  lemma WaitKeepsOk(rows: map<string, Row>, sys: System, seconds: nat, session: string)
    requires SessionOk(rows, sys, session)
    ensures SessionOk(rows, Apply(sys, TickOp(seconds)), session)
  {
  }

  /** What the gate guarantees about a request it passes. */
  lemma GateEffect(rows: map<string, Row>, now: nat, c: ReserveCall, q: Request)
    requires Gate(rows, now, c) == Passed(q)
    ensures q.session == c.sessionId && Lower(q.session) in rows
    ensures rows[Lower(q.session)].validAfter <= now <= rows[Lower(q.session)].validUntil
    ensures rows[Lower(q.session)].validUntil <= now + AggregateSeconds(q.sessionAggregateTTL)
    ensures TermsOf(q).Terms? ==> TermsOf(q).cap == Cap(rows, q.session)
  {
  }

  lemma WriteKeepsOthersOk(rows: map<string, Row>, sys: System, q: Request, key: string, amount: nat, newId: string, session: string)
    requires SessionOk(rows, sys, session) && session != q.session
    ensures SessionOk(rows, sys.(redis := Write(sys.redis, q, key, amount, newId)), session)
  {
    var r' := Write(sys.redis, q, key, amount, newId);
    var added := Member(newId, q.session, amount, sys.redis.now + PendingSeconds(q.preSubmitTTL));
    assert r'.index == sys.redis.index + [added];
    AppendPending(sys.redis.index, added, session);
  }

  /** An accepted reservation fits the cap, because inside the window the aggregate has not been forgotten. */
  lemma WriteKeepsOwnOk(rows: map<string, Row>, sys: System, q: Request, key: string, amount: nat, newId: string)
    requires SessionOk(rows, sys, q.session) && Lower(q.session) in rows
    requires sys.redis.now <= rows[Lower(q.session)].validUntil <= sys.redis.now + AggregateSeconds(q.sessionAggregateTTL)
    requires CurrentValue(sys.redis, q.session) + amount <= Cap(rows, q.session)
    ensures SessionOk(rows, sys.(redis := Write(sys.redis, q, key, amount, newId)), q.session)
  {
    WriteConserves(sys, q, key, amount, newId, q.session);
  }

  lemma ReserveKeepsOk(rows: map<string, Row>, sys: System, c: ReserveCall, q: Request, newId: string, session: string)
    requires Inv(sys.redis, sys.issued) && SessionOk(rows, sys, session)
    requires Gate(rows, sys.redis.now, c) == Passed(q)
    ensures SessionOk(rows, Apply(sys, ReserveOp(q, newId)), session)
  {
    GateEffect(rows, sys.redis.now, c, q);
    var swept := Apply(sys, SweepOp);
    SweepKeepsOk(rows, sys, session);
    SweepEffect(sys.redis, sys.issued);
    if Apply(sys, ReserveOp(q, newId)).redis != swept.redis {
      var Terms(key, amount, cap) := TermsOf(q);
      if session == q.session {
        WriteKeepsOwnOk(rows, swept, q, key, amount, newId);
      } else {
        WriteKeepsOthersOk(rows, swept, q, key, amount, newId, session);
      }
    }
  }

  lemma HandleKeepsOk(rows: map<string, Row>, api: Api, op: ApiOp, session: string)
    requires Inv(api.sys.redis, api.sys.issued) && SessionOk(rows, api.sys, session)
    requires op.ReserveBudget? ==> op.newId != "" && op.newId !in api.sys.issued
    ensures var next := Handle(rows, api, op).sys; Inv(next.redis, next.issued) && SessionOk(rows, next, session)
  {
    hide Inv, SessionOk, Gate, Reserve, Lower;
    match op
    case ReserveBudget(c, newId, saveUp, lookupUp) =>
      if Gate(rows, api.sys.redis.now, c).Passed? {
        var q := Gate(rows, api.sys.redis.now, c).request;
        var sys1 := Apply(api.sys, ReserveOp(q, newId));
        ApplyKeepsInv(api.sys, ReserveOp(q, newId));
        ReserveKeepsOk(rows, api.sys, c, q, newId, session);
        if Reserve(api.sys.redis, q, newId).1.Reserved? {
          var id := Reserve(api.sys.redis, q, newId).1.reservationId;
          ApplyKeepsInv(sys1, ReleaseOp(id));
          ReleaseKeepsOk(rows, sys1, id, session);
        }
      }
    case Finalize(id) =>
      ApplyKeepsInv(api.sys, CommitOp(id));
      CommitKeepsOk(rows, api.sys, id, session);
    case Reverted(id) =>
      ApplyKeepsInv(api.sys, ReleaseOp(id));
      ReleaseKeepsOk(rows, api.sys, id, session);
    case Wait(seconds) =>
      ApplyKeepsInv(api.sys, TickOp(seconds));
      WaitKeepsOk(rows, api.sys, seconds, session);
  }

  lemma {:induction false} RunKeepsOk(rows: map<string, Row>, api: Api, ops: seq<ApiOp>, session: string)
    requires Inv(api.sys.redis, api.sys.issued) && SessionOk(rows, api.sys, session) && FreshIds(rows, api, ops)
    ensures var last := RunApi(rows, api, ops).sys; Inv(last.redis, last.issued) && SessionOk(rows, last, session)
    decreases |ops|
  {
    if ops != [] {
      HandleKeepsOk(rows, api, ops[0], session);
      RunKeepsOk(rows, Handle(rows, api, ops[0]), ops[1..], session);
    }
  }

  /** Over any serial run of the handlers, everything ever committed plus everything pending under a session string
      stays within its row's cap, during its window and after. */
  lemma LifetimeBudget(rows: map<string, Row>, now: nat, ops: seq<ApiOp>, session: string)
    requires FreshIds(rows, Api(Start(now), map[]), ops)
    ensures var last := RunApi(rows, Api(Start(now), map[]), ops).sys;
            && Total(last, session) <= Cap(rows, session)
            && (WithinLife(rows, last.redis.now, session) ==> Conserved(last, session))
  {
    RunKeepsOk(rows, Api(Start(now), map[]), ops, session);
  }

  // ---------- Repeats at the handler ----------

  /** Postgres knows the claim's reservation under the very idempotency key of the call, or learns it now. */
  predicate Recognised(api: Api, c: ReserveCall, id: string, saveUp: bool, lookupUp: bool) {
    || CanSave(api, saveUp, c.idempotencyKey, id)
    || (lookupUp && c.idempotencyKey in api.saved && api.saved[c.idempotencyKey] == id)
  }

  /** While a claim is live, a repeat is granted the claim's reservation, and leaves it as it is, if and only if Postgres
      recognises it under the repeat's own spelling of the key; otherwise the repeat fails and releases it. */
  lemma HandlerRepeatIff(rows: map<string, Row>, api: Api, c: ReserveCall, newId: string, saveUp: bool, lookupUp: bool)
    requires Inv(api.sys.redis, api.sys.issued) && Gate(rows, api.sys.redis.now, c).Passed?
    requires var q := Gate(rows, api.sys.redis.now, c).request; TermsOf(q).Terms? && LiveClaim(api.sys.redis, TermsOf(q).key)
    ensures var id := api.sys.redis.claims[TermsOf(Gate(rows, api.sys.redis.now, c).request).key].reservationId;
            var (next, reply) := HandleReserve(rows, api, c, newId, saveUp, lookupUp);
            if Recognised(api, c, id, saveUp, lookupUp)
            then reply == Granted(id) && next.sys.redis == Sweep(api.sys.redis)
            else reply == Failed && !InIndex(next.sys.redis.index, id)
  {
    hide Gate, TermsOf, Sweep, Inv, MetadataBacked, ClaimsHeld, OnePerKey;
    var q := Gate(rows, api.sys.redis.now, c).request;
    var id := api.sys.redis.claims[TermsOf(q).key].reservationId;
    RepeatAnsweredByClaim(api.sys, q, newId);
    SweepEffect(api.sys.redis, api.sys.issued);
    ReleaseDrops(api.sys, id);
  }

  /** After a sweep, releasing a reservation leaves no member of it. */
  lemma ReleaseDrops(sys: System, id: string)
    requires Inv(sys.redis, sys.issued)
    ensures !InIndex(Release(Sweep(sys.redis), id).index, id)
  {
    var r := Sweep(sys.redis);
    SweepEffect(sys.redis, sys.issued);
    WithoutEffect(r.index, id);
    if m :| m in r.index && m.reservationId == id {
      assert LiveMeta(r, id);
    }
  }

  /** Blanks around an idempotency key do not make it another claim, but another key in Postgres: a repeat of a granted call
      that differs by blanks fails, and releases the reservation the first call was given. */
  lemma RepeatWithBlanksReleases(rows: map<string, Row>, api: Api, first: ReserveCall, again: ReserveCall, id: string, newId: string)
    requires Inv(api.sys.redis, api.sys.issued) && id != "" && id !in api.sys.issued
    requires HandleReserve(rows, api, first, id, true, true).1 == Granted(id)
    requires again.sessionId == first.sessionId && TrimSpace(again.idempotencyKey) == TrimSpace(first.idempotencyKey)
    requires again.idempotencyKey != first.idempotencyKey && again.idempotencyKey !in api.saved
    requires Gate(rows, api.sys.redis.now, again).Passed?
    ensures var granted := HandleReserve(rows, api, first, id, true, true).0;
            var (next, reply) := HandleReserve(rows, granted, again, newId, true, true);
            InIndex(granted.sys.redis.index, id) && reply == Failed && !InIndex(next.sys.redis.index, id)
  {
    hide TrimSpace, Inv;
    var now := api.sys.redis.now;
    var granted := HandleReserve(rows, api, first, id, true, true).0;
    FirstGrant(rows, api, first, id);
    SameKey(rows, now, first, again);
    HandlerRepeatIff(rows, granted, again, newId, true, true);
  }

  lemma SameKey(rows: map<string, Row>, now: nat, first: ReserveCall, again: ReserveCall)
    requires Gate(rows, now, first).Passed? && Gate(rows, now, again).Passed? && TermsOf(Gate(rows, now, first).request).Terms?
    requires again.sessionId == first.sessionId && TrimSpace(again.idempotencyKey) == TrimSpace(first.idempotencyKey)
    ensures var q, r := Gate(rows, now, first).request, Gate(rows, now, again).request;
            TermsOf(r).Terms? && TermsOf(r).key == TermsOf(q).key
  {
    hide TrimSpace, ParseDecimal;
  }

  /** A first grant puts the reservation in the index, under a live claim, and in Postgres under the key as spelled. */
  lemma FirstGrant(rows: map<string, Row>, api: Api, c: ReserveCall, id: string)
    requires Inv(api.sys.redis, api.sys.issued) && id != "" && id !in api.sys.issued
    requires HandleReserve(rows, api, c, id, true, true).1 == Granted(id)
    ensures Gate(rows, api.sys.redis.now, c).Passed? && TermsOf(Gate(rows, api.sys.redis.now, c).request).Terms?
    ensures var granted, key := HandleReserve(rows, api, c, id, true, true).0, TermsOf(Gate(rows, api.sys.redis.now, c).request).key;
            && Inv(granted.sys.redis, granted.sys.issued) && granted.sys.redis.now == api.sys.redis.now
            && InIndex(granted.sys.redis.index, id)
            && LiveClaim(granted.sys.redis, key) && granted.sys.redis.claims[key].reservationId == id
            && c.idempotencyKey in granted.saved && granted.saved[c.idempotencyKey] == id
            && granted.saved.Keys == api.saved.Keys + {c.idempotencyKey}
  {
    assert Gate(rows, api.sys.redis.now, c).Passed?;
    hide Gate, TermsOf, Reserve, Inv;
    var q := Gate(rows, api.sys.redis.now, c).request;
    ApplyKeepsInv(api.sys, ReserveOp(q, id));
    AcceptedHasTerms(api.sys.redis, q, id);
    NewMember(api.sys, q, id);
  }

  lemma AcceptedHasTerms(r: Redis, q: Request, newId: string)
    requires Reserve(r, q, newId).1.Reserved?
    ensures TermsOf(q).Terms?
  {
  }

  /** The service accepted a new reservation. */
  predicate Accepted(sys: System, q: Request, newId: string) {
    TermsOf(q).Terms? && Reserve(sys.redis, q, newId).1 == Reserved(newId)
  }

  /** A new reservation is in the index, with live metadata and a live claim. */
  lemma NewMember(sys: System, q: Request, newId: string)
    requires Inv(sys.redis, sys.issued) && Legal(sys, ReserveOp(q, newId)) && Accepted(sys, q, newId)
    ensures var r, key := Apply(sys, ReserveOp(q, newId)).redis, TermsOf(q).key;
            && LiveMeta(r, newId) && r.now == sys.redis.now && LiveClaim(r, key) && r.claims[key].reservationId == newId
            && InIndex(r.index, newId)
            && exists m | m in r.index :: m.reservationId == newId && m.session == q.session && m.amount == TermsOf(q).amount
  {
    hide TermsOf;
    SweepEffect(sys.redis, sys.issued);
    var swept := Sweep(sys.redis);
    var Terms(key, amount, cap) := TermsOf(q);
    var added := Member(newId, q.session, amount, swept.now + PendingSeconds(q.preSubmitTTL));
    assert Apply(sys, ReserveOp(q, newId)).redis == Write(swept, q, key, amount, newId);
    assert added in Write(swept, q, key, amount, newId).index;
  }
}
