/** When a reservation is accepted, what an accepted one writes, and how the handlers' two ways of settling it differ. */
module BudgetAcceptance {
  import opened Basics
  import opened BudgetKeys
  import opened Budget
  import opened BudgetHistory
  import opened BudgetConservation
  import opened BudgetHandler

  // ---------- Valid terms ----------

  /** A request has terms exactly if both its names are more than blanks and both its amounts read as positive numbers; its
      claim key then joins the trimmed session and the trimmed idempotency key. */
  lemma TermsIff(q: Request, key: string, amount: nat, cap: nat)
    ensures TermsOf(q) == Terms(key, amount, cap) <==>
            && TrimSpace(q.session) != "" && TrimSpace(q.idempotencyKey) != ""
            && key == "idem:" + TrimSpace(q.session) + ":" + TrimSpace(q.idempotencyKey)
            && 0 < amount && ParseDecimal(q.amountAtomic) == Some(amount)
            && 0 < cap && ParseDecimal(q.maxTotalSpend) == Some(cap)
  {
    hide TrimSpace, ParseDecimal;
  }

  /** The reason a request without terms is rejected for: the first of its fields that is wrong. */
  lemma InvalidIff(q: Request, reason: Reason)
    ensures TermsOf(q) == Invalid(reason) <==>
            match reason
            case NoIdempotencyKey => TrimSpace(q.idempotencyKey) == ""
            case NoSessionId => TrimSpace(q.idempotencyKey) != "" && TrimSpace(q.session) == ""
            case InvalidAmount => TrimSpace(q.idempotencyKey) != "" && TrimSpace(q.session) != "" && !ReadsPositive(q.amountAtomic)
            case InvalidMaxTotalSpend =>
              TrimSpace(q.idempotencyKey) != "" && TrimSpace(q.session) != "" && ReadsPositive(q.amountAtomic) && !ReadsPositive(q.maxTotalSpend)
            case BudgetDenied => false
  {
    hide TrimSpace, ParseDecimal;
  }

  predicate ReadsPositive(text: string) {
    ParseDecimal(text).Some? && ParseDecimal(text).value > 0
  }

  // ---------- Acceptance ----------

  /** What a session's total is once its overdue amounts are given back. */
  function ValueAfterSweep(r: Redis, session: string): nat {
    Minus(CurrentValue(r, session), Pending(Due(r.index, r.now), session))
  }

  lemma {:induction false} SweptValue(r: Redis, due: seq<Member>, session: string)
    ensures CurrentValue(SweepMembers(r, due), session) == Minus(CurrentValue(r, session), Pending(due, session))
    decreases |due|
  {
    if due != [] {
      SweptValue(SweepMember(r, due[0]), due[1..], session);
    }
  }

  /** In every state, a request is granted a new reservation exactly if it has terms, its key has no live claim, and the
      session's total, with the overdue amounts given back and its own added, is within the cap. */
  lemma ReserveIff(sys: System, q: Request, newId: string)
    requires Inv(sys.redis, sys.issued) && Legal(sys, ReserveOp(q, newId))
    ensures var outcome := Reserve(sys.redis, q, newId).1;
            && (outcome == Reserved(newId) <==>
                  && TermsOf(q).Terms? && !LiveClaim(sys.redis, TermsOf(q).key)
                  && ValueAfterSweep(sys.redis, q.session) + TermsOf(q).amount <= TermsOf(q).cap)
            && (outcome == Rejected(BudgetDenied) <==>
                  && TermsOf(q).Terms? && !LiveClaim(sys.redis, TermsOf(q).key)
                  && ValueAfterSweep(sys.redis, q.session) + TermsOf(q).amount > TermsOf(q).cap)
  {
    InvalidIff(q, BudgetDenied);
    hide TermsOf, Sweep, Due;
    SweptValueOf(sys.redis, q.session);
    SweepEffect(sys.redis, sys.issued);
    hide Inv;
    assert ClaimsIssued(sys.redis, sys.issued);
  }

  lemma SweptValueOf(r: Redis, session: string)
    ensures CurrentValue(Sweep(r), session) == ValueAfterSweep(r, session)
  {
    SweptValue(r, Due(r.index, r.now), session);
  }

  // ---------- What an accepted reservation writes ----------

  /** A new reservation's claim and member lapse after its TTL, its metadata after twice that, and the session's aggregate
      after the session's; where a TTL is not positive they last 300 seconds and a day. */
  lemma AcceptedWrites(sys: System, q: Request, newId: string)
    requires Inv(sys.redis, sys.issued) && Legal(sys, ReserveOp(q, newId)) && Accepted(sys, q, newId)
    ensures var r, r', now := Sweep(sys.redis), Reserve(sys.redis, q, newId).0, sys.redis.now;
            var Terms(key, amount, _) := TermsOf(q);
            var ttl := if q.preSubmitTTL > 0 then q.preSubmitTTL else 300;
            var sessionTTL := if q.sessionAggregateTTL > 0 then q.sessionAggregateTTL else 86400;
            && r'.now == now
            && r'.claims == sys.redis.claims[key := Claim(newId, now + ttl)]
            && r'.metadata == r.metadata[newId := Meta(q.session, amount, now + 2 * ttl)]
            && r'.index == r.index + [Member(newId, q.session, amount, now + ttl)]
            && r'.aggregates == r.aggregates[q.session := Aggregate(ValueAfterSweep(sys.redis, q.session) + amount, now + sessionTTL)]
  {
    hide TermsOf, Sweep, Due;
    SweptValueOf(sys.redis, q.session);
    SweepEffect(sys.redis, sys.issued);
    hide Inv;
    assert ClaimsIssued(sys.redis, sys.issued);
  }

  // ---------- The handlers ----------

  /** The session is active and inside its window, and the call names its agent and its intent. */
  predicate Matches(row: Row, now: nat, c: ReserveCall) {
    && (row.status == "" || Lower(row.status) == "session_authorized")
    && row.validAfter <= now <= row.validUntil
    && Lower(c.agentId) == Lower(row.agentId)
    && (row.intentHash == "" || Lower(c.intentHash) == Lower(row.intentHash))
  }

  predicate WithinTransferLimit(row: Row, c: ReserveCall)
    requires ParseDecimal(c.amountAtomic).Some?
  {
    ParseDecimal(row.maxPerTransfer).Some? && ParseDecimal(c.amountAtomic).value <= ParseDecimal(row.maxPerTransfer).value
  }

  /** The handler passes a call on exactly if its session is known and matches it, and its amount is positive and within the
      limit for one transfer; the request then names the session's cap, a reservation of five minutes and an aggregate that
      lasts until the window ends, and at least a minute. */
  lemma GateIff(rows: map<string, Row>, now: nat, c: ReserveCall, q: Request)
    ensures Gate(rows, now, c) == Passed(q) <==>
            && Lower(c.sessionId) in rows
            && var row := rows[Lower(c.sessionId)];
            && Matches(row, now, c) && ReadsPositive(c.amountAtomic) && WithinTransferLimit(row, c)
            && q.session == c.sessionId && q.idempotencyKey == c.idempotencyKey && q.amountAtomic == c.amountAtomic
            && q.maxTotalSpend == row.maxTotalSpend && q.preSubmitTTL == 300
            && q.sessionAggregateTTL >= 60 && now + q.sessionAggregateTTL >= row.validUntil
            && (q.sessionAggregateTTL == 60 || now + q.sessionAggregateTTL == row.validUntil)
  {
    hide Lower, ParseDecimal;
  }

  /** What the handler answers to a call it does not pass on. */
  lemma RefusalIff(rows: map<string, Row>, now: nat, c: ReserveCall, reply: Reply)
    ensures Gate(rows, now, c) == Refused(reply) <==>
            if Lower(c.sessionId) !in rows then reply == NotFound
            else if !Matches(rows[Lower(c.sessionId)], now, c) then reply == Conflict
            else if !ReadsPositive(c.amountAtomic) then reply == BadRequest
            else reply == Denied && !WithinTransferLimit(rows[Lower(c.sessionId)], c)
  {
    hide Lower, ParseDecimal;
  }

  /** Finalizing a pending reservation takes it out of the index, moves its amount from pending to committed, and leaves the
      session's total and its aggregate as they were. */
  lemma FinalizeKeepsTotal(rows: map<string, Row>, api: Api, m: Member)
    requires Inv(api.sys.redis, api.sys.issued) && m in api.sys.redis.index && Conserved(api.sys, m.session)
    ensures var done, s := Handle(rows, api, Finalize(m.reservationId)), m.session;
            && !InIndex(done.sys.redis.index, m.reservationId) && done.saved == api.saved
            && done.sys.redis.aggregates == api.sys.redis.aggregates
            && At(done.sys.committed, s) == At(api.sys.committed, s) + m.amount
            && Pending(done.sys.redis.index, s) == Pending(api.sys.redis.index, s) - m.amount
            && Total(done.sys, s) == Total(api.sys, s)
  {
    MemberFound(api.sys.redis.index, m);
    WithoutPending(api.sys.redis.index, m, m.session);
    WithoutEffect(api.sys.redis.index, m.reservationId);
    hide Inv, Without, Pending, Conserved;
  }

  /** Reverting one gives its amount back, so that both the session's total and its aggregate fall by it, unless its metadata has
      lapsed, when nothing changes. */
  lemma RevertLowersTotal(rows: map<string, Row>, api: Api, m: Member)
    requires Inv(api.sys.redis, api.sys.issued) && m in api.sys.redis.index && Conserved(api.sys, m.session)
    ensures var undone, s := Handle(rows, api, Reverted(m.reservationId)), m.session;
            if LiveMeta(api.sys.redis, m.reservationId)
            then && !InIndex(undone.sys.redis.index, m.reservationId) && undone.saved == api.saved
                 && undone.sys.committed == api.sys.committed
                 && Total(undone.sys, s) == Total(api.sys, s) - m.amount
                 && CurrentValue(undone.sys.redis, s) == CurrentValue(api.sys.redis, s) - m.amount
            else undone == api
  {
    if LiveMeta(api.sys.redis, m.reservationId) {
      MetaOfMember(api.sys, m);
      PendingBounds(api.sys.redis.index, m);
      WithoutPending(api.sys.redis.index, m, m.session);
      WithoutEffect(api.sys.redis.index, m.reservationId);
    }
    hide Inv, Without, Pending;
  }

  lemma MemberFound(index: seq<Member>, m: Member)
    requires DistinctIds(index) && m in index
    ensures FindMember(index, m.reservationId) == Some(m)
  {
    SameIdSameMember(index, m);
  }

  lemma MetaOfMember(sys: System, m: Member)
    requires Inv(sys.redis, sys.issued) && m in sys.redis.index
    ensures m.reservationId in sys.redis.metadata
    ensures var meta := sys.redis.metadata[m.reservationId]; meta.session == m.session && meta.amount == m.amount
  {
    SameIdSameMember(sys.redis.index, m);
  }

  /** A first call: denied exactly if its amount does not fit; granted its new reservation exactly if it fits and Postgres takes
      the row; otherwise it fails, and the reservation is taken back. */
  lemma HandlerFirstCallIff(rows: map<string, Row>, api: Api, c: ReserveCall, q: Request, newId: string, saveUp: bool, lookupUp: bool)
    requires Inv(api.sys.redis, api.sys.issued) && newId != "" && newId !in api.sys.issued
    requires Gate(rows, api.sys.redis.now, c) == Passed(q) && TermsOf(q).Terms? && !LiveClaim(api.sys.redis, TermsOf(q).key)
    ensures var (next, reply) := HandleReserve(rows, api, c, newId, saveUp, lookupUp);
            var fits := ValueAfterSweep(api.sys.redis, q.session) + TermsOf(q).amount <= TermsOf(q).cap;
            && (!fits ==> reply == Denied && next.sys.redis == Sweep(api.sys.redis) && next.saved == api.saved)
            && (fits && Recognised(api, c, newId, saveUp, lookupUp) ==>
                  && reply == Granted(newId) && InIndex(next.sys.redis.index, newId)
                  && c.idempotencyKey in next.saved && next.saved[c.idempotencyKey] == newId)
            && (fits && !Recognised(api, c, newId, saveUp, lookupUp) ==>
                  reply == Failed && !InIndex(next.sys.redis.index, newId) && next.saved == api.saved)
  {
    ReserveIff(api.sys, q, newId);
    hide Gate, TermsOf, Due, Sweep, ValueAfterSweep, HandleReserve;
    if Reserve(api.sys.redis, q, newId).1 == Reserved(newId) {
      NewMember(api.sys, q, newId);
      ApplyKeepsInv(api.sys, ReserveOp(q, newId));
      NewIsReleased(Apply(api.sys, ReserveOp(q, newId)), newId);
      hide Apply, Reserve, Inv, InIndex, LiveMeta, LiveClaim;
      AnswerToAccepted(rows, api, c, q, newId, saveUp, lookupUp);
    } else {
      AnswerToDenied(rows, api, c, q, newId, saveUp, lookupUp);
    }
  }

  lemma AnswerToAccepted(rows: map<string, Row>, api: Api, c: ReserveCall, q: Request, newId: string, saveUp: bool, lookupUp: bool)
    requires Gate(rows, api.sys.redis.now, c) == Passed(q) && Reserve(api.sys.redis, q, newId).1 == Reserved(newId)
    ensures var (next, reply) := HandleReserve(rows, api, c, newId, saveUp, lookupUp);
            var reserved := Apply(api.sys, ReserveOp(q, newId));
            if Recognised(api, c, newId, saveUp, lookupUp)
            then reply == Granted(newId) && next.sys == reserved
                 && c.idempotencyKey in next.saved && next.saved[c.idempotencyKey] == newId
            else reply == Failed && next == api.(sys := Apply(reserved, ReleaseOp(newId)))
  {
    hide Gate, Reserve, Apply;
  }

  lemma AnswerToDenied(rows: map<string, Row>, api: Api, c: ReserveCall, q: Request, newId: string, saveUp: bool, lookupUp: bool)
    requires Gate(rows, api.sys.redis.now, c) == Passed(q) && Reserve(api.sys.redis, q, newId).1.Rejected?
    ensures var (next, reply) := HandleReserve(rows, api, c, newId, saveUp, lookupUp);
            reply == Denied && next.sys.redis == Sweep(api.sys.redis) && next.saved == api.saved
  {
    DeniedLeavesSweep(api.sys.redis, q, newId);
    hide Gate, Reserve, Sweep;
  }

  lemma DeniedLeavesSweep(r: Redis, q: Request, newId: string)
    requires Reserve(r, q, newId).1.Rejected?
    ensures Reserve(r, q, newId).0 == Sweep(r)
  {
  }

  lemma NewIsReleased(sys: System, id: string)
    requires Inv(sys.redis, sys.issued) && LiveMeta(sys.redis, id)
    ensures !InIndex(Apply(sys, ReleaseOp(id)).redis.index, id)
  {
    WithoutEffect(sys.redis.index, id);
  }
}
