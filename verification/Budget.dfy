/** The Redis side of budget reservations, one service operation at a time, under a whole-second clock.

    A key with a TTL is readable up to and including its expiry second.  Amounts and members are held as values;
    `BudgetKeys` shows that their stored strings read back unchanged for session ids without a bar.
 */
module Budget {
  import opened Basics
  import opened BudgetKeys

  datatype Aggregate = Aggregate(value: nat, expiresAt: int)
  datatype Claim = Claim(reservationId: string, expiresAt: int)
  datatype Meta = Meta(session: string, amount: nat, expiresAt: int)
  datatype Member = Member(reservationId: string, session: string, amount: nat, score: int)

  /** `index` is the expiry index; a member's score is the second its reservation lapses. */
  datatype Redis = Redis(
    now: nat,
    aggregates: map<string, Aggregate>,
    claims: map<string, Claim>,
    metadata: map<string, Meta>,
    index: seq<Member>)

  datatype Reason = NoIdempotencyKey | NoSessionId | InvalidAmount | InvalidMaxTotalSpend | BudgetDenied
  datatype Outcome = Reserved(reservationId: string) | Rejected(reason: Reason)

  datatype Request = Request(
    session: string, idempotencyKey: string, amountAtomic: string, maxTotalSpend: string,
    preSubmitTTL: int, sessionAggregateTTL: int)

  predicate LiveAggregate(r: Redis, session: string) {
    session in r.aggregates && r.now <= r.aggregates[session].expiresAt
  }

  predicate LiveClaim(r: Redis, key: string) {
    key in r.claims && r.now <= r.claims[key].expiresAt
  }

  predicate LiveMeta(r: Redis, reservationId: string) {
    reservationId in r.metadata && r.now <= r.metadata[reservationId].expiresAt
  }

  predicate InIndex(index: seq<Member>, reservationId: string) {
    exists m | m in index :: m.reservationId == reservationId
  }

  /** The index without the first member of a reservation. */
  function Without(index: seq<Member>, reservationId: string): seq<Member> {
    if index == [] then []
    else if index[0].reservationId == reservationId then index[1..]
    else [index[0]] + Without(index[1..], reservationId)
  }

  /** Gives `amount` back to a session's aggregate, floored at zero and keeping its TTL; a forgotten aggregate stays so. */
  function ReleaseAmount(r: Redis, session: string, amount: nat): Redis {
    if !LiveAggregate(r, session) then r
    else
      var current := r.aggregates[session].value;
      r.(aggregates := r.aggregates[session := r.aggregates[session].(value := if current < amount then 0 else current - amount)])
  }

  function Forget(r: Redis, reservationId: string): Redis {
    r.(metadata := r.metadata - {reservationId}, index := Without(r.index, reservationId))
  }

  function SweepMember(r: Redis, m: Member): Redis {
    Forget(ReleaseAmount(r, m.session, m.amount), m.reservationId)
  }

  function SweepMembers(r: Redis, due: seq<Member>): Redis
    decreases |due|
  {
    if due == [] then r else SweepMembers(SweepMember(r, due[0]), due[1..])
  }

  /** The members whose score lies in [0, now]. */
  function Due(index: seq<Member>, now: int): seq<Member> {
    if index == [] then []
    else (if 0 <= index[0].score <= now then [index[0]] else []) + Due(index[1..], now)
  }

  function Sweep(r: Redis): Redis {
    SweepMembers(r, Due(r.index, r.now))
  }

  function Commit(r: Redis, reservationId: string): Redis {
    Forget(r, reservationId)
  }

  function Release(r: Redis, reservationId: string): Redis {
    if !LiveMeta(r, reservationId) then r
    else
      var meta := r.metadata[reservationId];
      Forget(ReleaseAmount(r, meta.session, meta.amount), reservationId)
  }

  function PendingSeconds(preSubmitTTL: int): int {
    if preSubmitTTL <= 0 then 300 else preSubmitTTL
  }

  function AggregateSeconds(sessionAggregateTTL: int): int {
    if sessionAggregateTTL <= 0 then 24 * 60 * 60 else sessionAggregateTTL
  }

  /** A positive decimal amount. */
  function Positive(text: string): (amount: Option<nat>)
    ensures amount.Some? ==> amount.value > 0
  {
    match ParseDecimal(text)
    case None => None
    case Some(n) => if n <= 0 then None else Some(n)
  }

  /** What a request asks for once its fields are valid: the claim it makes, its amount and the session's cap. */
  datatype Terms = Terms(key: string, amount: nat, cap: nat) | Invalid(reason: Reason)

  function TermsOf(q: Request): Terms {
    match IdemKey(q.session, q.idempotencyKey)
    case MissingIdempotencyKey => Invalid(NoIdempotencyKey)
    case MissingSessionId => Invalid(NoSessionId)
    case Key(key) =>
      match Positive(q.amountAtomic)
      case None => Invalid(InvalidAmount)
      case Some(amount) =>
        match Positive(q.maxTotalSpend)
        case None => Invalid(InvalidMaxTotalSpend)
        case Some(cap) => Terms(key, amount, cap)
  }

  function CurrentValue(r: Redis, session: string): nat {
    if LiveAggregate(r, session) then r.aggregates[session].value else 0
  }

  /** The four writes of an accepted reservation. */
  function Write(r: Redis, q: Request, key: string, amount: nat, newId: string): Redis {
    var lapse := r.now + PendingSeconds(q.preSubmitTTL);
    Redis(
      r.now,
      r.aggregates[q.session := Aggregate(CurrentValue(r, q.session) + amount, r.now + AggregateSeconds(q.sessionAggregateTTL))],
      r.claims[key := Claim(newId, lapse)],
      r.metadata[newId := Meta(q.session, amount, r.now + 2 * PendingSeconds(q.preSubmitTTL))],
      r.index + [Member(newId, q.session, amount, lapse)])
  }

  /** `newId` is the identifier a new reservation would get. */
  function Reserve(r: Redis, q: Request, newId: string): (Redis, Outcome) {
    var r1 := Sweep(r);
    match TermsOf(q)
    case Invalid(reason) => (r1, Rejected(reason))
    case Terms(key, amount, cap) =>
      if LiveClaim(r1, key) && r1.claims[key].reservationId != "" then (r1, Reserved(r1.claims[key].reservationId))
      else if CurrentValue(r1, q.session) + amount > cap then (r1, Rejected(BudgetDenied))
      else (Write(r1, q, key, amount, newId), Reserved(newId))
  }

  /** The amounts of a session's members. */
  function Pending(index: seq<Member>, session: string): nat {
    if index == [] then 0
    else (if index[0].session == session then index[0].amount else 0) + Pending(index[1..], session)
  }

  // ---------- The index as a list of distinct reservations ----------

  predicate DistinctIds(index: seq<Member>) {
    forall i, j | 0 <= i < j < |index| :: index[i].reservationId != index[j].reservationId
  }

  lemma SplitIndex(index: seq<Member>)
    requires index != [] && DistinctIds(index)
    ensures DistinctIds(index[1..])
    ensures forall m | m in index[1..] :: m.reservationId != index[0].reservationId
    ensures forall m :: m in index <==> m == index[0] || m in index[1..]
  {
  }

  lemma PrependDistinct(m: Member, rest: seq<Member>)
    requires DistinctIds(rest) && forall x | x in rest :: x.reservationId != m.reservationId
    ensures DistinctIds([m] + rest)
  {
  }

  lemma {:induction false} WithoutEffect(index: seq<Member>, id: string)
    requires DistinctIds(index)
    ensures forall m :: m in Without(index, id) <==> m in index && m.reservationId != id
    ensures DistinctIds(Without(index, id))
  {
    if index != [] {
      SplitIndex(index);
      if index[0].reservationId != id {
        WithoutEffect(index[1..], id);
        PrependDistinct(index[0], Without(index[1..], id));
      }
    }
  }

  lemma {:induction false} WithoutAbsent(index: seq<Member>, id: string)
    requires !InIndex(index, id)
    ensures Without(index, id) == index
  {
    if index != [] {
      assert index[0] in index;
      assert forall m | m in index[1..] :: m in index;
      WithoutAbsent(index[1..], id);
    }
  }

  lemma {:induction false} WithoutPending(index: seq<Member>, m: Member, session: string)
    requires DistinctIds(index) && m in index
    ensures Pending(Without(index, m.reservationId), session) == Pending(index, session) - if m.session == session then m.amount else 0
  {
    if index[0].reservationId == m.reservationId {
      assert m == index[0];
    } else {
      assert m in index[1..];
      WithoutPending(index[1..], m, session);
      var rest := Without(index[1..], m.reservationId);
      assert ([index[0]] + rest)[1..] == rest;
    }
  }

  lemma {:induction false} AppendPending(index: seq<Member>, m: Member, session: string)
    ensures Pending(index + [m], session) == Pending(index, session) + if m.session == session then m.amount else 0
  {
    if index != [] {
      assert (index + [m])[1..] == index[1..] + [m];
      AppendPending(index[1..], m, session);
    }
  }

  lemma {:induction false} PendingBounds(index: seq<Member>, m: Member)
    requires m in index
    ensures m.amount <= Pending(index, m.session)
  {
    if m != index[0] {
      assert m in index[1..];
      PendingBounds(index[1..], m);
    }
  }

  lemma {:induction false} DueEffect(index: seq<Member>, now: int)
    requires DistinctIds(index)
    ensures forall m :: m in Due(index, now) <==> m in index && 0 <= m.score <= now
    ensures DistinctIds(Due(index, now))
  {
    if index != [] {
      SplitIndex(index);
      DueEffect(index[1..], now);
      PrependDistinct(index[0], Due(index[1..], now));
    }
  }
}
