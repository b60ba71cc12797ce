/** Serial histories of the reservation service: conservation, single exit, idempotency. */
module BudgetHistory {
  import opened Basics
  import opened BudgetKeys
  import opened Budget

  /** Redis with what the history did: the claim key each reservation was issued under, and per session the amounts committed. */
  datatype System = System(redis: Redis, issued: map<string, string>, committed: map<string, nat>)

  datatype Op =
    | ReserveOp(request: Request, newId: string)
    | CommitOp(reservationId: string)
    | ReleaseOp(reservationId: string)
    | SweepOp
    | TickOp(seconds: nat)

  function FindMember(index: seq<Member>, id: string): (m: Option<Member>)
    ensures m.Some? ==> m.value in index && m.value.reservationId == id
    ensures m.None? ==> !InIndex(index, id)
  {
    if index == [] then None
    else if index[0].reservationId == id then Some(index[0])
    else
      assert forall m | m in index :: m == index[0] || m in index[1..];
      FindMember(index[1..], id)
  }

  function Apply(sys: System, op: Op): System {
    match op
    case ReserveOp(q, newId) =>
      var (r, outcome) := Reserve(sys.redis, q, newId);
      sys.(redis := r, issued := if outcome == Reserved(newId) && TermsOf(q).Terms? then sys.issued[newId := TermsOf(q).key] else sys.issued)
    case CommitOp(id) =>
      sys.(redis := Commit(sys.redis, id),
           committed := match FindMember(sys.redis.index, id)
                        case None => sys.committed
                        case Some(m) => sys.committed[m.session := At(sys.committed, m.session) + m.amount])
    case ReleaseOp(id) => sys.(redis := Release(sys.redis, id))
    case SweepOp => sys.(redis := Sweep(sys.redis))
    case TickOp(seconds) => sys.(redis := sys.redis.(now := sys.redis.now + seconds))
  }

  /** Reservation ids are fresh UUIDs. */
  predicate Legal(sys: System, op: Op) {
    op.ReserveOp? ==> op.newId != "" && op.newId !in sys.issued
  }

  function Start(now: nat): System {
    System(Redis(now, map[], map[], map[], []), map[], map[])
  }

  // ---------- Structure ----------

  /** Metadata, even unread or expired, always has its member. */
  predicate MetadataBacked(r: Redis) {
    forall id | id in r.metadata ::
      exists m | m in r.index :: m.reservationId == id && m.session == r.metadata[id].session && m.amount == r.metadata[id].amount
  }

  /** A member has metadata, which outlives it. */
  predicate MembersKnown(r: Redis) {
    forall m | m in r.index :: m.reservationId in r.metadata && r.metadata[m.reservationId].expiresAt >= m.score
  }

  /** A member not yet due still holds its claim, until the very second it lapses. */
  predicate ClaimsHeld(r: Redis, issued: map<string, string>) {
    forall m | m in r.index ::
      && m.reservationId in issued
      && (r.now <= m.score ==>
            issued[m.reservationId] in r.claims && r.claims[issued[m.reservationId]] == Claim(m.reservationId, m.score))
  }

  /** At most one pending reservation per claim key. */
  predicate OnePerKey(index: seq<Member>, issued: map<string, string>) {
    forall m, n | m in index && n in index && m.reservationId in issued && n.reservationId in issued ::
      issued[m.reservationId] == issued[n.reservationId] ==> m.reservationId == n.reservationId
  }

  predicate ClaimsIssued(r: Redis, issued: map<string, string>) {
    forall key | key in r.claims :: r.claims[key].reservationId in issued && r.claims[key].reservationId != ""
  }

  predicate Inv(r: Redis, issued: map<string, string>) {
    && DistinctIds(r.index)
    && (forall m | m in r.index :: m.score >= 0)
    && MetadataBacked(r)
    && MembersKnown(r)
    && ClaimsHeld(r, issued)
    && OnePerKey(r.index, issued)
    && ClaimsIssued(r, issued)
  }

  /** Two states that differ at most in aggregates. */
  predicate SameButAggregates(a: Redis, b: Redis) {
    a == b.(aggregates := a.aggregates)
  }

  lemma ReleaseAmountEffect(r: Redis, session: string, amount: nat)
    ensures SameButAggregates(ReleaseAmount(r, session, amount), r)
  {
  }

  lemma ForgetKeepsInv(r: Redis, issued: map<string, string>, id: string)
    requires Inv(r, issued)
    ensures Inv(Forget(r, id), issued)
    ensures !InIndex(Forget(r, id).index, id)
  {
    WithoutEffect(r.index, id);
    var r' := Forget(r, id);
    forall other | other in r'.metadata
      ensures exists m | m in r'.index :: m.reservationId == other && m.session == r'.metadata[other].session && m.amount == r'.metadata[other].amount
    {
      var m :| m in r.index && m.reservationId == other && m.session == r.metadata[other].session && m.amount == r.metadata[other].amount;
      assert m in r'.index;
    }
  }

  lemma SweepMemberKeepsInv(r: Redis, issued: map<string, string>, m: Member)
    requires Inv(r, issued)
    ensures Inv(SweepMember(r, m), issued)
    ensures SweepMember(r, m).index == Without(r.index, m.reservationId)
    ensures SweepMember(r, m).now == r.now && SweepMember(r, m).claims == r.claims
  {
    ReleaseAmountEffect(r, m.session, m.amount);
    ForgetKeepsInv(ReleaseAmount(r, m.session, m.amount), issued, m.reservationId);
  }

  /** Sweeping a list of members keeps the structure and removes exactly those members. */
  lemma {:induction false} SweepMembersEffect(r: Redis, issued: map<string, string>, due: seq<Member>)
    requires Inv(r, issued) && DistinctIds(due) && forall m | m in due :: m in r.index
    ensures var r' := SweepMembers(r, due);
            && Inv(r', issued) && r'.now == r.now && r'.claims == r.claims
            && forall m :: m in r'.index <==> m in r.index && m !in due
    decreases |due|
  {
    if due != [] {
      SplitIndex(due);
      var r1 := SweepMember(r, due[0]);
      SweepMemberKeepsInv(r, issued, due[0]);
      WithoutEffect(r.index, due[0].reservationId);
      SameIdSameMember(r.index, due[0]);
      SweepMembersEffect(r1, issued, due[1..]);
    }
  }

  lemma SameIdSameMember(index: seq<Member>, m: Member)
    requires DistinctIds(index) && m in index
    ensures forall n | n in index && n.reservationId == m.reservationId :: n == m
  {
    var i :| 0 <= i < |index| && index[i] == m;
    forall n | n in index && n.reservationId == m.reservationId ensures n == m {
      var j :| 0 <= j < |index| && index[j] == n;
    }
  }

  /** A sweep removes exactly the members that are due. */
  lemma SweepEffect(r: Redis, issued: map<string, string>)
    requires Inv(r, issued)
    ensures var r' := Sweep(r);
            && Inv(r', issued) && r'.now == r.now && r'.claims == r.claims
            && forall m :: m in r'.index <==> m in r.index && m.score > r.now
  {
    DueEffect(r.index, r.now);
    SweepMembersEffect(r, issued, Due(r.index, r.now));
  }

  lemma WriteKeepsMetadata(r: Redis, q: Request, key: string, amount: nat, newId: string)
    requires MetadataBacked(r) && MembersKnown(r) && !InIndex(r.index, newId)
    ensures MetadataBacked(Write(r, q, key, amount, newId)) && MembersKnown(Write(r, q, key, amount, newId))
  {
    var r' := Write(r, q, key, amount, newId);
    var added := r'.index[|r.index|];
    assert r'.index == r.index + [added];
    forall id | id in r'.metadata
      ensures exists m | m in r'.index :: m.reservationId == id && m.session == r'.metadata[id].session && m.amount == r'.metadata[id].amount
    {
      if id == newId {
        assert added in r'.index;
      } else {
        var m :| m in r.index && m.reservationId == id && m.session == r.metadata[id].session && m.amount == r.metadata[id].amount;
        assert m in r'.index;
      }
    }
  }

  lemma WriteKeepsClaims(r: Redis, issued: map<string, string>, q: Request, key: string, amount: nat, newId: string)
    requires ClaimsHeld(r, issued) && OnePerKey(r.index, issued) && ClaimsIssued(r, issued)
    requires newId !in issued && newId != "" && !LiveClaim(r, key)
    requires forall m | m in r.index :: m.score > r.now
    ensures var r', issued' := Write(r, q, key, amount, newId), issued[newId := key];
            ClaimsHeld(r', issued') && OnePerKey(r'.index, issued') && ClaimsIssued(r', issued')
  {
    var r', issued' := Write(r, q, key, amount, newId), issued[newId := key];
    var added := r'.index[|r.index|];
    assert forall m | m in r.index :: m.reservationId != newId && issued[m.reservationId] != key;
    assert forall m | m in r'.index :: m == added || m in r.index;
  }

  /** An accepted reservation: its claim key had no pending member, so the structure survives the new one. */
  lemma WriteKeepsInv(r: Redis, issued: map<string, string>, q: Request, key: string, amount: nat, newId: string)
    requires Inv(r, issued) && newId !in issued && newId != "" && !LiveClaim(r, key)
    requires forall m | m in r.index :: m.score > r.now
    ensures Inv(Write(r, q, key, amount, newId), issued[newId := key])
  {
    assert forall m | m in r.index :: m.reservationId in issued;
    hide MetadataBacked, MembersKnown, ClaimsHeld, OnePerKey, ClaimsIssued;
    var r' := Write(r, q, key, amount, newId);
    var added := r'.index[|r.index|];
    assert r'.index == r.index + [added];
    AppendDistinct(r.index, added);
    WriteKeepsMetadata(r, q, key, amount, newId);
    WriteKeepsClaims(r, issued, q, key, amount, newId);
    assert forall m | m in r'.index :: m == added || m in r.index;
  }

  lemma AppendDistinct(index: seq<Member>, m: Member)
    requires DistinctIds(index) && forall x | x in index :: x.reservationId != m.reservationId
    ensures DistinctIds(index + [m])
  {
  }

  lemma ReserveKeepsInv(sys: System, q: Request, newId: string)
    requires Inv(sys.redis, sys.issued) && Legal(sys, ReserveOp(q, newId))
    ensures Inv(Apply(sys, ReserveOp(q, newId)).redis, Apply(sys, ReserveOp(q, newId)).issued)
  {
    SweepEffect(sys.redis, sys.issued);
    var r1 := Sweep(sys.redis);
    if TermsOf(q).Terms? {
      var Terms(key, amount, cap) := TermsOf(q);
      if !LiveClaim(r1, key) && CurrentValue(r1, q.session) + amount <= cap {
        WriteKeepsInv(r1, sys.issued, q, key, amount, newId);
      }
    }
  }

  lemma ApplyKeepsInv(sys: System, op: Op)
    requires Inv(sys.redis, sys.issued) && Legal(sys, op)
    ensures Inv(Apply(sys, op).redis, Apply(sys, op).issued)
  {
    match op
    case ReserveOp(q, newId) => ReserveKeepsInv(sys, q, newId);
    case CommitOp(id) => ForgetKeepsInv(sys.redis, sys.issued, id);
    case ReleaseOp(id) =>
      if LiveMeta(sys.redis, id) {
        var meta := sys.redis.metadata[id];
        ReleaseAmountEffect(sys.redis, meta.session, meta.amount);
        ForgetKeepsInv(ReleaseAmount(sys.redis, meta.session, meta.amount), sys.issued, id);
      }
    case SweepOp => SweepEffect(sys.redis, sys.issued);
    case TickOp(seconds) =>
  }
}
