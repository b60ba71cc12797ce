/** What serial histories conserve: the aggregate, the single exit of a reservation, the idempotency window. */
module BudgetConservation {
  import opened Basics
  import opened BudgetKeys
  import opened Budget
  import opened BudgetHistory

  function Run(sys: System, ops: seq<Op>): System
    decreases |ops|
  {
    if ops == [] then sys else Run(Apply(sys, ops[0]), ops[1..])
  }

  predicate AllLegal(sys: System, ops: seq<Op>)
    decreases |ops|
  {
    ops != [] ==> Legal(sys, ops[0]) && AllLegal(Apply(sys, ops[0]), ops[1..])
  }

  lemma {:induction false} RunKeepsInv(sys: System, ops: seq<Op>)
    requires Inv(sys.redis, sys.issued) && AllLegal(sys, ops)
    ensures Inv(Run(sys, ops).redis, Run(sys, ops).issued)
    decreases |ops|
  {
    if ops != [] {
      ApplyKeepsInv(sys, ops[0]);
      RunKeepsInv(Apply(sys, ops[0]), ops[1..]);
    }
  }

  /** What a session has pending and committed. */
  function Total(sys: System, session: string): nat {
    Pending(sys.redis.index, session) + At(sys.committed, session)
  }

  /** The session's aggregate is readable and counts exactly its pending and committed amounts, or it never had any. */
  predicate Conserved(sys: System, session: string) {
    if session in sys.redis.aggregates
    then LiveAggregate(sys.redis, session) && sys.redis.aggregates[session].value == Total(sys, session)
    else Total(sys, session) == 0
  }

  /** While the aggregate is conserved, giving back a pending amount never hits the floor at zero. */
  lemma FloorNeverFires(sys: System, m: Member)
    requires Inv(sys.redis, sys.issued) && Conserved(sys, m.session) && m in sys.redis.index && m.session in sys.redis.aggregates
    ensures m.amount <= sys.redis.aggregates[m.session].value
    ensures CurrentValue(ReleaseAmount(sys.redis, m.session, m.amount), m.session) == CurrentValue(sys.redis, m.session) - m.amount
  {
    PendingBounds(sys.redis.index, m);
  }

  // ---------- Each operation conserves ----------

  lemma GiveBackConserves(sys: System, m: Member, session: string)
    requires Inv(sys.redis, sys.issued) && Conserved(sys, session) && m in sys.redis.index
    ensures var sys' := sys.(redis := SweepMember(sys.redis, m));
            && Conserved(sys', session)
            && Total(sys', session) == Total(sys, session) - if m.session == session then m.amount else 0
  {
    WithoutPending(sys.redis.index, m, session);
    PendingBounds(sys.redis.index, m);
  }

  lemma {:induction false} SweepMembersConserves(sys: System, due: seq<Member>, session: string)
    requires Inv(sys.redis, sys.issued) && DistinctIds(due) && forall m | m in due :: m in sys.redis.index
    requires Conserved(sys, session)
    ensures Conserved(sys.(redis := SweepMembers(sys.redis, due)), session)
    decreases |due|
  {
    if due != [] {
      var sys1 := sys.(redis := SweepMember(sys.redis, due[0]));
      GiveBackConserves(sys, due[0], session);
      SplitIndex(due);
      SweepMemberKeepsInv(sys.redis, sys.issued, due[0]);
      WithoutEffect(sys.redis.index, due[0].reservationId);
      SweepMembersConserves(sys1, due[1..], session);
    }
  }

  lemma SweepConserves(sys: System, session: string)
    requires Inv(sys.redis, sys.issued) && Conserved(sys, session)
    ensures Conserved(Apply(sys, SweepOp), session)
  {
    DueEffect(sys.redis.index, sys.redis.now);
    SweepMembersConserves(sys, Due(sys.redis.index, sys.redis.now), session);
  }

  lemma CommitConserves(sys: System, id: string, session: string)
    requires Inv(sys.redis, sys.issued) && Conserved(sys, session)
    ensures Conserved(Apply(sys, CommitOp(id)), session)
    ensures Total(Apply(sys, CommitOp(id)), session) == Total(sys, session)
  {
    match FindMember(sys.redis.index, id)
    case None => WithoutAbsent(sys.redis.index, id);
    case Some(m) => WithoutPending(sys.redis.index, m, session);
  }

  lemma ReleaseConserves(sys: System, id: string, session: string)
    requires Inv(sys.redis, sys.issued) && Conserved(sys, session)
    ensures Conserved(Apply(sys, ReleaseOp(id)), session)
  {
    if LiveMeta(sys.redis, id) {
      var meta := sys.redis.metadata[id];
      var m :| m in sys.redis.index && m.reservationId == id && m.session == meta.session && m.amount == meta.amount;
      GiveBackConserves(sys, m, session);
    }
  }

  lemma WriteConserves(sys: System, q: Request, key: string, amount: nat, newId: string, session: string)
    requires Conserved(sys, session)
    ensures var sys' := sys.(redis := Write(sys.redis, q, key, amount, newId));
            && Conserved(sys', session)
            && Total(sys', session) == Total(sys, session) + if session == q.session then amount else 0
  {
    var r' := Write(sys.redis, q, key, amount, newId);
    AppendPending(sys.redis.index, r'.index[|sys.redis.index|], session);
    assert r'.index == sys.redis.index + [r'.index[|sys.redis.index|]];
  }

  lemma ReserveConserves(sys: System, q: Request, newId: string, session: string)
    requires Inv(sys.redis, sys.issued) && Conserved(sys, session)
    ensures Conserved(Apply(sys, ReserveOp(q, newId)), session)
    ensures session == q.session && TermsOf(q).Terms? && Total(Apply(sys, SweepOp), session) <= TermsOf(q).cap ==>
              Total(Apply(sys, ReserveOp(q, newId)), session) <= TermsOf(q).cap
    ensures session != q.session || TermsOf(q).Invalid? ==>
              Total(Apply(sys, ReserveOp(q, newId)), session) == Total(Apply(sys, SweepOp), session)
  {
    SweepConserves(sys, session);
    var swept := Apply(sys, SweepOp);
    if TermsOf(q).Terms? {
      var Terms(key, amount, cap) := TermsOf(q);
      WriteConserves(swept, q, key, amount, newId, session);
    }
  }

  /** The operation does not let the session's aggregate key lapse. */
  predicate KeyLivesThrough(sys: System, op: Op, session: string) {
    op.TickOp? && session in sys.redis.aggregates ==> sys.redis.now + op.seconds <= sys.redis.aggregates[session].expiresAt
  }

  lemma ApplyConserves(sys: System, op: Op, session: string)
    requires Inv(sys.redis, sys.issued) && Conserved(sys, session) && KeyLivesThrough(sys, op, session)
    ensures Conserved(Apply(sys, op), session)
  {
    match op
    case ReserveOp(q, newId) => ReserveConserves(sys, q, newId, session);
    case CommitOp(id) => CommitConserves(sys, id, session);
    case ReleaseOp(id) => ReleaseConserves(sys, id, session);
    case SweepOp => SweepConserves(sys, session);
    case TickOp(seconds) =>
  }

  predicate KeyLives(sys: System, ops: seq<Op>, session: string)
    decreases |ops|
  {
    ops != [] ==> KeyLivesThrough(sys, ops[0], session) && KeyLives(Apply(sys, ops[0]), ops[1..], session)
  }

  lemma {:induction false} RunConserves(sys: System, ops: seq<Op>, session: string)
    requires Inv(sys.redis, sys.issued) && Conserved(sys, session) && AllLegal(sys, ops) && KeyLives(sys, ops, session)
    ensures Conserved(Run(sys, ops), session)
    decreases |ops|
  {
    if ops != [] {
      ApplyConserves(sys, ops[0], session);
      ApplyKeepsInv(sys, ops[0]);
      RunConserves(Apply(sys, ops[0]), ops[1..], session);
    }
  }

  /** Over any serial history in which the key does not lapse, the aggregate is what is pending plus what was committed. */
  lemma AggregateIsPendingPlusCommitted(now: nat, ops: seq<Op>, session: string)
    requires AllLegal(Start(now), ops) && KeyLives(Start(now), ops, session)
    ensures Conserved(Run(Start(now), ops), session)
  {
    RunConserves(Start(now), ops, session);
  }

  /** Once the key has lapsed, a newly accepted reservation restores the balance if and only if nothing was left over. */
  lemma AfterLapseConservedIff(sys: System, q: Request, newId: string)
    requires Inv(sys.redis, sys.issued) && Legal(sys, ReserveOp(q, newId))
    requires q.session in sys.redis.aggregates && !LiveAggregate(sys.redis, q.session)
    requires Reserve(sys.redis, q, newId).1 == Reserved(newId)
    ensures Conserved(Apply(sys, ReserveOp(q, newId)), q.session) <==> Total(Apply(sys, SweepOp), q.session) == 0
  {
    var swept := Sweep(sys.redis);
    SweepEffect(sys.redis, sys.issued);
    SweepKeepsLapsed(sys.redis, Due(sys.redis.index, sys.redis.now), q.session);
    var Terms(key, amount, cap) := TermsOf(q);
    var r' := Write(swept, q, key, amount, newId);
    AppendPending(swept.index, r'.index[|swept.index|], q.session);
    assert r'.index == swept.index + [r'.index[|swept.index|]];
  }

  lemma {:induction false} SweepKeepsLapsed(r: Redis, due: seq<Member>, session: string)
    requires session in r.aggregates && !LiveAggregate(r, session)
    ensures session in SweepMembers(r, due).aggregates && !LiveAggregate(SweepMembers(r, due), session)
    decreases |due|
  {
    if due != [] {
      SweepKeepsLapsed(SweepMember(r, due[0]), due[1..], session);
    }
  }

  // ---------- A reservation leaves the index once ----------

  /** A reservation that left the index cannot be committed or released again, nor come back, whatever follows. */
  lemma {:induction false} GoneForGood(sys: System, ops: seq<Op>, id: string)
    requires Inv(sys.redis, sys.issued) && AllLegal(sys, ops)
    requires id in sys.issued && !InIndex(sys.redis.index, id)
    ensures var last := Run(sys, ops);
            && !InIndex(last.redis.index, id)
            && Apply(last, CommitOp(id)) == last
            && Apply(last, ReleaseOp(id)) == last
    decreases |ops|
  {
    if ops == [] {
      WithoutAbsent(sys.redis.index, id);
      assert id !in sys.redis.metadata;
      assert sys.redis.metadata - {id} == sys.redis.metadata;
    } else {
      StaysGone(sys, ops[0], id);
      ApplyKeepsInv(sys, ops[0]);
      GoneForGood(Apply(sys, ops[0]), ops[1..], id);
    }
  }

  lemma StaysGone(sys: System, op: Op, id: string)
    requires Inv(sys.redis, sys.issued) && Legal(sys, op) && id in sys.issued && !InIndex(sys.redis.index, id)
    ensures id in Apply(sys, op).issued && !InIndex(Apply(sys, op).redis.index, id)
  {
    match op
    case ReserveOp(q, newId) => SweepEffect(sys.redis, sys.issued);
    case CommitOp(other) => WithoutEffect(sys.redis.index, other);
    case ReleaseOp(other) =>
      if LiveMeta(sys.redis, other) {
        WithoutEffect(sys.redis.index, other);
      }
    case SweepOp => SweepEffect(sys.redis, sys.issued);
    case TickOp(seconds) =>
  }

  // ---------- Idempotency ----------

  /** Over any history, at most one reservation is pending per claim key. */
  lemma OnePendingPerKey(now: nat, ops: seq<Op>, m: Member, n: Member)
    requires AllLegal(Start(now), ops)
    requires var sys := Run(Start(now), ops); m in sys.redis.index && n in sys.redis.index
    ensures var sys := Run(Start(now), ops);
            && m.reservationId in sys.issued && n.reservationId in sys.issued
            && (sys.issued[m.reservationId] == sys.issued[n.reservationId] ==> m == n)
  {
    RunKeepsInv(Start(now), ops);
    SameIdSameMember(Run(Start(now), ops).redis.index, m);
  }

  /** A live claim answers a repeat with its own reservation, takes no budget, and is backed by a pending member
      exactly when that member is still in the index and not yet due. */
  lemma RepeatAnsweredByClaim(sys: System, q: Request, newId: string)
    requires Inv(sys.redis, sys.issued) && TermsOf(q).Terms? && LiveClaim(sys.redis, TermsOf(q).key)
    ensures var id := sys.redis.claims[TermsOf(q).key].reservationId;
            && Reserve(sys.redis, q, newId) == (Sweep(sys.redis), Reserved(id))
            && (InIndex(Sweep(sys.redis).index, id) <==> exists m | m in sys.redis.index :: m.reservationId == id && m.score > sys.redis.now)
  {
    SweepEffect(sys.redis, sys.issued);
  }

  /** A live claim is not overwritten. */
  lemma ApplyKeepsClaim(sys: System, op: Op, key: string)
    requires Inv(sys.redis, sys.issued) && LiveClaim(sys.redis, key)
    ensures key in Apply(sys, op).redis.claims && Apply(sys, op).redis.claims[key] == sys.redis.claims[key]
    ensures Apply(sys, op).redis.now >= sys.redis.now
  {
    SweepEffect(sys.redis, sys.issued);
  }

  lemma {:induction false} RunKeepsClaim(sys: System, ops: seq<Op>, key: string)
    requires Inv(sys.redis, sys.issued) && AllLegal(sys, ops) && key in sys.redis.claims
    requires Run(sys, ops).redis.now <= sys.redis.claims[key].expiresAt
    ensures Run(sys, ops).redis.now >= sys.redis.now
    ensures LiveClaim(Run(sys, ops).redis, key) && Run(sys, ops).redis.claims[key] == sys.redis.claims[key]
    decreases |ops|
  {
    RunOnlyMovesClockForward(sys, ops);
    if ops != [] {
      ApplyKeepsClaim(sys, ops[0], key);
      ApplyKeepsInv(sys, ops[0]);
      RunKeepsClaim(Apply(sys, ops[0]), ops[1..], key);
    }
  }

  lemma {:induction false} RunOnlyMovesClockForward(sys: System, ops: seq<Op>)
    requires Inv(sys.redis, sys.issued) && AllLegal(sys, ops)
    ensures Run(sys, ops).redis.now >= sys.redis.now
    decreases |ops|
  {
    hide Sweep, Inv, TermsOf;
    if ops != [] {
      SweepEffect(sys.redis, sys.issued);
      ApplyKeepsInv(sys, ops[0]);
      RunOnlyMovesClockForward(Apply(sys, ops[0]), ops[1..]);
    }
  }

  /** Inside the window of an accepted reservation, a repeat of its key, whatever happened in between, gets its id and no budget. */
  lemma RepeatInsideWindow(sys: System, q: Request, id: string, ops: seq<Op>, again: Request, newId: string)
    requires Inv(sys.redis, sys.issued) && AllLegal(sys, [ReserveOp(q, id)] + ops)
    requires Reserve(sys.redis, q, id).1 == Reserved(id)
    requires TermsOf(again).Terms? && TermsOf(q).Terms? && TermsOf(again).key == TermsOf(q).key
    requires var later := Run(Apply(sys, ReserveOp(q, id)), ops); later.redis.now <= sys.redis.now + PendingSeconds(q.preSubmitTTL)
    ensures var later := Run(Apply(sys, ReserveOp(q, id)), ops);
            Reserve(later.redis, again, newId) == (Sweep(later.redis), Reserved(id))
  {
    assert ([ReserveOp(q, id)] + ops)[1..] == ops;
    var after := Apply(sys, ReserveOp(q, id));
    SweepEffect(sys.redis, sys.issued);
    ApplyKeepsInv(sys, ReserveOp(q, id));
    RunKeepsClaim(after, ops, TermsOf(q).key);
    RunKeepsInv(after, ops);
    RepeatAnsweredByClaim(Run(after, ops), again, newId);
  }

  /** The window's answer can be hollow: after a release, a repeat still gets the released id, which holds no budget. */
  lemma RepeatAfterReleaseIsHollow(sys: System, m: Member, q: Request, newId: string)
    requires Inv(sys.redis, sys.issued) && m in sys.redis.index && sys.redis.now <= m.score && LiveMeta(sys.redis, m.reservationId)
    requires TermsOf(q).Terms? && m.reservationId in sys.issued && TermsOf(q).key == sys.issued[m.reservationId]
    ensures var released := Apply(sys, ReleaseOp(m.reservationId));
            var (r, outcome) := Reserve(released.redis, q, newId);
            outcome == Reserved(m.reservationId) && !InIndex(r.index, m.reservationId)
  {
    var released := Apply(sys, ReleaseOp(m.reservationId));
    ApplyKeepsInv(sys, ReleaseOp(m.reservationId));
    WithoutEffect(sys.redis.index, m.reservationId);
    RepeatAnsweredByClaim(released, q, newId);
  }
}
