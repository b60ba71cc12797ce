/** Budgets across the spellings of a session id: the row is found in any letter case, the Redis keys are not. */
module BudgetSpellings {
  import opened Basics
  import opened BudgetKeys
  import opened Budget
  import opened BudgetHistory
  import opened BudgetConservation
  import opened BudgetHandler

  // ---------- The joint total ----------

  /** What the members of every spelling of `id` have pending; `id` is in lower case. */
  function JointPending(index: seq<Member>, id: string): nat {
    if index == [] then 0
    else (if Lower(index[0].session) == id then index[0].amount else 0) + JointPending(index[1..], id)
  }

  function SpellingsIn(committed: map<string, nat>, id: string): set<string> {
    set s | s in committed && Lower(s) == id
  }

  /** Everything pending and committed under any spelling of `id`. */
  ghost function Joint(sys: System, id: string): nat {
    JointPending(sys.redis.index, id) + SumOver(sys.committed, SpellingsIn(sys.committed, id))
  }

  lemma {:induction false} JointWithout(index: seq<Member>, m: Member, id: string)
    requires DistinctIds(index) && m in index
    ensures JointPending(Without(index, m.reservationId), id) == JointPending(index, id) - if Lower(m.session) == id then m.amount else 0
  {
    hide Lower;
    if index[0].reservationId == m.reservationId {
      assert m == index[0];
    } else {
      assert m in index[1..];
      JointWithout(index[1..], m, id);
      var rest := Without(index[1..], m.reservationId);
      assert ([index[0]] + rest)[1..] == rest;
    }
  }

  lemma {:induction false} JointAppend(index: seq<Member>, m: Member, id: string)
    ensures JointPending(index + [m], id) == JointPending(index, id) + if Lower(m.session) == id then m.amount else 0
  {
    hide Lower;
    if index != [] {
      assert (index + [m])[1..] == index[1..] + [m];
      JointAppend(index[1..], m, id);
    }
  }

  /** Committing an amount under one spelling raises the joint committed sum by it. */
  lemma CommittedRaised(committed: map<string, nat>, session: string, amount: nat, id: string)
    ensures var after := committed[session := At(committed, session) + amount];
            SumOver(after, SpellingsIn(after, id)) == SumOver(committed, SpellingsIn(committed, id)) + if Lower(session) == id then amount else 0
  {
    hide Lower;
    var after := committed[session := At(committed, session) + amount];
    var before, now := SpellingsIn(committed, id), SpellingsIn(after, id);
    SumOverBump(committed, after, now, session, amount);
    if Lower(session) == id && session !in committed {
      SumOverSplit(committed, now, session);
      assert now - {session} == before;
    } else {
      assert now == before;
    }
  }

  // ---------- What each operation does to it ----------

  lemma {:induction false} SweepMembersJoint(sys: System, due: seq<Member>, id: string)
    requires Inv(sys.redis, sys.issued) && DistinctIds(due) && forall m | m in due :: m in sys.redis.index
    ensures Joint(sys.(redis := SweepMembers(sys.redis, due)), id) <= Joint(sys, id)
    decreases |due|
  {
    hide Lower, JointPending, SpellingsIn, SumOver;
    if due != [] {
      JointWithout(sys.redis.index, due[0], id);
      SplitIndex(due);
      SweepMemberKeepsInv(sys.redis, sys.issued, due[0]);
      WithoutEffect(sys.redis.index, due[0].reservationId);
      SweepMembersJoint(sys.(redis := SweepMember(sys.redis, due[0])), due[1..], id);
    }
  }

  lemma SweepJoint(sys: System, id: string)
    requires Inv(sys.redis, sys.issued)
    ensures Joint(Apply(sys, SweepOp), id) <= Joint(sys, id)
  {
    hide Joint;
    DueEffect(sys.redis.index, sys.redis.now);
    SweepMembersJoint(sys, Due(sys.redis.index, sys.redis.now), id);
  }

  lemma CommitJoint(sys: System, reservationId: string, id: string)
    requires Inv(sys.redis, sys.issued)
    ensures Joint(Apply(sys, CommitOp(reservationId)), id) == Joint(sys, id)
  {
    hide Lower, JointPending, SpellingsIn, SumOver;
    match FindMember(sys.redis.index, reservationId)
    case None => WithoutAbsent(sys.redis.index, reservationId);
    case Some(m) =>
      JointWithout(sys.redis.index, m, id);
      CommittedRaised(sys.committed, m.session, m.amount, id);
  }

  /** A release gives back the member's amount, of whatever spelling. */
  lemma ReleaseJoint(sys: System, reservationId: string, id: string)
    requires Inv(sys.redis, sys.issued)
    ensures Joint(Apply(sys, ReleaseOp(reservationId)), id) <= Joint(sys, id)
    ensures forall m | m in sys.redis.index && m.reservationId == reservationId && LiveMeta(sys.redis, reservationId) ::
              Joint(Apply(sys, ReleaseOp(reservationId)), id) == Joint(sys, id) - if Lower(m.session) == id then m.amount else 0
  {
    hide Lower, JointPending, SpellingsIn, SumOver;
    if LiveMeta(sys.redis, reservationId) {
      var meta := sys.redis.metadata[reservationId];
      ReleaseAmountEffect(sys.redis, meta.session, meta.amount);
      var m :| m in sys.redis.index && m.reservationId == reservationId && m.session == meta.session && m.amount == meta.amount;
      JointWithout(sys.redis.index, m, id);
      SameIdSameMember(sys.redis.index, m);
    }
  }

  lemma WriteJoint(sys: System, q: Request, key: string, amount: nat, newId: string, id: string)
    ensures Joint(sys.(redis := Write(sys.redis, q, key, amount, newId)), id) == Joint(sys, id) + if Lower(q.session) == id then amount else 0
  {
    hide Lower, JointPending, SpellingsIn, SumOver;
    var added := Member(newId, q.session, amount, sys.redis.now + PendingSeconds(q.preSubmitTTL));
    assert Write(sys.redis, q, key, amount, newId).index == sys.redis.index + [added];
    JointAppend(sys.redis.index, added, id);
  }

  /** An accepted reservation, of whatever spelling, adds its amount to what the sweep left of the joint total: the total is
      within a cap afterwards exactly if there was joint room for it. */
  lemma JointAfterReserve(sys: System, q: Request, newId: string, id: string, cap: nat)
    requires Inv(sys.redis, sys.issued) && Legal(sys, ReserveOp(q, newId))
    ensures var swept, after := Joint(Apply(sys, SweepOp), id), Joint(Apply(sys, ReserveOp(q, newId)), id);
            && after == swept + (if Accepted(sys, q, newId) && Lower(q.session) == id then TermsOf(q).amount else 0)
            && (Accepted(sys, q, newId) && Lower(q.session) == id ==> (after <= cap <==> swept + TermsOf(q).amount <= cap))
  {
    hide Joint, Lower, Write, Sweep, TermsOf;
    var swept := Apply(sys, SweepOp);
    SweepEffect(sys.redis, sys.issued);
    if TermsOf(q).Terms? {
      WriteJoint(swept, q, TermsOf(q).key, TermsOf(q).amount, newId, id);
    }
    JointIgnoresIssued(Apply(sys, ReserveOp(q, newId)), swept.issued, id);
  }

  lemma JointIgnoresIssued(sys: System, issued: map<string, string>, id: string)
    ensures Joint(sys, id) == Joint(sys.(issued := issued), id)
  {
  }

  /** Acceptance looks at the request's own spelling only: one that has no aggregate yet gets any amount up to the full cap,
      whatever other spellings hold, and leaves their aggregates alone. */
  lemma SpellingsHaveSeparateBudgets(rows: map<string, Row>, api: Api, c: ReserveCall, newId: string, first: string)
    requires Inv(api.sys.redis, api.sys.issued) && Lower(first) == Lower(c.sessionId) && first != c.sessionId
    requires Gate(rows, api.sys.redis.now, c).Passed? && c.sessionId !in api.sys.redis.aggregates
    requires newId != "" && newId !in api.sys.issued
    requires var q := Gate(rows, api.sys.redis.now, c).request; TermsOf(q).Terms? && !LiveClaim(api.sys.redis, TermsOf(q).key)
    ensures var q := Gate(rows, api.sys.redis.now, c).request;
            && (Accepted(api.sys, q, newId) <==> TermsOf(q).amount <= Cap(rows, first))
            && CurrentValue(Reserve(api.sys.redis, q, newId).0, first) == CurrentValue(Sweep(api.sys.redis), first)
  {
    hide Lower;
    var q := Gate(rows, api.sys.redis.now, c).request;
    GateEffect(rows, api.sys.redis.now, c, q);
    SweepEffect(api.sys.redis, api.sys.issued);
    DueEffect(api.sys.redis.index, api.sys.redis.now);
    SweepNeverAdds(api.sys, Due(api.sys.redis.index, api.sys.redis.now), c.sessionId);
  }

  // ---------- Over whole runs of the handlers ----------

  /** The call is answered with a reservation made for it. */
  predicate Grants(rows: map<string, Row>, api: Api, op: ApiOp) {
    op.ReserveBudget? && HandleReserve(rows, api, op.request, op.newId, op.saveUp, op.lookupUp).1 == Granted(op.newId)
  }

  predicate GrantsFor(rows: map<string, Row>, api: Api, op: ApiOp, session: string) {
    Grants(rows, api, op) && Lower(op.request.sessionId) == Lower(session)
  }

  function AmountOf(op: ApiOp): nat {
    if op.ReserveBudget? && Positive(op.request.amountAtomic).Some? then Positive(op.request.amountAtomic).value else 0
  }

  lemma GateKeepsCall(rows: map<string, Row>, now: nat, op: ApiOp)
    requires op.ReserveBudget? && Gate(rows, now, op.request).Passed?
    ensures var q := Gate(rows, now, op.request).request;
            q.session == op.request.sessionId && (TermsOf(q).Terms? ==> TermsOf(q).amount == AmountOf(op))
  {
  }

  /** A granted call adds its amount to what the sweep left; no other operation adds to the joint total. */
  lemma HandleJoint(rows: map<string, Row>, api: Api, op: ApiOp, session: string)
    requires Inv(api.sys.redis, api.sys.issued)
    requires op.ReserveBudget? ==> op.newId != "" && op.newId !in api.sys.issued
    ensures var id, next := Lower(session), Handle(rows, api, op).sys;
            if GrantsFor(rows, api, op, session)
            then Joint(next, id) == Joint(Apply(api.sys, SweepOp), id) + AmountOf(op)
            else Joint(next, id) <= Joint(api.sys, id)
  {
    hide Joint, Lower;
    var id := Lower(session);
    match op
    case ReserveBudget(c, newId, saveUp, lookupUp) => ReserveBudgetJoint(rows, api, op, session);
    case Finalize(reservationId) => CommitJoint(api.sys, reservationId, id);
    case Reverted(reservationId) => ReleaseJoint(api.sys, reservationId, id);
    case Wait(seconds) => WaitJoint(api.sys, seconds, id);
  }

  lemma WaitJoint(sys: System, seconds: nat, id: string)
    ensures Joint(Apply(sys, TickOp(seconds)), id) == Joint(sys, id)
  {
    hide Lower;
  }

  lemma ReserveBudgetJoint(rows: map<string, Row>, api: Api, op: ApiOp, session: string)
    requires Inv(api.sys.redis, api.sys.issued) && op.ReserveBudget? && op.newId != "" && op.newId !in api.sys.issued
    ensures var id, next := Lower(session), Handle(rows, api, op).sys;
            if GrantsFor(rows, api, op, session)
            then Joint(next, id) == Joint(Apply(api.sys, SweepOp), id) + AmountOf(op)
            else Joint(next, id) <= Joint(api.sys, id)
  {
    hide Joint, Lower, Sweep, TermsOf, Write;
    var id, sys := Lower(session), api.sys;
    if Gate(rows, sys.redis.now, op.request).Passed? {
      var q := Gate(rows, sys.redis.now, op.request).request;
      GateKeepsCall(rows, sys.redis.now, op);
      SweepJoint(sys, id);
      JointAfterReserve(sys, q, op.newId, id, 0);
      ApplyKeepsInv(sys, ReserveOp(q, op.newId));
      var reserved := Apply(sys, ReserveOp(q, op.newId));
      var outcome := Reserve(sys.redis, q, op.newId).1;
      if outcome.Reserved? {
        ReleaseJoint(reserved, outcome.reservationId, id);
        AcceptedHasTerms(sys.redis, q, op.newId);
        if outcome == Reserved(op.newId) {
          NewMember(sys, q, op.newId);
        }
      }
    }
  }

  /** Throughout the run, the joint total of the session's spellings is within its cap. */
  ghost predicate WithinThroughout(rows: map<string, Row>, api: Api, ops: seq<ApiOp>, session: string)
    decreases |ops|
  {
    && Joint(api.sys, Lower(session)) <= Cap(rows, session)
    && (ops != [] ==> WithinThroughout(rows, Handle(rows, api, ops[0]), ops[1..], session))
  }

  /** Throughout the run, a call is granted only if its amount has room next to everything its spellings hold jointly. */
  ghost predicate FitsThroughout(rows: map<string, Row>, api: Api, ops: seq<ApiOp>, session: string)
    decreases |ops|
  {
    ops != [] ==>
      && (GrantsFor(rows, api, ops[0], session) ==> Joint(Apply(api.sys, SweepOp), Lower(session)) + AmountOf(ops[0]) <= Cap(rows, session))
      && FitsThroughout(rows, Handle(rows, api, ops[0]), ops[1..], session)
  }

  lemma {:induction false} RunJointIff(rows: map<string, Row>, api: Api, ops: seq<ApiOp>, session: string)
    requires Inv(api.sys.redis, api.sys.issued) && FreshIds(rows, api, ops) && Joint(api.sys, Lower(session)) <= Cap(rows, session)
    ensures WithinThroughout(rows, api, ops, session) <==> FitsThroughout(rows, api, ops, session)
    decreases |ops|
  {
    hide Joint, Lower, Cap, Handle, Inv;
    if ops != [] {
      var next := Handle(rows, api, ops[0]);
      HandleJoint(rows, api, ops[0], session);
      HandleKeepsInv(rows, api, ops[0]);
      if Joint(next.sys, Lower(session)) <= Cap(rows, session) {
        RunJointIff(rows, next, ops[1..], session);
      }
    }
  }

  lemma HandleKeepsInv(rows: map<string, Row>, api: Api, op: ApiOp)
    requires Inv(api.sys.redis, api.sys.issued)
    requires op.ReserveBudget? ==> op.newId != "" && op.newId !in api.sys.issued
    ensures Inv(Handle(rows, api, op).sys.redis, Handle(rows, api, op).sys.issued)
  {
    hide Inv, Gate, Reserve;
    match op
    case ReserveBudget(c, newId, saveUp, lookupUp) =>
      if Gate(rows, api.sys.redis.now, c).Passed? {
        var q := Gate(rows, api.sys.redis.now, c).request;
        ApplyKeepsInv(api.sys, ReserveOp(q, newId));
        var outcome := Reserve(api.sys.redis, q, newId).1;
        if outcome.Reserved? {
          ApplyKeepsInv(Apply(api.sys, ReserveOp(q, newId)), ReleaseOp(outcome.reservationId));
        }
      }
    case Finalize(id) => ApplyKeepsInv(api.sys, CommitOp(id));
    case Reverted(id) => ApplyKeepsInv(api.sys, ReleaseOp(id));
    case Wait(seconds) => ApplyKeepsInv(api.sys, TickOp(seconds));
  }

  /** Over every serial run of the handlers, a session's budget holds jointly for all its spellings, throughout, if and only
      if no call was granted without joint room for it. */
  lemma JointBudgetIff(rows: map<string, Row>, now: nat, ops: seq<ApiOp>, session: string)
    requires FreshIds(rows, Api(Start(now), map[]), ops)
    ensures var start := Api(Start(now), map[]); WithinThroughout(rows, start, ops, session) <==> FitsThroughout(rows, start, ops, session)
  {
    NothingJoint(now, Lower(session));
    RunJointIff(rows, Api(Start(now), map[]), ops, session);
  }

  lemma NothingJoint(now: nat, id: string)
    ensures Joint(Start(now), id) == 0
  {
    assert SpellingsIn(map[], id) == {};
  }

  // ---------- One spelling only ----------

  /** Whatever is pending or committed under a spelling of `only` is so under `only` itself. */
  predicate OneSpelling(sys: System, only: string) {
    && (forall m | m in sys.redis.index && Lower(m.session) == Lower(only) :: m.session == only)
    && (forall s | s in sys.committed && Lower(s) == Lower(only) :: s == only)
  }

  lemma {:induction false} JointPendingIsPending(index: seq<Member>, only: string)
    requires forall m | m in index && Lower(m.session) == Lower(only) :: m.session == only
    ensures JointPending(index, Lower(only)) == Pending(index, only)
  {
    hide Lower;
    if index != [] {
      assert index[0] in index;
      assert forall m | m in index[1..] :: m in index;
      JointPendingIsPending(index[1..], only);
    }
  }

  lemma JointIsTotal(sys: System, only: string)
    requires OneSpelling(sys, only)
    ensures Joint(sys, Lower(only)) == Total(sys, only)
  {
    hide Lower;
    JointPendingIsPending(sys.redis.index, only);
    var mine := SpellingsIn(sys.committed, Lower(only));
    if only in sys.committed {
      SumOverSplit(sys.committed, mine, only);
      assert mine - {only} == {};
    } else {
      assert mine == {};
    }
  }

  lemma ApplyKeepsOneSpelling(sys: System, op: Op, only: string)
    requires Inv(sys.redis, sys.issued) && OneSpelling(sys, only)
    requires op.ReserveOp? && Lower(op.request.session) == Lower(only) ==> op.request.session == only
    ensures OneSpelling(Apply(sys, op), only)
  {
    hide Lower;
    match op
    case ReserveOp(q, newId) => SweepEffect(sys.redis, sys.issued);
    case CommitOp(id) => WithoutEffect(sys.redis.index, id);
    case ReleaseOp(id) =>
      if LiveMeta(sys.redis, id) {
        WithoutEffect(sys.redis.index, id);
      }
    case SweepOp => SweepEffect(sys.redis, sys.issued);
    case TickOp(seconds) =>
  }

  /** Every reserve call for the session spells it in one way. */
  predicate SpelledAs(op: ApiOp, only: string) {
    op.ReserveBudget? && Lower(op.request.sessionId) == Lower(only) ==> op.request.sessionId == only
  }

  lemma HandleKeepsOneSpelling(rows: map<string, Row>, api: Api, op: ApiOp, only: string)
    requires Inv(api.sys.redis, api.sys.issued) && OneSpelling(api.sys, only) && SpelledAs(op, only)
    requires op.ReserveBudget? ==> op.newId != "" && op.newId !in api.sys.issued
    ensures OneSpelling(Handle(rows, api, op).sys, only)
  {
    hide Lower, OneSpelling, Inv, Reserve;
    match op
    case ReserveBudget(c, newId, saveUp, lookupUp) =>
      if Gate(rows, api.sys.redis.now, c).Passed? {
        var q := Gate(rows, api.sys.redis.now, c).request;
        ApplyKeepsInv(api.sys, ReserveOp(q, newId));
        ApplyKeepsOneSpelling(api.sys, ReserveOp(q, newId), only);
        var outcome := Reserve(api.sys.redis, q, newId).1;
        if outcome.Reserved? {
          ApplyKeepsOneSpelling(Apply(api.sys, ReserveOp(q, newId)), ReleaseOp(outcome.reservationId), only);
        }
      }
    case Finalize(id) => ApplyKeepsOneSpelling(api.sys, CommitOp(id), only);
    case Reverted(id) => ApplyKeepsOneSpelling(api.sys, ReleaseOp(id), only);
    case Wait(seconds) => ApplyKeepsOneSpelling(api.sys, TickOp(seconds), only);
  }

  lemma {:induction false} RunKeepsOneSpelling(rows: map<string, Row>, api: Api, ops: seq<ApiOp>, only: string)
    requires Inv(api.sys.redis, api.sys.issued) && FreshIds(rows, api, ops) && OneSpelling(api.sys, only)
    requires forall op | op in ops :: SpelledAs(op, only)
    ensures OneSpelling(RunApi(rows, api, ops).sys, only)
    decreases |ops|
  {
    hide OneSpelling, Inv, Handle, SpelledAs;
    if ops != [] {
      assert ops[0] in ops && forall op | op in ops[1..] :: op in ops;
      HandleKeepsOneSpelling(rows, api, ops[0], only);
      HandleKeepsInv(rows, api, ops[0]);
      RunKeepsOneSpelling(rows, Handle(rows, api, ops[0]), ops[1..], only);
    }
  }

  /** If all reserve calls for a session spell it in one way, its joint total stays within its cap for good. */
  lemma OneSpellingKeepsCap(rows: map<string, Row>, now: nat, ops: seq<ApiOp>, only: string)
    requires FreshIds(rows, Api(Start(now), map[]), ops) && forall op | op in ops :: SpelledAs(op, only)
    ensures Joint(RunApi(rows, Api(Start(now), map[]), ops).sys, Lower(only)) <= Cap(rows, only)
  {
    RunKeepsOneSpelling(rows, Api(Start(now), map[]), ops, only);
    JointIsTotal(RunApi(rows, Api(Start(now), map[]), ops).sys, only);
    LifetimeBudget(rows, now, ops, only);
  }

  // ---------- Two spellings over the cap ----------

  const OVER_ROWS: map<string, Row> := map["ab" := Row("x", "", "60", "100", 0, 1000, "")]

  function OverCall(sessionId: string, key: string, newId: string): ApiOp {
    ReserveBudget(ReserveCall(sessionId, "x", "", "60", key), newId, true, true)
  }

  function OverRun(): seq<ApiOp> {
    [OverCall("ab", "k", "r1"), OverCall("AB", "l", "r2")]
  }

  lemma OverAmounts()
    ensures Positive("60") == Some(60) && Positive("100") == Some(100) && ParseDecimal("60") == Some(60)
    ensures Lower("ab") == "ab" && Lower("AB") == "ab"
    ensures IdemKey("ab", "k") == Key("idem:ab:k") && IdemKey("AB", "l") == Key("idem:AB:l")
  {
    DecimalRoundTrip(60);
    DecimalRoundTrip(100);
    assert FormatDecimal(6) == "6" && FormatDecimal(60) == "60";
    assert FormatDecimal(1) == "1" && FormatDecimal(10) == "10" && FormatDecimal(100) == "100";
    OverKeys();
  }

  lemma OverKeys()
    ensures Lower("ab") == "ab" && Lower("AB") == "ab"
    ensures IdemKey("ab", "k") == Key("idem:ab:k") && IdemKey("AB", "l") == Key("idem:AB:l")
  {
    TrimSpaceIff("ab");
    TrimSpaceIff("AB");
    TrimSpaceIff("k");
    TrimSpaceIff("l");
    assert "idem:" + "ab" + ":" + "k" == "idem:ab:k" && "idem:" + "AB" + ":" + "l" == "idem:AB:l";
  }

  lemma OverGate(sessionId: string, key: string)
    requires sessionId == "ab" || sessionId == "AB"
    ensures Gate(OVER_ROWS, 1, ReserveCall(sessionId, "x", "", "60", key)) == Passed(Request(sessionId, key, "60", "100", 300, 999))
  {
    hide Lower, ParseDecimal;
    OverAmounts();
    assert Lower(sessionId) == "ab" && OVER_ROWS["ab"] == Row("x", "", "60", "100", 0, 1000, "");
    assert ParseDecimal("60") == Some(60);
  }

  /** One reservation of 60 in each spelling of a session with cap 100. */
  lemma SpellingsExceedCap()
    ensures FreshIds(OVER_ROWS, Api(Start(1), map[]), OverRun())
    ensures Cap(OVER_ROWS, "ab") == 100
    ensures Joint(RunApi(OVER_ROWS, Api(Start(1), map[]), OverRun()).sys, "ab") == 120
  {
    hide Joint, Lower, ParseDecimal, TrimSpace, Gate;
    OverAmounts();
    var api0 := Api(Start(1), map[]);
    var q1, q2 := Request("ab", "k", "60", "100", 300, 999), Request("AB", "l", "60", "100", 300, 999);
    OverGate("ab", "k");
    OverGate("AB", "l");
    var r1 := Write(Start(1).redis, q1, "idem:ab:k", 60, "r1");
    assert Sweep(Start(1).redis) == Start(1).redis;
    assert Reserve(Start(1).redis, q1, "r1") == (r1, Reserved("r1"));
    var api1 := Api(System(r1, map["r1" := "idem:ab:k"], map[]), map["k" := "r1"]);
    assert Handle(OVER_ROWS, api0, OverRun()[0]) == api1;
    assert Due(r1.index, 1) == [];
    assert Sweep(r1) == r1;
    var r2 := Write(r1, q2, "idem:AB:l", 60, "r2");
    assert Reserve(r1, q2, "r2") == (r2, Reserved("r2"));
    var api2 := Api(System(r2, map["r1" := "idem:ab:k", "r2" := "idem:AB:l"], map[]), map["k" := "r1", "l" := "r2"]);
    assert Handle(OVER_ROWS, api1, OverRun()[1]) == api2;
    assert OverRun()[1..] == [OverCall("AB", "l", "r2")] && OverRun()[1..][1..] == [];
    assert RunApi(OVER_ROWS, api0, OverRun()) == api2;
    OverJoint(api2.sys);
  }

  lemma OverJoint(sys: System)
    requires sys.committed == map[] && |sys.redis.index| == 2
    requires sys.redis.index[0].session == "ab" && sys.redis.index[1].session == "AB"
    requires sys.redis.index[0].amount == sys.redis.index[1].amount == 60
    ensures Joint(sys, "ab") == 120
  {
    hide Lower;
    OverKeys();
    var index := sys.redis.index;
    assert JointPending(index[2..], "ab") == 0;
    assert index[1..][1..] == index[2..] && JointPending(index[1..], "ab") == 60;
    assert JointPending(index, "ab") == 120;
    assert SpellingsIn(sys.committed, "ab") == {} && SumOver(sys.committed, {}) == 0;
  }
}
