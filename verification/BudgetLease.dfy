/** Why the locked sections must end within the lease of their lock: one that does not can lose an update. */
module BudgetLease {
  import opened Basics
  import opened Budget
  import opened BudgetInterleaving
  import opened BudgetUndisturbed

  function Steps(pid: Pid, n: nat): seq<Event> {
    if n == 0 then [] else Steps(pid, n - 1) + [Step(pid, Works, [])]
  }

  lemma RunOneMore(caps: Caps, events: seq<Event>, ev: Event)
    ensures Run(caps, events + [ev]) == Apply(caps, Run(caps, events), ev)
  {
    assert (events + [ev])[..|events|] == events;
  }

  lemma {:induction false} AloneOneMore(caps: Caps, st: State, pid: Pid, n: nat)
    ensures Alone(caps, st, pid, n + 1) == Apply(caps, Alone(caps, st, pid, n), Step(pid, Works, []))
    decreases n
  {
    hide Apply;
    if n > 0 {
      AloneOneMore(caps, Apply(caps, st, Step(pid, Works, [])), pid, n - 1);
    }
  }

  lemma {:induction false} RunSteps(caps: Caps, events: seq<Event>, pid: Pid, n: nat)
    ensures Run(caps, events + Steps(pid, n)) == Alone(caps, Run(caps, events), pid, n)
  {
    hide Run, Apply;
    if n == 0 {
      assert events + [] == events;
    } else {
      RunSteps(caps, events, pid, n - 1);
      AloneOneMore(caps, Run(caps, events), pid, n - 1);
      RunOneMore(caps, events + Steps(pid, n - 1), Step(pid, Works, []));
      assert events + Steps(pid, n) == events + Steps(pid, n - 1) + [Step(pid, Works, [])];
    }
  }

  lemma {:induction false} StaysBroken(caps: Caps, events: seq<Event>, more: seq<Event>)
    requires !LeasesHold(caps, events)
    ensures !LeasesHold(caps, events + more)
  {
    hide Run, LeaseHolds;
    if more == [] {
      assert events + [] == events;
    } else {
      var fewer := more[..|more| - 1];
      assert (events + more)[..|events + more| - 1] == events + fewer;
      StaysBroken(caps, events, fewer);
    }
  }

  /** A reserve call up to the point where it is about to write. */
  lemma UpToWrite(caps: Caps, st: State, pid: Pid, q: Req)
    requires CanBegin(st, pid) && q.session !in st.shared.locks && !HasClaim(st, q.key)
    requires OrZero(Get(st.shared.aggregates, q.session)) + q.amount <= caps(q.session)
    ensures Alone(caps, Apply(caps, st, BeginReserve(pid, q)), pid, 4)
         == Goto(SetLock(st, q.session, pid), pid, TakeWrite(q, Get(st.shared.aggregates, q.session)))
  {
    hide Alone, StepProc;
    var held := SetLock(st, q.session, pid);
    var last := Goto(held, pid, TakeWrite(q, Get(st.shared.aggregates, q.session)));
    ReserveLooksUp(caps, st, pid, q);
    Onward(caps, Goto(st, pid, Scan(q)), pid, 3, Goto(st, pid, Lookup(q)));
    ClaimIsAbsent(caps, st, pid, q);
    Onward(caps, Goto(st, pid, Lookup(q)), pid, 2, Goto(st, pid, TakeLock(q)));
    TakeLocks(caps, st, pid, q);
    Onward(caps, Goto(st, pid, TakeLock(q)), pid, 1, Goto(held, pid, TakeRead(q)));
    TakeReads(caps, held, pid, q);
    Onward(caps, Goto(held, pid, TakeRead(q)), pid, 0, last);
    NoMore(caps, last, pid);
  }

  /** The write of a reserve call, whatever it had read. */
  lemma Writes(caps: Caps, st: State, pid: Pid, q: Req, read: Option<nat>)
    requires pid in st.procs && st.procs[pid] == TakeWrite(q, read)
    ensures var st' := Apply(caps, st, Step(pid, Works, []));
            && st'.shared.aggregates == st.shared.aggregates[q.session := OrZero(read) + q.amount]
            && st'.shared.index == st.shared.index + [Member(q.newId, q.session, q.amount, 0)]
            && st'.procs == st.procs[pid := TakeUnlock(q)]
            && st'.log == st.log + [Add(pid, q.newId, q.session, q.amount, true)]
  {
  }

  /** A granted call counts in full exactly if the aggregate is still what it read under its lock. */
  lemma WriteCountsIff(caps: Caps, st: State, pid: Pid, q: Req, read: Option<nat>)
    requires pid in st.procs && st.procs[pid] == TakeWrite(q, read)
    ensures var before, later := Get(st.shared.aggregates, q.session), Get(Apply(caps, st, Step(pid, Works, [])).shared.aggregates, q.session);
            OrZero(later) == OrZero(before) + q.amount <==> OrZero(read) == OrZero(before)
  {
    Writes(caps, st, pid, q, read);
    hide Apply;
  }

  // ---------- A run in which a lease lapses ----------

  /** The first call gets as far as its write. */
  function FirstReads(q: Req): seq<Event> {
    [BeginReserve(1, q)] + Steps(1, 4)
  }

  /** The first call's lock lapses, the second call gets as far as its write, and both write. */
  function LeaseLapses(q: Req, r: Req): seq<Event> {
    FirstReads(q) + [LapseLock(q.session)] + ([BeginReserve(2, r)] + Steps(2, 4)) + [Step(1, Works, [])] + [Step(2, Works, [])]
  }

  lemma FirstIsInside(caps: Caps, q: Req)
    requires q.amount <= caps(q.session)
    ensures Run(caps, FirstReads(q)) == Goto(SetLock(Run(caps, []), q.session, 1), 1, TakeWrite(q, None))
  {
    var start := Run(caps, []);
    assert CanBegin(start, 1) && start.shared.locks == map[] && start.shared.claims == map[] && start.shared.aggregates == map[];
    hide Run, Apply, Alone, Steps, SetLock;
    RunOneMore(caps, [], BeginReserve(1, q));
    assert [] + [BeginReserve(1, q)] == [BeginReserve(1, q)];
    RunSteps(caps, [BeginReserve(1, q)], 1, 4);
    UpToWrite(caps, start, 1, q);
  }

  lemma FirstIsUnguarded(caps: Caps, q: Req)
    requires q.amount <= caps(q.session)
    ensures Run(caps, FirstReads(q) + [LapseLock(q.session)]) == Goto(Run(caps, []), 1, TakeWrite(q, None))
  {
    var start := Run(caps, []);
    FirstIsInside(caps, q);
    LockThenUnlock(start, q.session, 1);
    hide FirstReads, Run, SetLock;
    RunOneMore(caps, FirstReads(q), LapseLock(q.session));
  }

  lemma SecondIsInside(caps: Caps, q: Req, r: Req)
    requires q.session == r.session && q.amount <= caps(q.session) && r.amount <= caps(q.session)
    ensures var events := FirstReads(q) + [LapseLock(q.session)] + ([BeginReserve(2, r)] + Steps(2, 4));
            var st := Run(caps, events);
            && st.shared.aggregates == map[] && st.shared.index == [] && st.log == []
            && st.procs == map[1 := TakeWrite(q, None), 2 := TakeWrite(r, None)]
  {
    var lapsed, first := FirstReads(q) + [LapseLock(q.session)], Goto(Run(caps, []), 1, TakeWrite(q, None));
    hide Alone, StepProc, Steps, FirstReads, Apply;
    FirstIsUnguarded(caps, q);
    assert lapsed + ([BeginReserve(2, r)] + Steps(2, 4)) == lapsed + [BeginReserve(2, r)] + Steps(2, 4);
    UpToWrite(caps, first, 2, r);
    hide Run;
    RunOneMore(caps, lapsed, BeginReserve(2, r));
    RunSteps(caps, lapsed + [BeginReserve(2, r)], 2, 4);
  }

  /** When a lock lapses inside its section, the update of that section can be lost: of two granted calls for one session, each
      within the cap, the aggregate counts only the second, so together they may exceed the cap. */
  lemma LapsedLeaseLosesUpdate(caps: Caps, q: Req, r: Req)
    requires q.session == r.session && q.amount <= caps(q.session) && r.amount <= caps(q.session)
    ensures !LeasesHold(caps, LeaseLapses(q, r))
    ensures var st := Run(caps, LeaseLapses(q, r));
            && st.log == [Add(1, q.newId, q.session, q.amount, true), Add(2, r.newId, r.session, r.amount, true)]
            && st.shared.index == [Member(q.newId, q.session, q.amount, 0), Member(r.newId, r.session, r.amount, 0)]
            && st.shared.aggregates == map[q.session := r.amount]
  {
    LeaseIsBroken(caps, q, r);
    var events := FirstReads(q) + [LapseLock(q.session)] + ([BeginReserve(2, r)] + Steps(2, 4));
    SecondIsInside(caps, q, r);
    assert LeaseLapses(q, r) == events + [Step(1, Works, [])] + [Step(2, Works, [])];
    hide Run, Apply, Steps, FirstReads, LeaseLapses, LeasesHold;
    RunOneMore(caps, events, Step(1, Works, []));
    RunOneMore(caps, events + [Step(1, Works, [])], Step(2, Works, []));
    BothWrite(caps, Run(caps, events), q, r);
  }

  lemma BothWrite(caps: Caps, st: State, q: Req, r: Req)
    requires q.session == r.session && st.shared.aggregates == map[] && st.shared.index == [] && st.log == []
    requires st.procs == map[1 := TakeWrite(q, None), 2 := TakeWrite(r, None)]
    ensures var st' := Apply(caps, Apply(caps, st, Step(1, Works, [])), Step(2, Works, []));
            && st'.log == [Add(1, q.newId, q.session, q.amount, true), Add(2, r.newId, r.session, r.amount, true)]
            && st'.shared.index == [Member(q.newId, q.session, q.amount, 0), Member(r.newId, r.session, r.amount, 0)]
            && st'.shared.aggregates == map[q.session := r.amount]
  {
    Writes(caps, st, 1, q, None);
    hide Apply;
    Writes(caps, Apply(caps, st, Step(1, Works, [])), 2, r, None);
  }

  lemma LeaseIsBroken(caps: Caps, q: Req, r: Req)
    requires q.amount <= caps(q.session)
    ensures !LeasesHold(caps, LeaseLapses(q, r))
  {
    FirstIsInside(caps, q);
    var lapsed := FirstReads(q) + [LapseLock(q.session)];
    var more := [BeginReserve(2, r)] + Steps(2, 4) + [Step(1, Works, [])] + [Step(2, Works, [])];
    assert LeaseLapses(q, r) == lapsed + more;
    hide Run, Steps, FirstReads, LeaseLapses;
    assert lapsed[..|lapsed| - 1] == FirstReads(q);
    assert !LeaseHolds(Run(caps, FirstReads(q)), LapseLock(q.session));
    StaysBroken(caps, lapsed, more);
  }
}
