/** Calls of the interleaved system whose commands all work and whose session nobody else is serving: each does, command by
    command, exactly what the call is for, from any state and whatever the other processes were about to do. */
module BudgetUndisturbed {
  import opened Basics
  import opened Budget
  import opened BudgetInterleaving

  /** `n` commands of one process, all of which work. */
  function Alone(caps: Caps, st: State, pid: Pid, n: nat): State
    decreases n
  {
    if n == 0 then st else Alone(caps, Apply(caps, st, Step(pid, Works, [])), pid, n - 1)
  }

  /** One command that works leads to `next`, and `n` more from there. */
  lemma Onward(caps: Caps, st: State, pid: Pid, n: nat, next: State)
    requires pid in st.procs && StepProc(caps, st, pid, Works, []) == next
    ensures Alone(caps, st, pid, n + 1) == Alone(caps, next, pid, n)
  {
  }

  lemma LockThenUnlock(st: State, s: string, pid: Pid)
    requires s !in st.shared.locks
    ensures DropLock(SetLock(st, s, pid), s) == st
  {
    assert st.shared.locks[s := pid] - {s} == st.shared.locks;
  }

  // ---------- Reserve ----------

  predicate HasClaim(st: State, key: string) {
    key in st.shared.claims && st.shared.claims[key] != ""
  }

  /** The four writes of an accepted reservation. */
  function Reserved(sh: Shared, q: Req): Shared {
    sh.(aggregates := sh.aggregates[q.session := OrZero(Get(sh.aggregates, q.session)) + q.amount],
        claims := sh.claims[q.key := q.newId],
        metadata := sh.metadata[q.newId := (q.session, q.amount)],
        index := sh.index + [Member(q.newId, q.session, q.amount, 0)])
  }

  /** A reserve call that finds nothing due either answers from a live claim and changes nothing, or is denied because the
      aggregate and its amount exceed the cap, or adds its amount and writes its claim, its metadata and its member. */
  lemma UndisturbedReserve(caps: Caps, st: State, pid: Pid, q: Req)
    requires CanBegin(st, pid) && q.session !in st.shared.locks
    ensures var st' := Alone(caps, Apply(caps, st, BeginReserve(pid, q)), pid, 6);
            var total := OrZero(Get(st.shared.aggregates, q.session)) + q.amount;
            && st'.procs == st.procs[pid := Stopped]
            && (HasClaim(st, q.key) ==> st'.shared == st.shared && st'.log == st.log)
            && (!HasClaim(st, q.key) && caps(q.session) < total ==>
                  st'.shared == st.shared && st'.log == st.log + [Add(pid, q.newId, q.session, q.amount, false)])
            && (!HasClaim(st, q.key) && total <= caps(q.session) ==>
                  st'.shared == Reserved(st.shared, q) && st'.log == st.log + [Add(pid, q.newId, q.session, q.amount, true)])
  {
    hide Alone, StepProc;
    var s0 := Goto(st, pid, Scan(q));
    var s1 := Goto(st, pid, Lookup(q));
    ReserveLooksUp(caps, st, pid, q);
    Onward(caps, s0, pid, 5, s1);
    if HasClaim(st, q.key) {
      ClaimAnswers(caps, st, pid, q);
      Onward(caps, s1, pid, 4, Goto(st, pid, Stopped));
      StoppedStays(caps, Goto(st, pid, Stopped), pid, 4);
    } else {
      ClaimIsAbsent(caps, st, pid, q);
      Onward(caps, s1, pid, 4, Goto(st, pid, TakeLock(q)));
      UndisturbedTake(caps, st, pid, q);
    }
  }

  lemma ReserveLooksUp(caps: Caps, st: State, pid: Pid, q: Req)
    ensures StepProc(caps, Goto(st, pid, Scan(q)), pid, Works, []) == Goto(st, pid, Lookup(q))
  {
    assert st.procs[pid := Scan(q)][pid := Lookup(q)] == st.procs[pid := Lookup(q)];
  }

  lemma ClaimAnswers(caps: Caps, st: State, pid: Pid, q: Req)
    requires HasClaim(st, q.key)
    ensures StepProc(caps, Goto(st, pid, Lookup(q)), pid, Works, []) == Goto(st, pid, Stopped)
  {
    assert st.procs[pid := Lookup(q)][pid := Stopped] == st.procs[pid := Stopped];
  }

  lemma ClaimIsAbsent(caps: Caps, st: State, pid: Pid, q: Req)
    requires !HasClaim(st, q.key)
    ensures StepProc(caps, Goto(st, pid, Lookup(q)), pid, Works, []) == Goto(st, pid, TakeLock(q))
  {
    assert st.procs[pid := Lookup(q)][pid := TakeLock(q)] == st.procs[pid := TakeLock(q)];
  }

  lemma {:induction false} StoppedStays(caps: Caps, st: State, pid: Pid, n: nat)
    requires pid in st.procs && st.procs[pid] == Stopped
    ensures Alone(caps, st, pid, n) == st
  {
    if n > 0 {
      StoppedStays(caps, st, pid, n - 1);
    }
  }

  lemma UndisturbedTake(caps: Caps, st: State, pid: Pid, q: Req)
    requires q.session !in st.shared.locks
    ensures var st' := Alone(caps, Goto(st, pid, TakeLock(q)), pid, 4);
            var total := OrZero(Get(st.shared.aggregates, q.session)) + q.amount;
            && st'.procs == st.procs[pid := Stopped]
            && (caps(q.session) < total ==>
                  st'.shared == st.shared && st'.log == st.log + [Add(pid, q.newId, q.session, q.amount, false)])
            && (total <= caps(q.session) ==>
                  st'.shared == Reserved(st.shared, q) && st'.log == st.log + [Add(pid, q.newId, q.session, q.amount, true)])
  {
    hide Alone, StepProc, OrZero;
    var held := SetLock(st, q.session, pid);
    var seen := Get(st.shared.aggregates, q.session);
    TakeLocks(caps, st, pid, q);
    Onward(caps, Goto(st, pid, TakeLock(q)), pid, 3, Goto(held, pid, TakeRead(q)));
    TakeReads(caps, held, pid, q);
    LockThenUnlock(st, q.session, pid);
    if OrZero(seen) + q.amount > caps(q.session) {
      var denied := held.(log := st.log + [Add(pid, q.newId, q.session, q.amount, false)]);
      Onward(caps, Goto(held, pid, TakeRead(q)), pid, 2, Goto(denied, pid, TakeUnlock(q)));
      TakeEnds(caps, denied, pid, q, 1);
    } else {
      var granted := State(Reserved(held.shared, q), st.procs, st.log + [Add(pid, q.newId, q.session, q.amount, true)]);
      Onward(caps, Goto(held, pid, TakeRead(q)), pid, 2, Goto(held, pid, TakeWrite(q, seen)));
      TakeWrites(caps, held, pid, q);
      Onward(caps, Goto(held, pid, TakeWrite(q, seen)), pid, 1, Goto(granted, pid, TakeUnlock(q)));
      TakeEnds(caps, granted, pid, q, 0);
    }
  }

  lemma TakeLocks(caps: Caps, st: State, pid: Pid, q: Req)
    requires q.session !in st.shared.locks
    ensures StepProc(caps, Goto(st, pid, TakeLock(q)), pid, Works, []) == Goto(SetLock(st, q.session, pid), pid, TakeRead(q))
  {
    assert st.procs[pid := TakeLock(q)][pid := TakeRead(q)] == st.procs[pid := TakeRead(q)];
  }

  lemma TakeReads(caps: Caps, st: State, pid: Pid, q: Req)
    ensures var seen, next := Get(st.shared.aggregates, q.session), StepProc(caps, Goto(st, pid, TakeRead(q)), pid, Works, []);
            if OrZero(seen) + q.amount > caps(q.session)
            then next == Goto(st, pid, TakeUnlock(q)).(log := st.log + [Add(pid, q.newId, q.session, q.amount, false)])
            else next == Goto(st, pid, TakeWrite(q, seen))
  {
    var seen := Get(st.shared.aggregates, q.session);
    assert st.procs[pid := TakeRead(q)][pid := TakeUnlock(q)] == st.procs[pid := TakeUnlock(q)];
    assert st.procs[pid := TakeRead(q)][pid := TakeWrite(q, seen)] == st.procs[pid := TakeWrite(q, seen)];
  }

  lemma TakeWrites(caps: Caps, st: State, pid: Pid, q: Req)
    ensures var seen := Get(st.shared.aggregates, q.session);
            StepProc(caps, Goto(st, pid, TakeWrite(q, seen)), pid, Works, []) ==
            State(Reserved(st.shared, q), st.procs[pid := TakeUnlock(q)], st.log + [Add(pid, q.newId, q.session, q.amount, true)])
  {
    var seen := Get(st.shared.aggregates, q.session);
    assert st.procs[pid := TakeWrite(q, seen)][pid := TakeUnlock(q)] == st.procs[pid := TakeUnlock(q)];
  }

  lemma TakeEnds(caps: Caps, st: State, pid: Pid, q: Req, n: nat)
    ensures Alone(caps, Goto(st, pid, TakeUnlock(q)), pid, n + 1) == Goto(DropLock(st, q.session), pid, Stopped)
  {
    hide Alone;
    var last, end := Goto(st, pid, TakeUnlock(q)), Goto(DropLock(st, q.session), pid, Stopped);
    assert last.procs[pid := Stopped] == end.procs;
    Onward(caps, last, pid, n, end);
    StoppedStays(caps, end, pid, n);
  }

  // ---------- Giving an amount back ----------

  /** A session's aggregate after an amount was given back: less by the amount, at least zero, and still absent if it was. */
  function GivenBack(sh: Shared, s: string, amount: nat): Shared {
    if s in sh.aggregates then sh.(aggregates := sh.aggregates[s := Minus(sh.aggregates[s], amount)]) else sh
  }

  /** The commands of `releaseAmount`: one less when the session has no aggregate. */
  function GiveLength(st: State, s: string): nat {
    if s in st.shared.aggregates then 4 else 3
  }

  lemma UndisturbedGive(caps: Caps, st: State, pid: Pid, s: string, amount: nat, k: Then, n: nat)
    requires s !in st.shared.locks
    ensures Alone(caps, Goto(st, pid, GiveLock(s, amount, k)), pid, GiveLength(st, s) + n)
         == Alone(caps, State(GivenBack(st.shared, s, amount), st.procs[pid := Resume(k)], st.log + [Sub(pid, ReservationOf(k), s, amount)]), pid, n)
  {
    hide Alone, Resume, ReservationOf, StepProc;
    var held := SetLock(st, s, pid);
    GiveLocks(caps, st, pid, s, amount, k);
    Onward(caps, Goto(st, pid, GiveLock(s, amount, k)), pid, GiveLength(st, s) + n - 1, Goto(held, pid, GiveRead(s, amount, k)));
    var given := State(GivenBack(held.shared, s, amount), st.procs, st.log + [Sub(pid, ReservationOf(k), s, amount)]);
    GiveReads(caps, held, pid, s, amount, k);
    if s in st.shared.aggregates {
      var seen := st.shared.aggregates[s];
      Onward(caps, Goto(held, pid, GiveRead(s, amount, k)), pid, 2 + n, Goto(held, pid, GiveWrite(s, amount, seen, k)));
      GiveWrites(caps, held, pid, s, amount, k);
      Onward(caps, Goto(held, pid, GiveWrite(s, amount, seen, k)), pid, 1 + n, Goto(given, pid, GiveUnlock(s, false, k)));
    } else {
      Onward(caps, Goto(held, pid, GiveRead(s, amount, k)), pid, 1 + n, Goto(given, pid, GiveUnlock(s, false, k)));
    }
    GiveUnlocks(caps, given, pid, s, k);
    LockThenUnlock(st, s, pid);
    Onward(caps, Goto(given, pid, GiveUnlock(s, false, k)), pid, n, Goto(DropLock(given, s), pid, Resume(k)));
  }

  lemma GiveLocks(caps: Caps, st: State, pid: Pid, s: string, amount: nat, k: Then)
    requires s !in st.shared.locks
    ensures StepProc(caps, Goto(st, pid, GiveLock(s, amount, k)), pid, Works, []) == Goto(SetLock(st, s, pid), pid, GiveRead(s, amount, k))
  {
    assert st.procs[pid := GiveLock(s, amount, k)][pid := GiveRead(s, amount, k)] == st.procs[pid := GiveRead(s, amount, k)];
  }

  lemma GiveReads(caps: Caps, st: State, pid: Pid, s: string, amount: nat, k: Then)
    ensures var next := StepProc(caps, Goto(st, pid, GiveRead(s, amount, k)), pid, Works, []);
            if s in st.shared.aggregates then next == Goto(st, pid, GiveWrite(s, amount, st.shared.aggregates[s], k))
            else next == Goto(st, pid, GiveUnlock(s, false, k)).(log := st.log + [Sub(pid, ReservationOf(k), s, amount)])
  {
    hide ReservationOf;
    var reading := st.procs[pid := GiveRead(s, amount, k)];
    if s in st.shared.aggregates {
      var next := GiveWrite(s, amount, st.shared.aggregates[s], k);
      assert reading[pid := next] == st.procs[pid := next];
    } else {
      assert reading[pid := GiveUnlock(s, false, k)] == st.procs[pid := GiveUnlock(s, false, k)];
    }
  }

  lemma GiveWrites(caps: Caps, st: State, pid: Pid, s: string, amount: nat, k: Then)
    requires s in st.shared.aggregates
    ensures StepProc(caps, Goto(st, pid, GiveWrite(s, amount, st.shared.aggregates[s], k)), pid, Works, [])
         == State(GivenBack(st.shared, s, amount), st.procs[pid := GiveUnlock(s, false, k)], st.log + [Sub(pid, ReservationOf(k), s, amount)])
  {
    hide ReservationOf;
    var writing := st.procs[pid := GiveWrite(s, amount, st.shared.aggregates[s], k)];
    assert writing[pid := GiveUnlock(s, false, k)] == st.procs[pid := GiveUnlock(s, false, k)];
  }

  lemma GiveUnlocks(caps: Caps, st: State, pid: Pid, s: string, k: Then)
    ensures StepProc(caps, Goto(st, pid, GiveUnlock(s, false, k)), pid, Works, []) == Goto(DropLock(st, s), pid, Resume(k))
  {
    hide Resume;
    assert st.procs[pid := GiveUnlock(s, false, k)][pid := Resume(k)] == st.procs[pid := Resume(k)];
  }

  /** A reservation's records are gone: its metadata and its member. */
  function Forgotten(sh: Shared, id: string): Shared {
    sh.(metadata := sh.metadata - {id}, index := Without(sh.index, id))
  }

  /** A release gives the recorded amount back to the recorded session and forgets the reservation; without metadata it does
      nothing. */
  lemma UndisturbedRelease(caps: Caps, st: State, pid: Pid, id: string)
    requires CanBegin(st, pid) && (id in st.shared.metadata ==> st.shared.metadata[id].0 !in st.shared.locks)
    ensures var st' := Alone(caps, Apply(caps, st, BeginRelease(pid, id)), pid, 7);
            && st'.procs == st.procs[pid := Stopped]
            && (id !in st.shared.metadata ==> st'.shared == st.shared && st'.log == st.log)
            && (id in st.shared.metadata ==>
                  var (s, amount) := st.shared.metadata[id];
                  && st'.shared == Forgotten(GivenBack(st.shared, s, amount), id)
                  && st'.log == st.log + [Sub(pid, id, s, amount)])
  {
    hide Alone;
    var t0 := Goto(st, pid, ReleaseMeta(id));
    if id !in st.shared.metadata {
      assert t0.procs[pid := Stopped] == st.procs[pid := Stopped];
      Onward(caps, t0, pid, 6, Goto(st, pid, Stopped));
      StoppedStays(caps, Goto(st, pid, Stopped), pid, 6);
    } else {
      var (s, amount) := st.shared.metadata[id];
      var t1 := Goto(st, pid, GiveLock(s, amount, InRelease(id)));
      assert t0.procs[pid := t1.procs[pid]] == t1.procs;
      Onward(caps, t0, pid, 6, t1);
      var n := 6 - GiveLength(st, s);
      UndisturbedGive(caps, st, pid, s, amount, InRelease(id), n);
      UndisturbedDrop(caps, State(GivenBack(st.shared, s, amount), st.procs, st.log + [Sub(pid, id, s, amount)]), pid, id, n - 2);
    }
  }

  lemma UndisturbedDrop(caps: Caps, st: State, pid: Pid, id: string, n: nat)
    ensures Alone(caps, Goto(st, pid, DropScan(id)), pid, n + 2) == State(Forgotten(st.shared, id), st.procs[pid := Stopped], st.log)
  {
    hide Alone, InIndex;
    var t0, t1 := Goto(st, pid, DropScan(id)), Goto(st, pid, DropExec(id, InIndex(st.shared.index, id)));
    var t2 := State(Forgotten(st.shared, id), st.procs[pid := Stopped], st.log);
    assert t0.procs[pid := t1.procs[pid]] == t1.procs;
    Onward(caps, t0, pid, n + 1, t1);
    assert t1.procs[pid := Stopped] == t2.procs;
    if !InIndex(st.shared.index, id) {
      WithoutAbsent(st.shared.index, id);
    }
    Onward(caps, t1, pid, n, t2);
    StoppedStays(caps, t2, pid, n);
  }

  /** A commit forgets the reservation and leaves every aggregate as it is. */
  lemma UndisturbedCommit(caps: Caps, st: State, pid: Pid, id: string)
    requires CanBegin(st, pid)
    ensures Alone(caps, Apply(caps, st, BeginCommit(pid, id)), pid, 2)
         == State(st.shared.(metadata := st.shared.metadata - {id}, index := Without(st.shared.index, id)), st.procs[pid := Stopped], st.log)
  {
    hide Alone;
    UndisturbedDrop(caps, st, pid, id, 0);
  }

  // ---------- Sweep ----------

  lemma UndisturbedSweepOfOne(caps: Caps, st: State, pid: Pid, m: Member, rest: seq<Member>, q: Req, n: nat)
    requires m.session !in st.shared.locks
    ensures Alone(caps, Goto(st, pid, GiveLock(m.session, m.amount, InSweep(m, rest, q))), pid, GiveLength(st, m.session) + 2 + n)
         == Alone(caps, State(Forgotten(GivenBack(st.shared, m.session, m.amount), m.reservationId), st.procs[pid := NextDue(rest, q)],
                              st.log + [Sub(pid, m.reservationId, m.session, m.amount)]), pid, n)
  {
    hide Alone, NextDue;
    UndisturbedGive(caps, st, pid, m.session, m.amount, InSweep(m, rest, q), 2 + n);
    var given := State(GivenBack(st.shared, m.session, m.amount), st.procs, st.log + [Sub(pid, m.reservationId, m.session, m.amount)]);
    SweepForgets(caps, given, pid, m, rest, q, n);
  }

  lemma SweepForgets(caps: Caps, st: State, pid: Pid, m: Member, rest: seq<Member>, q: Req, n: nat)
    ensures Alone(caps, Goto(st, pid, SweepMeta(m, rest, q)), pid, 2 + n)
         == Alone(caps, State(Forgotten(st.shared, m.reservationId), st.procs[pid := NextDue(rest, q)], st.log), pid, n)
  {
    hide Alone, NextDue;
    var t0 := Goto(st, pid, SweepMeta(m, rest, q));
    var dropped := st.(shared := st.shared.(metadata := st.shared.metadata - {m.reservationId}));
    var t1 := Goto(dropped, pid, SweepIndex(m, rest, q));
    var t2 := State(Forgotten(st.shared, m.reservationId), st.procs[pid := NextDue(rest, q)], st.log);
    assert t0.procs[pid := t1.procs[pid]] == t1.procs;
    Onward(caps, t0, pid, 1 + n, t1);
    assert t1.procs[pid := t2.procs[pid]] == t2.procs;
    Onward(caps, t1, pid, n, t2);
  }

  /** The records after the members in turn gave their amounts back and were forgotten. */
  function SweptBy(sh: Shared, due: seq<Member>): Shared
    decreases |due|
  {
    if due == [] then sh else SweptBy(Forgotten(GivenBack(sh, due[0].session, due[0].amount), due[0].reservationId), due[1..])
  }

  function GivesOf(pid: Pid, due: seq<Member>): seq<CounterOp>
    ensures |GivesOf(pid, due)| == |due|
    ensures forall i | 0 <= i < |due| :: GivesOf(pid, due)[i] == Sub(pid, due[i].reservationId, due[i].session, due[i].amount)
  {
    if due == [] then [] else [Sub(pid, due[0].reservationId, due[0].session, due[0].amount)] + GivesOf(pid, due[1..])
  }

  function SweepLength(sessions: set<string>, due: seq<Member>): nat {
    if due == [] then 0 else (if due[0].session in sessions then 6 else 5) + SweepLength(sessions, due[1..])
  }

  lemma NoMore(caps: Caps, st: State, pid: Pid)
    ensures Alone(caps, st, pid, 0) == st
  {
  }

  lemma SameSessions(sh: Shared, m: Member)
    ensures var next := Forgotten(GivenBack(sh, m.session, m.amount), m.reservationId);
            next.aggregates.Keys == sh.aggregates.Keys && next.locks == sh.locks
  {
  }

  lemma {:induction false} UndisturbedRest(caps: Caps, st: State, pid: Pid, due: seq<Member>, q: Req)
    requires forall m | m in due :: m.session !in st.shared.locks
    ensures Alone(caps, Goto(st, pid, NextDue(due, q)), pid, SweepLength(st.shared.aggregates.Keys, due))
         == State(SweptBy(st.shared, due), st.procs[pid := Lookup(q)], st.log + GivesOf(pid, due))
    decreases |due|
  {
    hide Alone, Forgotten, GivenBack, StepProc;
    if due == [] {
      assert st.log + [] == st.log;
      NoMore(caps, Goto(st, pid, Lookup(q)), pid);
    } else {
      var m, rest := due[0], due[1..];
      assert m in due && forall x | x in rest :: x in due;
      var n, op := SweepLength(st.shared.aggregates.Keys, rest), Sub(pid, m.reservationId, m.session, m.amount);
      var next := State(Forgotten(GivenBack(st.shared, m.session, m.amount), m.reservationId), st.procs, st.log + [op]);
      assert NextDue(due, q) == GiveLock(m.session, m.amount, InSweep(m, rest, q));
      assert SweepLength(st.shared.aggregates.Keys, due) == GiveLength(st, m.session) + 2 + n;
      assert SweptBy(st.shared, due) == SweptBy(next.shared, rest) && GivesOf(pid, due) == [op] + GivesOf(pid, rest);
      hide NextDue, SweepLength, SweptBy, GivesOf, GiveLength;
      UndisturbedSweepOfOne(caps, st, pid, m, rest, q, n);
      SameSessions(st.shared, m);
      UndisturbedRest(caps, next, pid, rest, q);
      assert next.log + GivesOf(pid, rest) == st.log + GivesOf(pid, due);
    }
  }

  /** A sweep gives back the amount of every member it found due, in order, forgets their reservations and goes on to the
      reserve call it belongs to. */
  lemma UndisturbedSweep(caps: Caps, st: State, pid: Pid, due: seq<Member>, q: Req)
    requires CanBegin(st, pid) && forall m | m in due :: m in st.shared.index && m.session !in st.shared.locks
    ensures Alone(caps, Apply(caps, Apply(caps, st, BeginReserve(pid, q)), Step(pid, Works, due)), pid, SweepLength(st.shared.aggregates.Keys, due))
         == State(SweptBy(st.shared, due), st.procs[pid := Lookup(q)], st.log + GivesOf(pid, due))
  {
    hide Alone, NextDue, SweptBy, GivesOf, SweepLength;
    assert st.procs[pid := Scan(q)][pid := NextDue(due, q)] == st.procs[pid := NextDue(due, q)];
    UndisturbedRest(caps, st, pid, due, q);
  }
}
