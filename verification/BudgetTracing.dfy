/** What the interleaved counter's operations are: each stands for a call that was made, and gives back only what was granted. */
module BudgetTracing {
  import opened Basics
  import opened Budget
  import opened BudgetInterleaving

  /** The reserve calls that were made, each with the process that made it. */
  function Begun(events: seq<Event>): set<(Pid, Req)> {
    set e | e in events && e.BeginReserve? :: (e.pid, e.q)
  }

  /** Reservation ids are fresh UUIDs. */
  predicate FreshCalls(events: seq<Event>) {
    forall i, j | 0 <= i < j < |events| && events[i].BeginReserve? && events[j].BeginReserve? :: events[i].q.newId != events[j].q.newId
  }

  // ---------- What is traced ----------

  /** The reservation was granted, for the session and with the amount. */
  predicate Granted(log: seq<CounterOp>, id: string, s: string, amount: nat) {
    exists op | op in log :: op.Add? && op.granted && op.id == id && op.s == s && op.amount == amount
  }

  predicate MemberGranted(log: seq<CounterOp>, m: Member) {
    Granted(log, m.reservationId, m.session, m.amount)
  }

  /** The reserve call a process has not decided yet. */
  function Undecided(pc: Pc): Option<Req> {
    match pc
    case Scan(q) => Some(q)
    case GiveLock(_, _, k) => UndecidedIn(k)
    case GiveRead(_, _, k) => UndecidedIn(k)
    case GiveWrite(_, _, _, k) => UndecidedIn(k)
    case GiveUnlock(_, _, k) => UndecidedIn(k)
    case SweepMeta(_, _, q) => Some(q)
    case SweepIndex(_, _, q) => Some(q)
    case Lookup(q) => Some(q)
    case TakeLock(q) => Some(q)
    case TakeRead(q) => Some(q)
    case TakeWrite(q, _) => Some(q)
    case _ => None
  }

  function UndecidedIn(k: Then): Option<Req> {
    if k.InSweep? then Some(k.q) else None
  }

  predicate AllGranted(log: seq<CounterOp>, due: seq<Member>) {
    forall m | m in due :: MemberGranted(log, m)
  }

  /** An amount about to be given back was granted, and so is what remains to be swept. */
  predicate GivesGranted(log: seq<CounterOp>, s: string, amount: nat, k: Then) {
    && Granted(log, ReservationOf(k), s, amount)
    && (k.InSweep? ==> AllGranted(log, k.due))
  }

  predicate PcTraced(begun: set<(Pid, Req)>, log: seq<CounterOp>, pid: Pid, pc: Pc) {
    && (Undecided(pc).Some? ==> (pid, Undecided(pc).value) in begun)
    && match pc
       case GiveLock(s, amount, k) => GivesGranted(log, s, amount, k)
       case GiveRead(s, amount, k) => GivesGranted(log, s, amount, k)
       case GiveWrite(s, amount, _, k) => GivesGranted(log, s, amount, k)
       case GiveUnlock(s, _, k) => k.InSweep? ==> AllGranted(log, k.due)
       case SweepMeta(_, due, _) => AllGranted(log, due)
       case SweepIndex(_, due, _) => AllGranted(log, due)
       case _ => true
  }

  /** An addition is that of a call its process made; a subtraction gives back what an earlier addition was granted. */
  ghost predicate OpTraced(begun: set<(Pid, Req)>, earlier: seq<CounterOp>, op: CounterOp) {
    match op
    case Add(pid, id, s, amount, _) => exists q | (pid, q) in begun :: q.newId == id && q.session == s && q.amount == amount
    case Sub(_, id, s, amount) => Granted(earlier, id, s, amount)
    case Lapse(_) => true
  }

  ghost predicate LogTraced(begun: set<(Pid, Req)>, log: seq<CounterOp>) {
    forall i | 0 <= i < |log| :: OpTraced(begun, log[..i], log[i])
  }

  /** No two additions are for the same reservation. */
  predicate AddsDistinct(log: seq<CounterOp>) {
    forall i, j | 0 <= i < j < |log| && log[i].Add? && log[j].Add? :: log[i].id != log[j].id
  }

  predicate NotAdded(log: seq<CounterOp>, id: string) {
    forall op | op in log && op.Add? :: op.id != id
  }

  predicate UndecidedOk(st: State) {
    && (forall p | p in st.procs && Undecided(st.procs[p]).Some? :: NotAdded(st.log, Undecided(st.procs[p]).value.newId))
    && (forall p, r | p in st.procs && r in st.procs && Undecided(st.procs[p]).Some? && Undecided(st.procs[r]).Some? ::
          Undecided(st.procs[p]).value.newId == Undecided(st.procs[r]).value.newId ==> p == r)
  }

  predicate RecordsGranted(log: seq<CounterOp>, sh: Shared) {
    && (forall m | m in sh.index :: MemberGranted(log, m))
    && (forall id | id in sh.metadata :: Granted(log, id, sh.metadata[id].0, sh.metadata[id].1))
  }

  ghost predicate Traced(begun: set<(Pid, Req)>, st: State) {
    && LogTraced(begun, st.log) && AddsDistinct(st.log) && UndecidedOk(st) && RecordsGranted(st.log, st.shared)
    && forall p | p in st.procs :: PcTraced(begun, st.log, p, st.procs[p])
  }

  // ---------- Growing logs ----------

  lemma GrantedStays(log: seq<CounterOp>, more: seq<CounterOp>, id: string, s: string, amount: nat)
    requires Granted(log, id, s, amount)
    ensures Granted(log + more, id, s, amount)
  {
    var op :| op in log && op.Add? && op.granted && op.id == id && op.s == s && op.amount == amount;
    assert op in log + more;
  }

  lemma AllGrantedStays(log: seq<CounterOp>, more: seq<CounterOp>, due: seq<Member>)
    requires AllGranted(log, due)
    ensures AllGranted(log + more, due)
  {
    forall m | m in due ensures MemberGranted(log + more, m) {
      GrantedStays(log, more, m.reservationId, m.session, m.amount);
    }
  }

  lemma PcStaysTraced(begun: set<(Pid, Req)>, log: seq<CounterOp>, more: seq<CounterOp>, pid: Pid, pc: Pc)
    requires PcTraced(begun, log, pid, pc)
    ensures PcTraced(begun, log + more, pid, pc)
  {
    hide AllGranted, Granted;
    match pc
    case GiveLock(s, amount, k) => GivesStay(log, more, s, amount, k);
    case GiveRead(s, amount, k) => GivesStay(log, more, s, amount, k);
    case GiveWrite(s, amount, _, k) => GivesStay(log, more, s, amount, k);
    case GiveUnlock(s, _, k) => if k.InSweep? { AllGrantedStays(log, more, k.due); }
    case SweepMeta(_, due, _) => AllGrantedStays(log, more, due);
    case SweepIndex(_, due, _) => AllGrantedStays(log, more, due);
    case _ =>
  }

  lemma GivesStay(log: seq<CounterOp>, more: seq<CounterOp>, s: string, amount: nat, k: Then)
    requires GivesGranted(log, s, amount, k)
    ensures GivesGranted(log + more, s, amount, k)
  {
    GrantedStays(log, more, ReservationOf(k), s, amount);
    if k.InSweep? {
      AllGrantedStays(log, more, k.due);
    }
  }

  lemma RecordsStay(log: seq<CounterOp>, more: seq<CounterOp>, sh: Shared)
    requires RecordsGranted(log, sh)
    ensures RecordsGranted(log + more, sh)
  {
    forall m | m in sh.index ensures MemberGranted(log + more, m) {
      GrantedStays(log, more, m.reservationId, m.session, m.amount);
    }
    forall id | id in sh.metadata ensures Granted(log + more, id, sh.metadata[id].0, sh.metadata[id].1) {
      GrantedStays(log, more, id, sh.metadata[id].0, sh.metadata[id].1);
    }
  }

  // ---------- Kinds of step ----------

  predicate FewerRecords(a: Shared, b: Shared) {
    (forall m | m in b.index :: m in a.index) && (forall id | id in b.metadata :: id in a.metadata && b.metadata[id] == a.metadata[id])
  }

  /** A step that logs nothing and adds no record. */
  lemma MoveTraced(begun: set<(Pid, Req)>, st: State, st': State, pid: Pid)
    requires Traced(begun, st) && st'.log == st.log && FewerRecords(st.shared, st'.shared)
    requires pid in st'.procs && st'.procs == st.procs[pid := st'.procs[pid]] && PcTraced(begun, st.log, pid, st'.procs[pid])
    requires Undecided(st'.procs[pid]).Some? ==> pid in st.procs && Undecided(st'.procs[pid]) == Undecided(st.procs[pid])
    ensures Traced(begun, st')
  {
    hide PcTraced, MemberGranted, Granted, LogTraced, AddsDistinct, NotAdded, Undecided;
  }

  /** A step that logs an operation. */
  lemma OpLogged(begun: set<(Pid, Req)>, st: State, st': State, pid: Pid, op: CounterOp)
    requires Traced(begun, st) && st'.log == st.log + [op] && OpTraced(begun, st.log, op)
    requires pid in st'.procs && st'.procs == st.procs[pid := st'.procs[pid]] && PcTraced(begun, st'.log, pid, st'.procs[pid])
    requires Undecided(st'.procs[pid]).Some? ==> pid in st.procs && Undecided(st'.procs[pid]) == Undecided(st.procs[pid])
    requires op.Add? ==> pid in st.procs && Undecided(st.procs[pid]).Some? && Undecided(st.procs[pid]).value.newId == op.id && Undecided(st'.procs[pid]).None?
    requires RecordsGranted(st'.log, st'.shared)
    ensures Traced(begun, st')
  {
    hide PcTraced, MemberGranted, Granted, OpTraced, RecordsGranted, Undecided;
    LogGrows(begun, st.log, op);
    if op.Add? {
      AddsGrow(st.log, op);
    } else {
      OthersGrow(st.log, op);
    }
    forall p | p in st'.procs ensures PcTraced(begun, st'.log, p, st'.procs[p]) {
      if p != pid {
        PcStaysTraced(begun, st.log, [op], p, st.procs[p]);
      }
    }
    assert UndecidedOk(st') by {
      hide LogTraced, AddsDistinct;
      forall p | p in st'.procs && Undecided(st'.procs[p]).Some? ensures NotAdded(st'.log, Undecided(st'.procs[p]).value.newId) {
        assert p in st.procs && Undecided(st.procs[p]) == Undecided(st'.procs[p]);
        assert NotAdded(st.log, Undecided(st.procs[p]).value.newId);
      }
    }
  }

  lemma LogGrows(begun: set<(Pid, Req)>, log: seq<CounterOp>, op: CounterOp)
    requires LogTraced(begun, log) && OpTraced(begun, log, op)
    ensures LogTraced(begun, log + [op])
  {
    hide OpTraced;
    var longer := log + [op];
    forall i | 0 <= i < |longer| ensures OpTraced(begun, longer[..i], longer[i]) {
      if i < |log| {
        assert longer[..i] == log[..i];
      } else {
        assert longer[..i] == log;
      }
    }
  }

  lemma AddsGrow(log: seq<CounterOp>, op: CounterOp)
    requires AddsDistinct(log) && op.Add? && NotAdded(log, op.id)
    ensures AddsDistinct(log + [op])
  {
    assert forall i | 0 <= i < |log| :: log[i] in log;
  }

  lemma OthersGrow(log: seq<CounterOp>, op: CounterOp)
    requires AddsDistinct(log) && !op.Add?
    ensures AddsDistinct(log + [op])
  {
  }

  // ---------- Every step ----------

  lemma PlainTraced(begun: set<(Pid, Req)>, st: State, pid: Pid, fault: Fault, due: seq<Member>)
    requires Traced(begun, st) && pid in st.procs && Section(st.procs[pid]).None?
    requires !st.procs[pid].GiveLock? && !st.procs[pid].TakeLock?
    ensures Traced(begun, PlainStep(st, pid, st.procs[pid], fault, due))
  {
    var st' := PlainStep(st, pid, st.procs[pid], fault, due);
    if st' != st {
      PlainRecords(st, pid, fault, due);
      PlainPc(begun, st, pid, fault, due);
      hide PlainStep;
      MoveTraced(begun, st, st', pid);
    }
  }

  lemma {:induction false} WithoutFewer(index: seq<Member>, id: string)
    ensures forall m | m in Without(index, id) :: m in index
  {
    if index != [] {
      WithoutFewer(index[1..], id);
    }
  }

  lemma PlainRecords(st: State, pid: Pid, fault: Fault, due: seq<Member>)
    requires pid in st.procs
    ensures var st' := PlainStep(st, pid, st.procs[pid], fault, due); FewerRecords(st.shared, st'.shared) && st'.log == st.log
  {
    hide Without, InIndex, NextDue;
    match st.procs[pid]
    case SweepIndex(m, _, _) => WithoutFewer(st.shared.index, m.reservationId);
    case DropExec(id, _) => WithoutFewer(st.shared.index, id);
    case _ =>
  }

  lemma NextDueTraced(begun: set<(Pid, Req)>, log: seq<CounterOp>, pid: Pid, due: seq<Member>, q: Req)
    requires (pid, q) in begun && AllGranted(log, due)
    ensures PcTraced(begun, log, pid, NextDue(due, q)) && Undecided(NextDue(due, q)) == Some(q)
  {
    hide Granted;
    if due != [] {
      assert due[0] in due && MemberGranted(log, due[0]);
      assert forall m | m in due[1..] :: m in due;
    }
  }

  lemma PlainPc(begun: set<(Pid, Req)>, st: State, pid: Pid, fault: Fault, due: seq<Member>)
    requires Traced(begun, st) && pid in st.procs && Section(st.procs[pid]).None?
    requires !st.procs[pid].GiveLock? && !st.procs[pid].TakeLock? && PlainStep(st, pid, st.procs[pid], fault, due) != st
    ensures var st' := PlainStep(st, pid, st.procs[pid], fault, due);
            && pid in st'.procs && st'.procs == st.procs[pid := st'.procs[pid]] && PcTraced(begun, st.log, pid, st'.procs[pid])
            && (Undecided(st'.procs[pid]).Some? ==> Undecided(st'.procs[pid]) == Undecided(st.procs[pid]))
  {
    hide Granted, LogTraced, AddsDistinct, UndecidedOk, NextDue, Without;
    assert PcTraced(begun, st.log, pid, st.procs[pid]);
    match st.procs[pid]
    case Scan(q) =>
      NextDueTraced(begun, st.log, pid, [], q);
      if forall m | m in due :: m in st.shared.index {
        NextDueTraced(begun, st.log, pid, due, q);
      }
    case SweepIndex(m, rest, q) => NextDueTraced(begun, st.log, pid, rest, q);
    case _ =>
  }

  lemma LockTraced(begun: set<(Pid, Req)>, st: State, pid: Pid, s: string, inside: Pc, fault: Fault)
    requires Traced(begun, st) && pid in st.procs && PcTraced(begun, st.log, pid, inside) && Undecided(inside) == Undecided(st.procs[pid])
    ensures Traced(begun, LockStep(st, pid, s, inside, fault))
  {
    hide Traced, PcTraced;
    StoppedTraced(begun, st.log, pid);
    MoveTraced(begun, st, LockStep(st, pid, s, inside, fault), pid);
  }

  lemma StoppedTraced(begun: set<(Pid, Req)>, log: seq<CounterOp>, pid: Pid)
    ensures PcTraced(begun, log, pid, Stopped)
  {
  }

  lemma UnlockTraced(begun: set<(Pid, Req)>, st: State, pid: Pid, s: string, next: Pc, fault: Fault)
    requires Traced(begun, st) && pid in st.procs && PcTraced(begun, st.log, pid, next)
    requires Undecided(next).Some? ==> Undecided(next) == Undecided(st.procs[pid])
    ensures Traced(begun, UnlockStep(st, pid, s, next, fault))
  {
    hide Traced, PcTraced;
    MoveTraced(begun, st, UnlockStep(st, pid, s, next, fault), pid);
  }

  lemma AbandonTraced(begun: set<(Pid, Req)>, st: State, pid: Pid, s: string, pc: Pc)
    requires Traced(begun, st) && pid in st.procs && PcTraced(begun, st.log, pid, pc)
    requires Undecided(pc).Some? ==> Undecided(pc) == Undecided(st.procs[pid])
    ensures Traced(begun, Abandon(st, pid, s, pc))
  {
    hide PcTraced, Writer;
    var st' := Abandon(st, pid, s, pc);
    if GivenUp(st, s) == [] {
      assert st'.log == st.log;
      MoveTraced(begun, st, st', pid);
    } else {
      PcStaysTraced(begun, st.log, [Lapse(s)], pid, pc);
      RecordsStay(st.log, [Lapse(s)], st.shared);
      OpLogged(begun, st, st', pid, Lapse(s));
    }
  }

  lemma GiveTraced(begun: set<(Pid, Req)>, st: State, pid: Pid, fault: Fault)
    requires Traced(begun, st) && pid in st.procs && st.procs[pid].GiveRead?
    ensures Traced(begun, GiveReadStep(st, pid, st.procs[pid], fault))
  {
    hide Traced, Granted, AllGranted;
    var pc := st.procs[pid];
    OnePcTraced(begun, st, pid);
    var st', op := GiveReadStep(st, pid, pc, fault), Sub(pid, ReservationOf(pc.k), pc.s, pc.amount);
    if fault == Works && pc.s !in st.shared.aggregates {
      PcStaysTraced(begun, st.log, [op], pid, st'.procs[pid]);
      RecordsOf(begun, st);
      RecordsStay(st.log, [op], st.shared);
      OpLogged(begun, st, st', pid, op);
    } else {
      MoveTraced(begun, st, st', pid);
    }
  }

  lemma OnePcTraced(begun: set<(Pid, Req)>, st: State, pid: Pid)
    requires Traced(begun, st) && pid in st.procs
    ensures PcTraced(begun, st.log, pid, st.procs[pid])
  {
  }

  lemma RecordsOf(begun: set<(Pid, Req)>, st: State)
    requires Traced(begun, st)
    ensures RecordsGranted(st.log, st.shared)
  {
  }

  lemma GiveWriteTraced(begun: set<(Pid, Req)>, st: State, pid: Pid, fault: Fault)
    requires Traced(begun, st) && pid in st.procs && st.procs[pid].GiveWrite?
    ensures Traced(begun, GiveWriteStep(st, pid, st.procs[pid], fault))
  {
    hide Traced, Granted, AllGranted, RecordsGranted;
    var pc := st.procs[pid];
    OnePcTraced(begun, st, pid);
    if fault == FailsBefore {
      AbandonTraced(begun, st, pid, pc.s, GiveUnlock(pc.s, true, pc.k));
    } else {
      var st', op := GiveWriteStep(st, pid, pc, fault), Sub(pid, ReservationOf(pc.k), pc.s, pc.amount);
      PcStaysTraced(begun, st.log, [op], pid, st'.procs[pid]);
      RecordsOf(begun, st);
      RecordsStay(st.log, [op], st.shared);
      SameRecords(st'.log, st.shared, st'.shared);
      OpLogged(begun, st, st', pid, op);
    }
  }

  lemma SameRecords(log: seq<CounterOp>, a: Shared, b: Shared)
    requires RecordsGranted(log, a) && b.index == a.index && b.metadata == a.metadata
    ensures RecordsGranted(log, b)
  {
  }

  lemma TakeTraced(caps: Caps, begun: set<(Pid, Req)>, st: State, pid: Pid, fault: Fault)
    requires Traced(begun, st) && pid in st.procs && st.procs[pid].TakeRead?
    ensures Traced(begun, TakeReadStep(caps, st, pid, st.procs[pid], fault))
  {
    hide Traced, Granted, AllGranted, RecordsGranted;
    var pc := st.procs[pid];
    OnePcTraced(begun, st, pid);
    var st', op := TakeReadStep(caps, st, pid, pc, fault), Add(pid, pc.q.newId, pc.q.session, pc.q.amount, false);
    if st'.log == st.log {
      MoveTraced(begun, st, st', pid);
    } else {
      RecordsOf(begun, st);
      RecordsStay(st.log, [op], st.shared);
      OpLogged(begun, st, st', pid, op);
    }
  }

  lemma TakeWriteTraced(begun: set<(Pid, Req)>, st: State, pid: Pid, fault: Fault)
    requires Traced(begun, st) && pid in st.procs && st.procs[pid].TakeWrite?
    ensures Traced(begun, TakeWriteStep(st, pid, st.procs[pid], fault))
  {
    hide Traced, Granted, AllGranted, RecordsGranted;
    var pc, q := st.procs[pid], st.procs[pid].q;
    OnePcTraced(begun, st, pid);
    if fault == FailsBefore {
      AbandonTraced(begun, st, pid, q.session, TakeUnlock(q));
    } else {
      var st', op := TakeWriteStep(st, pid, pc, fault), Add(pid, q.newId, q.session, q.amount, true);
      RecordsOf(begun, st);
      RecordsStay(st.log, [op], st.shared);
      NewRecord(st.log, op, st.shared, st'.shared);
      OpLogged(begun, st, st', pid, op);
    }
  }

  lemma NewRecord(log: seq<CounterOp>, op: CounterOp, a: Shared, b: Shared)
    requires op.Add? && op.granted && RecordsGranted(log + [op], a)
    requires b.index == a.index + [Member(op.id, op.s, op.amount, 0)] && b.metadata == a.metadata[op.id := (op.s, op.amount)]
    ensures RecordsGranted(log + [op], b)
  {
    assert op in log + [op] && Granted(log + [op], op.id, op.s, op.amount);
  }

  lemma StepTraced(caps: Caps, begun: set<(Pid, Req)>, st: State, pid: Pid, fault: Fault, due: seq<Member>)
    requires Traced(begun, st) && pid in st.procs
    ensures Traced(begun, StepProc(caps, st, pid, fault, due))
  {
    hide Traced, Granted, AllGranted, PlainStep, LockStep, UnlockStep, GiveReadStep, GiveWriteStep, TakeReadStep, TakeWriteStep;
    OnePcTraced(begun, st, pid);
    match st.procs[pid]
    case GiveLock(s, amount, k) => LockTraced(begun, st, pid, s, GiveRead(s, amount, k), fault);
    case GiveRead(_, _, _) => GiveTraced(begun, st, pid, fault);
    case GiveWrite(_, _, _, _) => GiveWriteTraced(begun, st, pid, fault);
    case GiveUnlock(s, failed, k) => UnlockTraced(begun, st, pid, s, if failed then Stopped else Resume(k), fault);
    case TakeLock(q) => LockTraced(begun, st, pid, q.session, TakeRead(q), fault);
    case TakeRead(_) => TakeTraced(caps, begun, st, pid, fault);
    case TakeWrite(_, _) => TakeWriteTraced(begun, st, pid, fault);
    case TakeUnlock(q) => UnlockTraced(begun, st, pid, q.session, Stopped, fault);
    case _ => PlainTraced(begun, st, pid, fault, due);
  }

  lemma BeginTraced(begun: set<(Pid, Req)>, st: State, pid: Pid, q: Req)
    requires Traced(begun, st) && forall c | c in begun :: c.1.newId != q.newId
    ensures Traced(begun + {(pid, q)}, Goto(st, pid, Scan(q)))
  {
    hide Granted, AllGranted, RecordsGranted, AddsDistinct, GivesGranted;
    var more, st' := begun + {(pid, q)}, Goto(st, pid, Scan(q));
    MoreBegun(begun, more, st.log);
    forall p | p in st'.procs ensures PcTraced(more, st.log, p, st'.procs[p]) {
      if p != pid {
        assert PcTraced(begun, st.log, p, st.procs[p]);
      }
    }
    BegunIdsOnly(begun, st.log, q.newId);
  }

  lemma MoreBegun(begun: set<(Pid, Req)>, more: set<(Pid, Req)>, log: seq<CounterOp>)
    requires begun <= more && LogTraced(begun, log)
    ensures LogTraced(more, log)
  {
    hide Granted;
    forall i | 0 <= i < |log| ensures OpTraced(more, log[..i], log[i]) {
      assert OpTraced(begun, log[..i], log[i]);
      if log[i].Add? {
        var q :| (log[i].pid, q) in begun && q.newId == log[i].id && q.session == log[i].s && q.amount == log[i].amount;
        assert (log[i].pid, q) in more;
      }
    }
  }

  lemma BegunIdsOnly(begun: set<(Pid, Req)>, log: seq<CounterOp>, id: string)
    requires LogTraced(begun, log) && forall c | c in begun :: c.1.newId != id
    ensures NotAdded(log, id)
  {
    forall op | op in log && op.Add? ensures op.id != id {
      var i :| 0 <= i < |log| && log[i] == op;
      assert OpTraced(begun, log[..i], log[i]);
    }
  }

  lemma CrashTraced(begun: set<(Pid, Req)>, st: State, pid: Pid)
    requires Traced(begun, st) && pid in st.procs
    ensures Traced(begun, if Writing(st.procs[pid]) then Abandon(st, pid, Section(st.procs[pid]).value, Stopped) else Goto(st, pid, Stopped))
  {
    hide Traced;
    StoppedTraced(begun, st.log, pid);
    if Writing(st.procs[pid]) {
      AbandonTraced(begun, st, pid, Section(st.procs[pid]).value, Stopped);
    } else {
      MoveTraced(begun, st, Goto(st, pid, Stopped), pid);
    }
  }

  /** Keys lapse: no record is added, and at most the lapse is logged. */
  lemma LapseTraced(begun: set<(Pid, Req)>, st: State, st': State, s: string)
    requires Traced(begun, st) && st'.procs == st.procs && FewerRecords(st.shared, st'.shared)
    requires st'.log == st.log || st'.log == st.log + [Lapse(s)]
    ensures Traced(begun, st')
  {
    hide Granted, GivesGranted, OpTraced, Undecided;
    if st'.log != st.log {
      LogGrows(begun, st.log, Lapse(s)) by {
        LapseIsTraced(begun, st.log, s);
      }
      OthersGrow(st.log, Lapse(s));
      RecordsStay(st.log, [Lapse(s)], st.shared);
      hide LogTraced, AddsDistinct;
      forall p | p in st'.procs ensures PcTraced(begun, st'.log, p, st'.procs[p]) {
        PcStaysTraced(begun, st.log, [Lapse(s)], p, st.procs[p]);
      }
    }
  }

  lemma LapseIsTraced(begun: set<(Pid, Req)>, log: seq<CounterOp>, s: string)
    ensures OpTraced(begun, log, Lapse(s))
  {
  }

  lemma ApplyTraced(caps: Caps, begun: set<(Pid, Req)>, st: State, ev: Event)
    requires Traced(begun, st) && (ev.BeginReserve? ==> forall c | c in begun :: c.1.newId != ev.q.newId)
    ensures Traced(begun + Begun([ev]), Apply(caps, st, ev))
  {
    hide Traced, StepProc, Abandon, Writer;
    assert [ev][0] == ev;
    match ev
    case BeginReserve(pid, q) =>
      assert Begun([ev]) == {(pid, q)};
      BeginTraced(begun, st, pid, q);
      MoreIsTraced(begun, begun + {(pid, q)}, st);
    case BeginRelease(pid, id) =>
      StartTraced(begun, st, pid, ReleaseMeta(id));
      NothingBegun(begun, ev);
    case BeginCommit(pid, id) =>
      StartTraced(begun, st, pid, DropScan(id));
      NothingBegun(begun, ev);
    case Step(pid, fault, due) =>
      NothingBegun(begun, ev);
      if pid in st.procs { StepTraced(caps, begun, st, pid, fault, due); }
    case Crash(pid) =>
      NothingBegun(begun, ev);
      if pid in st.procs { CrashTraced(begun, st, pid); }
    case LapseAggregate(s) =>
      NothingBegun(begun, ev);
      LapseTraced(begun, st, Apply(caps, st, ev), s);
    case _ =>
      NothingBegun(begun, ev);
      LapseTraced(begun, st, Apply(caps, st, ev), "");
  }

  lemma NothingBegun(begun: set<(Pid, Req)>, ev: Event)
    requires !ev.BeginReserve?
    ensures begun + Begun([ev]) == begun
  {
  }

  lemma MoreIsTraced(begun: set<(Pid, Req)>, more: set<(Pid, Req)>, st: State)
    requires begun <= more && Traced(begun, st)
    ensures Traced(more, st)
  {
    hide Granted, AllGranted, RecordsGranted, AddsDistinct, GivesGranted, UndecidedOk, LogTraced;
    MoreBegun(begun, more, st.log);
    forall p | p in st.procs ensures PcTraced(more, st.log, p, st.procs[p]) {
      assert PcTraced(begun, st.log, p, st.procs[p]);
    }
  }

  lemma StartTraced(begun: set<(Pid, Req)>, st: State, pid: Pid, pc: Pc)
    requires Traced(begun, st) && (pc.ReleaseMeta? || pc.DropScan?)
    ensures Traced(begun, Goto(st, pid, pc))
  {
    hide Traced;
    MoveTraced(begun, st, Goto(st, pid, pc), pid);
  }

  lemma {:induction false} RunTraced(caps: Caps, events: seq<Event>)
    requires FreshCalls(events)
    ensures Traced(Begun(events), Run(caps, events))
  {
    hide Traced, Apply;
    if events == [] {
      EmptyTraced(caps);
    } else {
      var earlier, last := events[..|events| - 1], events[|events| - 1];
      RunTraced(caps, earlier);
      assert events == earlier + [last];
      assert Begun(events) == Begun(earlier) + Begun([last]);
      if last.BeginReserve? {
        forall c | c in Begun(earlier) ensures c.1.newId != last.q.newId {
          var e :| e in earlier && e.BeginReserve? && c == (e.pid, e.q);
          var i :| 0 <= i < |earlier| && earlier[i] == e;
          assert events[i] == e;
        }
      }
      ApplyTraced(caps, Begun(earlier), Run(caps, earlier), last);
    }
  }

  lemma EmptyTraced(caps: Caps)
    ensures Traced(Begun([]), Run(caps, []))
  {
  }

  // ---------- What the counter's operations stand for ----------

  /** In every interleaving, every addition to the counter, granted or denied, is that of a reserve call the process made, for
      its session and its amount, and no call is counted twice; every subtraction gives back, for its session, the amount an
      earlier addition was granted; and every member and every metadata entry is that of a granted call. */
  lemma OperationsStandForCalls(caps: Caps, events: seq<Event>, i: nat, j: nat)
    requires FreshCalls(events)
    ensures var st := Run(caps, events);
            && (i < |st.log| && st.log[i].Add? ==>
                  exists e | e in events :: e.BeginReserve? && e.pid == st.log[i].pid && e.q.newId == st.log[i].id
                                            && e.q.session == st.log[i].s && e.q.amount == st.log[i].amount)
            && (i < j < |st.log| && st.log[i].Add? && st.log[j].Add? ==> st.log[i].id != st.log[j].id)
            && (i < |st.log| && st.log[i].Sub? ==> Granted(st.log[..i], st.log[i].id, st.log[i].s, st.log[i].amount))
            && (forall m | m in st.shared.index :: Granted(st.log, m.reservationId, m.session, m.amount))
            && (forall id | id in st.shared.metadata :: Granted(st.log, id, st.shared.metadata[id].0, st.shared.metadata[id].1))
  {
    hide Run, Granted, UndecidedOk, PcTraced;
    RunTraced(caps, events);
    var log := Run(caps, events).log;
    if i < |log| {
      assert OpTraced(Begun(events), log[..i], log[i]);
      if log[i].Add? {
        var q :| (log[i].pid, q) in Begun(events) && q.newId == log[i].id && q.session == log[i].s && q.amount == log[i].amount;
        var e :| e in events && e.BeginReserve? && (log[i].pid, q) == (e.pid, e.q);
      }
    }
  }

  // ---------- What the counter forgets ----------

  function LapsesIn(log: seq<CounterOp>, s: string): nat {
    if log == [] then 0 else LapsesIn(log[..|log| - 1], s) + if log[|log| - 1] == Lapse(s) then 1 else 0
  }

  function LapseEvents(events: seq<Event>, s: string): nat {
    if events == [] then 0 else LapseEvents(events[..|events| - 1], s) + if events[|events| - 1] == LapseAggregate(s) then 1 else 0
  }

  /** A lapse that happened behind a writer's back and is not in the log yet. */
  function Unlogged(caps: Caps, st: State, s: string): nat {
    if s in Replay(caps, st.log) && s !in st.shared.aggregates then 1 else 0
  }

  /** No aggregate disappears; an operation that is logged either leaves its session's aggregate there, or was denied, or takes from
      nothing, or makes an unlogged lapse visible. */
  predicate LogsSoundly(caps: Caps, st: State, st': State) {
    && (forall s | s in st.shared.aggregates :: s in st'.shared.aggregates)
    && (st'.log == st.log
        || exists op | op in st'.log :: st'.log == st.log + [op]
                                        && (op.Add? && op.granted ==> op.s in st'.shared.aggregates)
                                        && (op.Lapse? ==> op.s in Replay(caps, st.log) && op.s !in st.shared.aggregates))
  }

  lemma LogGrowsByOne(caps: Caps, log: seq<CounterOp>, op: CounterOp, s: string)
    ensures LapsesIn(log + [op], s) == LapsesIn(log, s) + if op == Lapse(s) then 1 else 0
    ensures Replay(caps, log + [op]) == ApplyOp(caps, Replay(caps, log), op)
  {
    assert (log + [op])[..|log|] == log;
  }

  /** What one operation does to the sessions the counter knows. */
  lemma KnownAfter(caps: Caps, c: map<string, nat>, op: CounterOp, s: string)
    requires op.Add? ==> (op.granted <==> OrZero(Get(c, op.s)) + op.amount <= caps(op.s))
    ensures s in ApplyOp(caps, c, op) <==> (s in c && op != Lapse(s)) || (op.Add? && op.granted && op.s == s)
  {
  }

  lemma LoggedLapses(caps: Caps, st: State, st': State, s: string)
    requires LogsSoundly(caps, st, st') && VerdictsOk(caps, st'.log)
    ensures LapsesIn(st'.log, s) + Unlogged(caps, st', s) <= LapsesIn(st.log, s) + Unlogged(caps, st, s)
  {
    hide Replay, LapsesIn, ApplyOp;
    if st'.log != st.log {
      var op :| op in st'.log && st'.log == st.log + [op] && (op.Add? && op.granted ==> op.s in st'.shared.aggregates)
                && (op.Lapse? ==> op.s in Replay(caps, st.log) && op.s !in st.shared.aggregates);
      LogGrowsByOne(caps, st.log, op, s);
      VerdictOfLast(caps, st.log, op);
      hide VerdictsOk;
      KnownAfter(caps, Replay(caps, st.log), op, s);
    }
  }

  lemma VerdictOfLast(caps: Caps, log: seq<CounterOp>, op: CounterOp)
    requires VerdictsOk(caps, log + [op])
    ensures op.Add? ==> (op.granted <==> OrZero(Get(Replay(caps, log), op.s)) + op.amount <= caps(op.s))
  {
    var longer := log + [op];
    assert longer[..|log|] == log && longer[|log|] == op;
  }

  lemma AbandonLogsSoundly(caps: Caps, st: State, pid: Pid, s: string, pc: Pc)
    requires Inv(caps, st)
    ensures LogsSoundly(caps, st, Abandon(st, pid, s, pc))
  {
    var st' := Abandon(st, pid, s, pc);
    if GivenUp(st, s) == [] {
      assert st'.log == st.log;
    } else {
      assert Abs(st, s) == Get(Replay(caps, st.log), s);
      assert Lapse(s) in st'.log;
    }
  }

  lemma GiveLogsSoundly(caps: Caps, st: State, pid: Pid, fault: Fault)
    requires Inv(caps, st) && pid in st.procs && (st.procs[pid].GiveRead? || st.procs[pid].GiveWrite?)
    ensures LogsSoundly(caps, st, StepProc(caps, st, pid, fault, []))
  {
    hide Inv, ReservationOf;
    var pc, st' := st.procs[pid], StepProc(caps, st, pid, fault, []);
    if pc.GiveWrite? && fault == FailsBefore {
      hide Abandon, LogsSoundly;
      AbandonLogsSoundly(caps, st, pid, pc.s, GiveUnlock(pc.s, true, pc.k));
    } else if st'.log != st.log {
      assert Sub(pid, ReservationOf(pc.k), pc.s, pc.amount) in st'.log;
    }
  }

  lemma TakeLogsSoundly(caps: Caps, st: State, pid: Pid, fault: Fault)
    requires Inv(caps, st) && pid in st.procs && (st.procs[pid].TakeRead? || st.procs[pid].TakeWrite?)
    ensures LogsSoundly(caps, st, StepProc(caps, st, pid, fault, []))
  {
    hide Inv;
    var pc, st' := st.procs[pid], StepProc(caps, st, pid, fault, []);
    if pc.TakeWrite? && fault == FailsBefore {
      hide Abandon, LogsSoundly;
      AbandonLogsSoundly(caps, st, pid, pc.q.session, TakeUnlock(pc.q));
    } else if st'.log != st.log {
      assert Add(pid, pc.q.newId, pc.q.session, pc.q.amount, pc.TakeWrite?) in st'.log;
    }
  }

  lemma SameLog(caps: Caps, st: State, st': State)
    requires st'.log == st.log && st'.shared.aggregates == st.shared.aggregates
    ensures LogsSoundly(caps, st, st')
  {
  }

  lemma StepLogsSoundly(caps: Caps, st: State, pid: Pid, fault: Fault, due: seq<Member>)
    requires Inv(caps, st) && pid in st.procs
    ensures LogsSoundly(caps, st, StepProc(caps, st, pid, fault, due))
  {
    hide Inv, LogsSoundly, GiveReadStep, GiveWriteStep, TakeReadStep, TakeWriteStep, PlainStep;
    var st' := StepProc(caps, st, pid, fault, due);
    match st.procs[pid]
    case GiveLock(_, _, _) => SameLog(caps, st, st');
    case GiveRead(_, _, _) => GiveLogsSoundly(caps, st, pid, fault);
    case GiveWrite(_, _, _, _) => GiveLogsSoundly(caps, st, pid, fault);
    case GiveUnlock(_, _, _) => SameLog(caps, st, st');
    case TakeLock(_) => SameLog(caps, st, st');
    case TakeRead(_) => TakeLogsSoundly(caps, st, pid, fault);
    case TakeWrite(_, _) => TakeLogsSoundly(caps, st, pid, fault);
    case TakeUnlock(_) => SameLog(caps, st, st');
    case _ =>
      PlainStepIsQuiet(st, pid, fault, due);
      SameLog(caps, st, st');
  }

  lemma ApplyLapses(caps: Caps, st: State, ev: Event, s: string)
    requires Inv(caps, st) && LeaseHolds(st, ev)
    ensures var st' := Apply(caps, st, ev);
            LapsesIn(st'.log, s) + Unlogged(caps, st', s) <=
            LapsesIn(st.log, s) + Unlogged(caps, st, s) + if ev == LapseAggregate(s) then 1 else 0
  {
    ApplyKeepsInv(caps, st, ev);
    var st' := Apply(caps, st, ev);
    if ev.LapseAggregate? {
      AggregateLapses(caps, st, ev.s, s);
    } else {
      assert LogsSoundly(caps, st, st') by {
        hide Inv, LogsSoundly;
        match ev
        case Step(pid, fault, due) =>
          if pid in st.procs { StepLogsSoundly(caps, st, pid, fault, due); } else { SameLog(caps, st, st'); }
        case Crash(pid) =>
          if pid in st.procs && Writing(st.procs[pid]) {
            AbandonLogsSoundly(caps, st, pid, Section(st.procs[pid]).value, Stopped);
          } else {
            SameLog(caps, st, st');
          }
        case _ => SameLog(caps, st, st');
      }
      hide LogsSoundly, Apply;
      LoggedLapses(caps, st, st', s);
    }
  }

  lemma AggregateLapses(caps: Caps, st: State, gone: string, s: string)
    ensures var st' := Apply(caps, st, LapseAggregate(gone));
            LapsesIn(st'.log, s) + Unlogged(caps, st', s) <= LapsesIn(st.log, s) + Unlogged(caps, st, s) + if gone == s then 1 else 0
  {
    var st' := Apply(caps, st, LapseAggregate(gone));
    assert st'.shared.aggregates == st.shared.aggregates - {gone};
    assert st'.log == st.log || st'.log == st.log + [Lapse(gone)];
    hide Apply, Replay, LapsesIn, ApplyOp;
    if st'.log != st.log {
      LogGrowsByOne(caps, st.log, Lapse(gone), s);
      KnownAfter(caps, Replay(caps, st.log), Lapse(gone), s);
    }
  }

  lemma {:induction false} RunLapses(caps: Caps, events: seq<Event>, s: string)
    requires LeasesHold(caps, events)
    ensures var st := Run(caps, events); LapsesIn(st.log, s) + Unlogged(caps, st, s) <= LapseEvents(events, s)
  {
    hide Apply, Unlogged;
    if events == [] {
      assert Unlogged(caps, Run(caps, events), s) == 0 by { StartsLogged(caps, s); }
    } else {
      var earlier := events[..|events| - 1];
      RunLapses(caps, earlier, s);
      RunKeepsInv(caps, earlier);
      hide Inv;
      ApplyLapses(caps, Run(caps, earlier), events[|events| - 1], s);
    }
  }

  lemma StartsLogged(caps: Caps, s: string)
    ensures Unlogged(caps, Run(caps, []), s) == 0
  {
  }

  /** While the leases hold, the counter forgets a session's total at most as often as its aggregate lapsed in Redis. */
  lemma CounterForgetsOnlyLapses(caps: Caps, events: seq<Event>, s: string)
    requires LeasesHold(caps, events)
    ensures LapsesIn(Run(caps, events).log, s) <= LapseEvents(events, s)
  {
    RunLapses(caps, events, s);
  }
}
