/** Any number of concurrent reservation calls, interleaved one Redis command at a time.

    Every command may fail before or after taking effect, every process may crash, and every key with a TTL may lapse at
    any moment. `LeasesHold` says that no lock lapsed while its owner was inside the critical section it protects.
 */
module BudgetInterleaving {
  import opened Basics
  import opened Budget

  type Pid = nat

  /** A reserve call after its arguments were parsed; its cap is the session's, `caps(session)`. */
  datatype Req = Req(session: string, key: string, amount: nat, newId: string)

  /** What follows a `releaseAmount`: the rest of a sweep and its reserve call, or the rest of a release. */
  datatype Then = InSweep(m: Member, due: seq<Member>, q: Req) | InRelease(id: string)

  /** The reservation an amount is given back for. */
  function ReservationOf(k: Then): string {
    match k
    case InSweep(m, _, _) => m.reservationId
    case InRelease(id) => id
  }

  /** The next Redis command of a process. */
  datatype Pc =
    | Scan(q: Req)                                       // ZRANGEBYSCORE
    | GiveLock(s: string, amount: nat, k: Then)          // releaseAmount: SET NX
    | GiveRead(s: string, amount: nat, k: Then)          // GET
    | GiveWrite(s: string, amount: nat, seen: nat, k: Then)  // SET KEEPTTL
    | GiveUnlock(s: string, failed: bool, k: Then)       // deferred DEL
    | SweepMeta(m: Member, due: seq<Member>, q: Req)     // DEL
    | SweepIndex(m: Member, due: seq<Member>, q: Req)    // ZREM
    | Lookup(q: Req)                                     // GET of the claim
    | TakeLock(q: Req)                                   // SET NX
    | TakeRead(q: Req)                                   // GET
    | TakeWrite(q: Req, read: Option<nat>)               // MULTI .. EXEC
    | TakeUnlock(q: Req)                                 // deferred DEL
    | ReleaseMeta(id: string)                            // GET
    | DropScan(id: string)                               // ZRANGE
    | DropExec(id: string, found: bool)                  // MULTI DEL, ZREM EXEC
    | Stopped

  datatype Shared = Shared(
    aggregates: map<string, nat>,
    locks: map<string, Pid>,
    claims: map<string, string>,
    metadata: map<string, (string, nat)>,
    index: seq<Member>)

  /** Operations of an atomic per-session counter, with the process that performs them and the reservation they are about. */
  datatype CounterOp =
    | Add(pid: Pid, id: string, s: string, amount: nat, granted: bool)
    | Sub(pid: Pid, id: string, s: string, amount: nat)
    | Lapse(s: string)

  /** `log` records, at the command where each takes effect, the counter operations the run amounts to. */
  datatype State = State(shared: Shared, procs: map<Pid, Pc>, log: seq<CounterOp>)

  datatype Event =
    | BeginReserve(pid: Pid, q: Req)
    | BeginRelease(pid: Pid, id: string)
    | BeginCommit(pid: Pid, id: string)
    | Step(pid: Pid, fault: Fault, due: seq<Member>)
    | Crash(pid: Pid)
    | LapseAggregate(s: string)
    | LapseClaim(key: string)
    | LapseMeta(id: string)
    | LapseLock(s: string)

  type Caps = string -> nat

  // ---------- The atomic counter ----------

  function Get<V>(m: map<string, V>, s: string): Option<V> {
    if s in m then Some(m[s]) else None
  }

  function OrZero(v: Option<nat>): nat {
    if v.Some? then v.value else 0
  }

  /** "Add if it fits", "subtract, floored at zero, unless forgotten", "forget". */
  function ApplyOp(caps: Caps, c: map<string, nat>, op: CounterOp): map<string, nat> {
    match op
    case Add(_, _, s, amount, _) => if OrZero(Get(c, s)) + amount <= caps(s) then c[s := OrZero(Get(c, s)) + amount] else c
    case Sub(_, _, s, amount) => if s in c then c[s := Minus(c[s], amount)] else c
    case Lapse(s) => c - {s}
  }

  function Replay(caps: Caps, log: seq<CounterOp>): map<string, nat> {
    if log == [] then map[] else ApplyOp(caps, Replay(caps, log[..|log| - 1]), log[|log| - 1])
  }

  /** Every verdict in the log is the one the atomic counter gives at that point. */
  predicate VerdictsOk(caps: Caps, log: seq<CounterOp>) {
    forall i | 0 <= i < |log| && log[i].Add? ::
      log[i].granted <==> OrZero(Get(Replay(caps, log[..i]), log[i].s)) + log[i].amount <= caps(log[i].s)
  }

  // ---------- The processes ----------

  /** The session whose lock a process relies on. */
  function Section(pc: Pc): Option<string> {
    match pc
    case GiveRead(s, _, _) => Some(s)
    case GiveWrite(s, _, _, _) => Some(s)
    case GiveUnlock(s, _, _) => Some(s)
    case TakeRead(q) => Some(q.session)
    case TakeWrite(q, _) => Some(q.session)
    case TakeUnlock(q) => Some(q.session)
    case _ => None
  }

  predicate Writing(pc: Pc) {
    pc.GiveWrite? || pc.TakeWrite?
  }

  /** The aggregate a process about to write has read. */
  function SeenBy(pc: Pc): Option<nat>
    requires Writing(pc)
  {
    if pc.GiveWrite? then Some(pc.seen) else pc.read
  }

  /** The process, if any, that has read a session's aggregate under the lock and is about to write it. */
  function Writer(st: State, s: string): Option<Pc> {
    if s in st.shared.locks && st.shared.locks[s] in st.procs
       && Section(st.procs[st.shared.locks[s]]) == Some(s) && Writing(st.procs[st.shared.locks[s]])
    then Some(st.procs[st.shared.locks[s]])
    else None
  }

  /** The counter value the system stands for: what a writer has read, otherwise what Redis holds. */
  function Abs(st: State, s: string): Option<nat> {
    match Writer(st, s)
    case Some(pc) => SeenBy(pc)
    case None => Get(st.shared.aggregates, s)
  }

  function NextDue(due: seq<Member>, q: Req): Pc {
    if due == [] then Lookup(q) else GiveLock(due[0].session, due[0].amount, InSweep(due[0], due[1..], q))
  }

  function Resume(k: Then): Pc {
    match k
    case InSweep(m, due, q) => SweepMeta(m, due, q)
    case InRelease(id) => DropScan(id)
  }

  function Goto(st: State, pid: Pid, pc: Pc): State {
    st.(procs := st.procs[pid := pc])
  }

  /** The counter's view of a writer that gives up: if its key lapsed meanwhile, the lapse becomes visible now. */
  function GivenUp(st: State, s: string): seq<CounterOp> {
    match Writer(st, s)
    case None => []
    case Some(pc) => if SeenBy(pc).Some? && s !in st.shared.aggregates then [Lapse(s)] else []
  }

  function Abandon(st: State, pid: Pid, s: string, pc: Pc): State {
    Goto(st, pid, pc).(log := st.log + GivenUp(st, s))
  }

  function SetLock(st: State, s: string, pid: Pid): State {
    st.(shared := st.shared.(locks := st.shared.locks[s := pid]))
  }

  function DropLock(st: State, s: string): State {
    st.(shared := st.shared.(locks := st.shared.locks - {s}))
  }

  /** One command under the lock, or the command that takes it; SET NX finds the key absent or fails. */
  function LockStep(st: State, pid: Pid, s: string, inside: Pc, fault: Fault): State {
    if fault == FailsBefore || s in st.shared.locks then Goto(st, pid, Stopped)
    else Goto(SetLock(st, s, pid), pid, if fault == Works then inside else Stopped)
  }

  function UnlockStep(st: State, pid: Pid, s: string, next: Pc, fault: Fault): State {
    Goto(if fault == FailsBefore then st else DropLock(st, s), pid, next)
  }

  function GiveReadStep(st: State, pid: Pid, pc: Pc, fault: Fault): State
    requires pc.GiveRead?
  {
    if fault != Works then Goto(st, pid, GiveUnlock(pc.s, true, pc.k))
    else if pc.s !in st.shared.aggregates then Goto(st, pid, GiveUnlock(pc.s, false, pc.k)).(log := st.log + [Sub(pid, ReservationOf(pc.k), pc.s, pc.amount)])
    else Goto(st, pid, GiveWrite(pc.s, pc.amount, st.shared.aggregates[pc.s], pc.k))
  }

  function GiveWriteStep(st: State, pid: Pid, pc: Pc, fault: Fault): State
    requires pc.GiveWrite?
  {
    if fault == FailsBefore then Abandon(st, pid, pc.s, GiveUnlock(pc.s, true, pc.k))
    else
      var sh := st.shared.(aggregates := st.shared.aggregates[pc.s := Minus(pc.seen, pc.amount)]);
      State(sh, st.procs[pid := GiveUnlock(pc.s, fault == FailsAfter, pc.k)], st.log + [Sub(pid, ReservationOf(pc.k), pc.s, pc.amount)])
  }

  function TakeReadStep(caps: Caps, st: State, pid: Pid, pc: Pc, fault: Fault): State
    requires pc.TakeRead?
  {
    var s, seen := pc.q.session, Get(st.shared.aggregates, pc.q.session);
    if fault != Works then Goto(st, pid, TakeUnlock(pc.q))
    else if OrZero(seen) + pc.q.amount > caps(s) then Goto(st, pid, TakeUnlock(pc.q)).(log := st.log + [Add(pid, pc.q.newId, s, pc.q.amount, false)])
    else Goto(st, pid, TakeWrite(pc.q, seen))
  }

  function TakeWriteStep(st: State, pid: Pid, pc: Pc, fault: Fault): State
    requires pc.TakeWrite?
  {
    var q := pc.q;
    if fault == FailsBefore then Abandon(st, pid, q.session, TakeUnlock(q))
    else
      var sh := st.shared.(
                  aggregates := st.shared.aggregates[q.session := OrZero(pc.read) + q.amount],
                  claims := st.shared.claims[q.key := q.newId],
                  metadata := st.shared.metadata[q.newId := (q.session, q.amount)],
                  index := st.shared.index + [Member(q.newId, q.session, q.amount, 0)]);
      State(sh, st.procs[pid := TakeUnlock(q)], st.log + [Add(pid, q.newId, q.session, q.amount, true)])
  }

  function Bookkeep(st: State, pid: Pid, sh: Shared, next: Pc, fault: Fault): State {
    Goto(if fault == FailsBefore then st else st.(shared := sh), pid, if fault == Works then next else Stopped)
  }

  /** Commands that touch neither locks nor aggregates. */
  function PlainStep(st: State, pid: Pid, pc: Pc, fault: Fault, due: seq<Member>): State {
    var sh := st.shared;
    match pc
    case Scan(q) => Bookkeep(st, pid, sh, if forall m | m in due :: m in sh.index then NextDue(due, q) else NextDue([], q), fault)
    case SweepMeta(m, rest, q) =>
      var next := SweepIndex(m, rest, q);   // the error of this DEL is ignored
      Goto(if fault == FailsBefore then st else st.(shared := sh.(metadata := sh.metadata - {m.reservationId})), pid, next)
    case SweepIndex(m, rest, q) => Bookkeep(st, pid, sh.(index := Without(sh.index, m.reservationId)), NextDue(rest, q), fault)
    case Lookup(q) =>
      Goto(st, pid, if fault == Works && q.key in sh.claims && sh.claims[q.key] != "" then Stopped else TakeLock(q))
    case ReleaseMeta(id) =>
      Bookkeep(st, pid, sh, if id !in sh.metadata then Stopped else GiveLock(sh.metadata[id].0, sh.metadata[id].1, InRelease(id)), fault)
    case DropScan(id) => Goto(st, pid, DropExec(id, fault == Works && InIndex(sh.index, id)))
    case DropExec(id, found) =>
      Bookkeep(st, pid, sh.(metadata := sh.metadata - {id}, index := if found then Without(sh.index, id) else sh.index), Stopped, fault)
    case _ => st
  }

  function StepProc(caps: Caps, st: State, pid: Pid, fault: Fault, due: seq<Member>): State
    requires pid in st.procs
  {
    var pc := st.procs[pid];
    match pc
    case GiveLock(s, amount, k) => LockStep(st, pid, s, GiveRead(s, amount, k), fault)
    case GiveRead(_, _, _) => GiveReadStep(st, pid, pc, fault)
    case GiveWrite(_, _, _, _) => GiveWriteStep(st, pid, pc, fault)
    case GiveUnlock(s, failed, k) => UnlockStep(st, pid, s, if failed then Stopped else Resume(k), fault)
    case TakeLock(q) => LockStep(st, pid, q.session, TakeRead(q), fault)
    case TakeRead(_) => TakeReadStep(caps, st, pid, pc, fault)
    case TakeWrite(_, _) => TakeWriteStep(st, pid, pc, fault)
    case TakeUnlock(q) => UnlockStep(st, pid, q.session, Stopped, fault)
    case _ => PlainStep(st, pid, pc, fault, due)
  }

  predicate CanBegin(st: State, pid: Pid) {
    pid in st.procs ==> st.procs[pid] == Stopped
  }

  function Apply(caps: Caps, st: State, ev: Event): State {
    match ev
    case BeginReserve(pid, q) => if CanBegin(st, pid) then Goto(st, pid, Scan(q)) else st
    case BeginRelease(pid, id) => if CanBegin(st, pid) then Goto(st, pid, ReleaseMeta(id)) else st
    case BeginCommit(pid, id) => if CanBegin(st, pid) then Goto(st, pid, DropScan(id)) else st
    case Step(pid, fault, due) => if pid in st.procs then StepProc(caps, st, pid, fault, due) else st
    case Crash(pid) =>
      if pid !in st.procs then st
      else if Writing(st.procs[pid]) then Abandon(st, pid, Section(st.procs[pid]).value, Stopped)
      else Goto(st, pid, Stopped)
    case LapseAggregate(s) =>
      var gone := st.(shared := st.shared.(aggregates := st.shared.aggregates - {s}));
      if Writer(st, s).Some? then gone else gone.(log := st.log + [Lapse(s)])
    case LapseClaim(key) => st.(shared := st.shared.(claims := st.shared.claims - {key}))
    case LapseMeta(id) => st.(shared := st.shared.(metadata := st.shared.metadata - {id}))
    case LapseLock(s) => DropLock(st, s)
  }

  function Run(caps: Caps, events: seq<Event>): State {
    if events == [] then State(Shared(map[], map[], map[], map[], []), map[], [])
    else Apply(caps, Run(caps, events[..|events| - 1]), events[|events| - 1])
  }

  /** If a lock lapses, its owner is not inside the section it protects. */
  predicate LeaseHolds(st: State, ev: Event) {
    ev.LapseLock? && ev.s in st.shared.locks && st.shared.locks[ev.s] in st.procs ==> Section(st.procs[st.shared.locks[ev.s]]) != Some(ev.s)
  }

  /** Every critical section of the run ended within the lease of its lock. */
  predicate LeasesHold(caps: Caps, events: seq<Event>) {
    events != [] ==>
      LeasesHold(caps, events[..|events| - 1]) && LeaseHolds(Run(caps, events[..|events| - 1]), events[|events| - 1])
  }

  // ---------- The invariant ----------

  /** A process inside a critical section owns its lock. */
  predicate Exclusive(st: State) {
    forall pid | pid in st.procs && Section(st.procs[pid]).Some? ::
      var s := Section(st.procs[pid]).value;
      s in st.shared.locks && st.shared.locks[s] == pid
  }

  /** What a writer has read is still there, unless the key lapsed, and what it will write fits the cap. */
  predicate WritersOk(caps: Caps, st: State) {
    forall pid | pid in st.procs && Writing(st.procs[pid]) :: WriterOk(caps, st.shared.aggregates, st.procs[pid])
  }

  predicate WriterOk(caps: Caps, aggregates: map<string, nat>, pc: Pc)
    requires Writing(pc)
  {
    var s := Section(pc).value;
    && (s in aggregates ==> SeenBy(pc) == Some(aggregates[s]))
    && OrZero(SeenBy(pc)) <= caps(s)
    && (pc.TakeWrite? ==> OrZero(pc.read) + pc.q.amount <= caps(s))
  }

  predicate Bounded(caps: Caps, st: State) {
    forall s | s in st.shared.aggregates :: st.shared.aggregates[s] <= caps(s)
  }

  ghost predicate Refines(caps: Caps, st: State) {
    && VerdictsOk(caps, st.log)
    && forall s :: Abs(st, s) == Get(Replay(caps, st.log), s)
  }

  ghost predicate Inv(caps: Caps, st: State) {
    Exclusive(st) && WritersOk(caps, st) && Bounded(caps, st) && Refines(caps, st)
  }

  // ---------- Kinds of step ----------

  /** Nothing a session's counter depends on changes, and the process neither writes nor enters a section. */
  lemma QuietStep(caps: Caps, st: State, st': State, pid: Pid)
    requires Inv(caps, st)
    requires st'.shared.aggregates == st.shared.aggregates && st'.shared.locks == st.shared.locks && st'.log == st.log
    requires pid in st'.procs && st'.procs == st.procs[pid := st'.procs[pid]]
    requires pid in st.procs ==> !Writing(st.procs[pid])
    requires !Writing(st'.procs[pid])
    requires Section(st'.procs[pid]).Some? ==> pid in st.procs && Section(st'.procs[pid]) == Section(st.procs[pid])
    ensures Inv(caps, st')
  {
    forall s ensures Abs(st', s) == Abs(st, s) {
      assert Writer(st', s) == Writer(st, s);
    }
  }

  lemma SameAbs(caps: Caps, st: State, st': State)
    requires Refines(caps, st) && st'.log == st.log
    requires forall s :: Abs(st', s) == Abs(st, s)
    ensures Refines(caps, st')
  {
  }

  /** SET NX on an absent key. */
  lemma LockTaken(caps: Caps, st: State, pid: Pid, s: string, pc: Pc)
    requires Inv(caps, st) && s !in st.shared.locks && pid in st.procs && Section(st.procs[pid]).None?
    requires !Writing(pc) && (Section(pc).None? || Section(pc) == Some(s))
    ensures Inv(caps, Goto(SetLock(st, s, pid), pid, pc))
  {
    var st' := Goto(SetLock(st, s, pid), pid, pc);
    forall t ensures Abs(st', t) == Abs(st, t) {
      assert Writer(st', t) == Writer(st, t);
    }
    SameAbs(caps, st, st');
  }

  /** DEL of the lock by the process whose section ends. */
  lemma LockDropped(caps: Caps, st: State, pid: Pid, s: string, pc: Pc)
    requires Inv(caps, st) && pid in st.procs && Section(st.procs[pid]) == Some(s) && !Writing(st.procs[pid])
    requires Section(pc).None?
    ensures Inv(caps, Goto(DropLock(st, s), pid, pc))
  {
    var st' := Goto(DropLock(st, s), pid, pc);
    assert !Writing(pc);
    forall t ensures Abs(st', t) == Abs(st, t) {
      assert Writer(st', t) == Writer(st, t);
    }
    SameAbs(caps, st, st');
  }

  /** A reader that will write: what it read becomes the counter's value, which it already was. */
  lemma ReadTaken(caps: Caps, st: State, pid: Pid, s: string, pc: Pc)
    requires Inv(caps, st) && pid in st.procs && Section(st.procs[pid]) == Some(s) && !Writing(st.procs[pid])
    requires Writing(pc) && Section(pc) == Some(s) && SeenBy(pc) == Get(st.shared.aggregates, s)
    requires WriterOk(caps, st.shared.aggregates, pc)
    ensures Inv(caps, Goto(st, pid, pc))
  {
    var st' := Goto(st, pid, pc);
    forall t ensures Abs(st', t) == Abs(st, t) {
      if t == s {
        assert Writer(st, s) == None && Writer(st', s) == Some(pc);
      } else {
        assert Writer(st', t) == Writer(st, t);
      }
    }
    SameAbs(caps, st, st');
  }

  lemma AppendOp(caps: Caps, log: seq<CounterOp>, op: CounterOp)
    requires VerdictsOk(caps, log)
    requires op.Add? ==> (op.granted <==> OrZero(Get(Replay(caps, log), op.s)) + op.amount <= caps(op.s))
    ensures Replay(caps, log + [op]) == ApplyOp(caps, Replay(caps, log), op)
    ensures VerdictsOk(caps, log + [op])
  {
    var longer := log + [op];
    assert longer[..|log|] == log;
    forall i | 0 <= i < |longer| && longer[i].Add?
      ensures longer[i].granted <==> OrZero(Get(Replay(caps, longer[..i]), longer[i].s)) + longer[i].amount <= caps(longer[i].s)
    {
      if i < |log| {
        assert longer[..i] == log[..i];
      }
    }
  }

  /** A verdict that changes nothing: a denied reservation, or a release of a forgotten aggregate. */
  lemma VerdictLogged(caps: Caps, st: State, pid: Pid, s: string, pc: Pc, op: CounterOp)
    requires Inv(caps, st) && pid in st.procs && Section(st.procs[pid]) == Some(s) && !Writing(st.procs[pid])
    requires !Writing(pc) && Section(pc) == Some(s)
    requires op.s == s && !op.Lapse?
    requires op.Add? ==> !op.granted && OrZero(Get(st.shared.aggregates, s)) + op.amount > caps(s)
    requires op.Sub? ==> s !in st.shared.aggregates
    ensures Inv(caps, Goto(st, pid, pc).(log := st.log + [op]))
  {
    var st' := Goto(st, pid, pc).(log := st.log + [op]);
    assert Writer(st, s) == None;
    assert Abs(st, s) == Get(Replay(caps, st.log), s);
    AppendOp(caps, st.log, op);
    forall t ensures Abs(st', t) == Get(Replay(caps, st'.log), t) {
      assert Writer(st', t) == Writer(st, t);
      assert Abs(st, t) == Get(Replay(caps, st.log), t);
    }
  }

  /** The write of a section: its operation takes effect on the counter at this command. */
  lemma WriteLogged(caps: Caps, st: State, st': State, pid: Pid, s: string, op: CounterOp)
    requires Inv(caps, st) && pid in st.procs && Writing(st.procs[pid]) && Section(st.procs[pid]) == Some(s)
    requires op.s == s && !op.Lapse? && (op.Add? ==> op.granted && OrZero(SeenBy(st.procs[pid])) + op.amount <= caps(s))
    requires op.Sub? ==> SeenBy(st.procs[pid]).Some?
    requires var seen := OrZero(SeenBy(st.procs[pid]));
             st'.shared.aggregates == st.shared.aggregates[s := if op.Add? then seen + op.amount else Minus(seen, op.amount)]
    requires st'.shared.locks == st.shared.locks && st'.log == st.log + [op]
    requires pid in st'.procs && st'.procs == st.procs[pid := st'.procs[pid]]
    requires !Writing(st'.procs[pid]) && Section(st'.procs[pid]) == Some(s)
    ensures Inv(caps, st')
  {
    var seen := OrZero(SeenBy(st.procs[pid]));
    WriteShape(st, st', pid, s);
    assert Writer(st, s) == Some(st.procs[pid]);
    assert Abs(st, s) == Get(Replay(caps, st.log), s);
    assert WriterOk(caps, st.shared.aggregates, st.procs[pid]);
    WriteKeepsOthers(caps, st, st', pid, s);
    WriteRefines(caps, st, st', s, op);
  }

  /** The counter takes the operation from the value the writer had read. */
  lemma WriteRefines(caps: Caps, st: State, st': State, s: string, op: CounterOp)
    requires Refines(caps, st) && st'.log == st.log + [op] && op.s == s && !op.Lapse?
    requires op.Add? ==> op.granted && OrZero(Abs(st, s)) + op.amount <= caps(s)
    requires op.Sub? ==> Abs(st, s).Some?
    requires forall t | t != s :: Abs(st', t) == Abs(st, t)
    requires Abs(st', s) == Some(if op.Add? then OrZero(Abs(st, s)) + op.amount else Minus(Abs(st, s).value, op.amount))
    ensures Refines(caps, st')
  {
    assert Abs(st, s) == Get(Replay(caps, st.log), s);
    AppendOp(caps, st.log, op);
    forall t ensures Abs(st', t) == Get(Replay(caps, st'.log), t) {
      assert Abs(st, t) == Get(Replay(caps, st.log), t);
    }
  }

  /** A bounded write to the own session disturbs no other writer. */
  lemma WriteKeepsOthers(caps: Caps, st: State, st': State, pid: Pid, s: string)
    requires Exclusive(st) && WritersOk(caps, st) && Bounded(caps, st)
    requires pid in st.procs && Section(st.procs[pid]) == Some(s)
    requires s in st'.shared.aggregates && st'.shared.aggregates[s] <= caps(s)
    requires st'.shared.aggregates == st.shared.aggregates[s := st'.shared.aggregates[s]]
    requires pid in st'.procs && st'.procs == st.procs[pid := st'.procs[pid]] && !Writing(st'.procs[pid])
    ensures WritersOk(caps, st') && Bounded(caps, st')
  {
    forall p | p in st'.procs && Writing(st'.procs[p]) ensures WriterOk(caps, st'.shared.aggregates, st'.procs[p]) {
      assert p != pid && WriterOk(caps, st.shared.aggregates, st.procs[p]);
      assert Section(st.procs[p]) != Some(s);
    }
  }

  lemma WriteShape(st: State, st': State, pid: Pid, s: string)
    requires Exclusive(st) && pid in st.procs && Section(st.procs[pid]) == Some(s)
    requires st'.shared.locks == st.shared.locks && st'.shared.aggregates == st.shared.aggregates[s := OrZero(Get(st'.shared.aggregates, s))]
    requires pid in st'.procs && st'.procs == st.procs[pid := st'.procs[pid]]
    requires !Writing(st'.procs[pid]) && Section(st'.procs[pid]) == Some(s)
    ensures Exclusive(st')
    ensures forall t :: Abs(st', t) == if t == s then Get(st'.shared.aggregates, s) else Abs(st, t)
  {
    forall t ensures Abs(st', t) == if t == s then Get(st'.shared.aggregates, s) else Abs(st, t) {
      if t == s {
        assert Writer(st', s) == None;
      } else {
        assert Writer(st', t) == Writer(st, t);
      }
    }
  }

  lemma AbandonKeepsShape(caps: Caps, st: State, pid: Pid, s: string, pc: Pc)
    requires Inv(caps, st) && pid in st.procs && Writing(st.procs[pid]) && Section(st.procs[pid]) == Some(s)
    requires !Writing(pc) && (Section(pc).None? || Section(pc) == Some(s))
    ensures var st' := Abandon(st, pid, s, pc);
            && Exclusive(st') && WritersOk(caps, st') && Bounded(caps, st')
            && forall t :: Abs(st', t) == if t == s then Get(st.shared.aggregates, s) else Abs(st, t)
  {
    var st' := Abandon(st, pid, s, pc);
    forall t ensures Abs(st', t) == if t == s then Get(st.shared.aggregates, s) else Abs(st, t) {
      if t == s {
        assert Writer(st', s) == None;
      } else {
        assert Writer(st', t) == Writer(st, t);
      }
    }
  }

  /** A writer that fails or crashes before writing. */
  lemma WriteAbandoned(caps: Caps, st: State, pid: Pid, s: string, pc: Pc)
    requires Inv(caps, st) && pid in st.procs && Writing(st.procs[pid]) && Section(st.procs[pid]) == Some(s)
    requires !Writing(pc) && (Section(pc).None? || Section(pc) == Some(s))
    ensures Inv(caps, Abandon(st, pid, s, pc))
  {
    var st' := Abandon(st, pid, s, pc);
    AbandonKeepsShape(caps, st, pid, s, pc);
    assert Writer(st, s) == Some(st.procs[pid]);
    if GivenUp(st, s) == [] {
      assert Abs(st, s) == Get(st.shared.aggregates, s);
      SameAbs(caps, st, st');
    } else {
      AppendOp(caps, st.log, Lapse(s));
      forall t ensures Abs(st', t) == Get(Replay(caps, st'.log), t) {
        assert Abs(st, t) == Get(Replay(caps, st.log), t);
      }
    }
  }

  /** A lapse is visible at once, or when the writer that has read the key gives up. */
  lemma AggregateLapsed(caps: Caps, st: State, s: string)
    requires Inv(caps, st)
    ensures Inv(caps, Apply(caps, st, LapseAggregate(s)))
  {
    var st' := Apply(caps, st, LapseAggregate(s));
    if Writer(st, s).None? {
      AppendOp(caps, st.log, Lapse(s));
    }
    forall t ensures Abs(st', t) == Get(Replay(caps, st'.log), t) {
      assert Writer(st', t) == Writer(st, t);
      assert Abs(st, t) == Get(Replay(caps, st.log), t);
    }
  }

  lemma LockLapsed(caps: Caps, st: State, s: string)
    requires Inv(caps, st) && LeaseHolds(st, LapseLock(s))
    ensures Inv(caps, Apply(caps, st, LapseLock(s)))
  {
    var st' := Apply(caps, st, LapseLock(s));
    forall t ensures Abs(st', t) == Abs(st, t) {
      assert Writer(st', t) == Writer(st, t);
    }
    SameAbs(caps, st, st');
  }

  // ---------- Every run ----------

  lemma GiveStepKeepsInv(caps: Caps, st: State, pid: Pid, fault: Fault)
    requires Inv(caps, st) && pid in st.procs && (st.procs[pid].GiveRead? || st.procs[pid].GiveWrite?)
    ensures Inv(caps, StepProc(caps, st, pid, fault, []))
  {
    var pc := st.procs[pid];
    if pc.GiveRead? {
      if fault != Works {
        QuietStep(caps, st, GiveReadStep(st, pid, pc, fault), pid);
      } else if pc.s !in st.shared.aggregates {
        VerdictLogged(caps, st, pid, pc.s, GiveUnlock(pc.s, false, pc.k), Sub(pid, ReservationOf(pc.k), pc.s, pc.amount));
      } else {
        ReadTaken(caps, st, pid, pc.s, GiveWrite(pc.s, pc.amount, st.shared.aggregates[pc.s], pc.k));
      }
    } else if fault == FailsBefore {
      WriteAbandoned(caps, st, pid, pc.s, GiveUnlock(pc.s, true, pc.k));
    } else {
      WriteLogged(caps, st, GiveWriteStep(st, pid, pc, fault), pid, pc.s, Sub(pid, ReservationOf(pc.k), pc.s, pc.amount));
    }
  }

  lemma TakeStepKeepsInv(caps: Caps, st: State, pid: Pid, fault: Fault)
    requires Inv(caps, st) && pid in st.procs && (st.procs[pid].TakeRead? || st.procs[pid].TakeWrite?)
    ensures Inv(caps, StepProc(caps, st, pid, fault, []))
  {
    var pc := st.procs[pid];
    var q := pc.q;
    if pc.TakeRead? {
      var seen := Get(st.shared.aggregates, q.session);
      if fault != Works {
        QuietStep(caps, st, TakeReadStep(caps, st, pid, pc, fault), pid);
      } else if OrZero(seen) + q.amount > caps(q.session) {
        VerdictLogged(caps, st, pid, q.session, TakeUnlock(q), Add(pid, q.newId, q.session, q.amount, false));
      } else {
        ReadTaken(caps, st, pid, q.session, TakeWrite(q, seen));
      }
    } else if fault == FailsBefore {
      WriteAbandoned(caps, st, pid, q.session, TakeUnlock(q));
    } else {
      assert WriterOk(caps, st.shared.aggregates, pc);
      WriteLogged(caps, st, TakeWriteStep(st, pid, pc, fault), pid, q.session, Add(pid, q.newId, q.session, q.amount, true));
    }
  }

  lemma LockStepKeepsInv(caps: Caps, st: State, pid: Pid, s: string, inside: Pc, fault: Fault)
    requires Inv(caps, st) && pid in st.procs && Section(st.procs[pid]).None? && !Writing(inside) && Section(inside) == Some(s)
    ensures Inv(caps, LockStep(st, pid, s, inside, fault))
  {
    if fault == FailsBefore || s in st.shared.locks {
      QuietStep(caps, st, Goto(st, pid, Stopped), pid);
    } else {
      LockTaken(caps, st, pid, s, if fault == Works then inside else Stopped);
    }
  }

  lemma UnlockStepKeepsInv(caps: Caps, st: State, pid: Pid, s: string, next: Pc, fault: Fault)
    requires Inv(caps, st) && pid in st.procs && Section(st.procs[pid]) == Some(s) && !Writing(st.procs[pid]) && Section(next).None?
    ensures Inv(caps, UnlockStep(st, pid, s, next, fault))
  {
    if fault == FailsBefore {
      QuietStep(caps, st, Goto(st, pid, next), pid);
    } else {
      LockDropped(caps, st, pid, s, next);
    }
  }

  /** Touches no aggregate, lock or log entry, and stays outside the sections. */
  predicate Quiet(st: State, pid: Pid, st': State) {
    && st'.shared.aggregates == st.shared.aggregates && st'.shared.locks == st.shared.locks && st'.log == st.log
    && pid in st'.procs && st'.procs == st.procs[pid := st'.procs[pid]]
    && Section(st'.procs[pid]).None? && !Writing(st'.procs[pid])
  }

  lemma BookkeepIsQuiet(st: State, pid: Pid, sh: Shared, next: Pc, fault: Fault)
    requires sh.aggregates == st.shared.aggregates && sh.locks == st.shared.locks && Section(next).None? && !Writing(next)
    ensures Quiet(st, pid, Bookkeep(st, pid, sh, next, fault))
  {
  }

  lemma PlainStepIsQuiet(st: State, pid: Pid, fault: Fault, due: seq<Member>)
    requires pid in st.procs && Section(st.procs[pid]).None?
    ensures Quiet(st, pid, PlainStep(st, pid, st.procs[pid], fault, due))
  {
    hide Without, InIndex, Bookkeep;
    var sh := st.shared;
    match st.procs[pid]
    case Scan(q) => BookkeepIsQuiet(st, pid, sh, if forall m | m in due :: m in sh.index then NextDue(due, q) else NextDue([], q), fault);
    case SweepIndex(m, rest, q) => BookkeepIsQuiet(st, pid, sh.(index := Without(sh.index, m.reservationId)), NextDue(rest, q), fault);
    case ReleaseMeta(id) =>
      BookkeepIsQuiet(st, pid, sh, if id !in sh.metadata then Stopped else GiveLock(sh.metadata[id].0, sh.metadata[id].1, InRelease(id)), fault);
    case DropExec(id, found) =>
      BookkeepIsQuiet(st, pid, sh.(metadata := sh.metadata - {id}, index := if found then Without(sh.index, id) else sh.index), Stopped, fault);
    case _ =>
  }

  lemma PlainStepKeepsInv(caps: Caps, st: State, pid: Pid, fault: Fault, due: seq<Member>)
    requires Inv(caps, st) && pid in st.procs && Section(st.procs[pid]).None?
    ensures Inv(caps, PlainStep(st, pid, st.procs[pid], fault, due))
  {
    hide Inv, PlainStep;
    PlainStepIsQuiet(st, pid, fault, due);
    QuietStep(caps, st, PlainStep(st, pid, st.procs[pid], fault, due), pid);
  }

  lemma StepProcKeepsInv(caps: Caps, st: State, pid: Pid, fault: Fault, due: seq<Member>)
    requires Inv(caps, st) && pid in st.procs
    ensures Inv(caps, StepProc(caps, st, pid, fault, due))
  {
    hide Inv;
    match st.procs[pid]
    case GiveLock(s, amount, k) => LockStepKeepsInv(caps, st, pid, s, GiveRead(s, amount, k), fault);
    case GiveRead(_, _, _) => GiveStepKeepsInv(caps, st, pid, fault);
    case GiveWrite(_, _, _, _) => GiveStepKeepsInv(caps, st, pid, fault);
    case GiveUnlock(s, failed, k) => UnlockStepKeepsInv(caps, st, pid, s, if failed then Stopped else Resume(k), fault);
    case TakeLock(q) => LockStepKeepsInv(caps, st, pid, q.session, TakeRead(q), fault);
    case TakeRead(_) => TakeStepKeepsInv(caps, st, pid, fault);
    case TakeWrite(_, _) => TakeStepKeepsInv(caps, st, pid, fault);
    case TakeUnlock(q) => UnlockStepKeepsInv(caps, st, pid, q.session, Stopped, fault);
    case _ => PlainStepKeepsInv(caps, st, pid, fault, due);
  }

  lemma ApplyKeepsInv(caps: Caps, st: State, ev: Event)
    requires Inv(caps, st) && LeaseHolds(st, ev)
    ensures Inv(caps, Apply(caps, st, ev))
  {
    var st' := Apply(caps, st, ev);
    match ev
    case BeginReserve(pid, q) => if st' != st { QuietStep(caps, st, st', pid); }
    case BeginRelease(pid, id) => if st' != st { QuietStep(caps, st, st', pid); }
    case BeginCommit(pid, id) => if st' != st { QuietStep(caps, st, st', pid); }
    case Step(pid, fault, due) => if pid in st.procs { StepProcKeepsInv(caps, st, pid, fault, due); }
    case Crash(pid) =>
      if pid in st.procs {
        if Writing(st.procs[pid]) {
          WriteAbandoned(caps, st, pid, Section(st.procs[pid]).value, Stopped);
        } else {
          QuietStep(caps, st, st', pid);
        }
      }
    case LapseAggregate(s) => AggregateLapsed(caps, st, s);
    case LapseClaim(key) => KeysLapsed(caps, st, st');
    case LapseMeta(id) => KeysLapsed(caps, st, st');
    case LapseLock(s) => LockLapsed(caps, st, s);
  }

  lemma KeysLapsed(caps: Caps, st: State, st': State)
    requires Inv(caps, st) && st'.procs == st.procs && st'.log == st.log
    requires st'.shared.aggregates == st.shared.aggregates && st'.shared.locks == st.shared.locks
    ensures Inv(caps, st')
  {
    forall t ensures Abs(st', t) == Abs(st, t) {
      assert Writer(st', t) == Writer(st, t);
    }
  }

  lemma {:induction false} RunKeepsInv(caps: Caps, events: seq<Event>)
    requires LeasesHold(caps, events)
    ensures Inv(caps, Run(caps, events))
  {
    if events != [] {
      RunKeepsInv(caps, events[..|events| - 1]);
      ApplyKeepsInv(caps, Run(caps, events[..|events| - 1]), events[|events| - 1]);
    } else {
      assert forall s :: Abs(Run(caps, []), s) == Get(Replay(caps, []), s);
    }
  }

  /** In every interleaving in which the leases hold, no two processes are in the critical section of one session. */
  lemma SectionsExclude(caps: Caps, events: seq<Event>, p: Pid, r: Pid)
    requires LeasesHold(caps, events)
    requires var procs := Run(caps, events).procs;
             p in procs && r in procs && Section(procs[p]).Some? && Section(procs[p]) == Section(procs[r])
    ensures p == r
  {
    RunKeepsInv(caps, events);
  }

  /** Linearisation: while the leases hold, the logged operations, applied in order to an atomic counter, give every verdict the
      processes acted on and, whenever nobody is between its read and its write, the very aggregate in Redis: no update is lost. */
  lemma RunRefinesCounter(caps: Caps, events: seq<Event>, s: string)
    requires LeasesHold(caps, events)
    ensures var st := Run(caps, events);
            && VerdictsOk(caps, st.log)
            && Abs(st, s) == Get(Replay(caps, st.log), s)
            && (Writer(st, s).None? ==> Get(st.shared.aggregates, s) == Get(Replay(caps, st.log), s))
  {
    RunKeepsInv(caps, events);
  }

  // ---------- Every run, whether or not the leases hold ----------

  /** What a process will write fits the cap. */
  predicate WillFit(caps: Caps, pc: Pc) {
    && (pc.GiveWrite? ==> pc.seen <= caps(pc.s))
    && (pc.TakeWrite? ==> OrZero(pc.read) + pc.q.amount <= caps(pc.q.session))
  }

  predicate AllFit(caps: Caps, st: State) {
    Bounded(caps, st) && forall pid | pid in st.procs :: WillFit(caps, st.procs[pid])
  }

  lemma StepKeepsFit(caps: Caps, st: State, pid: Pid, fault: Fault, due: seq<Member>)
    requires AllFit(caps, st) && pid in st.procs
    ensures AllFit(caps, StepProc(caps, st, pid, fault, due))
  {
    assert WillFit(caps, st.procs[pid]);
    match st.procs[pid]
    case GiveLock(_, _, _) =>
    case GiveRead(_, _, _) =>
    case GiveWrite(_, _, _, _) =>
    case GiveUnlock(_, _, _) =>
    case TakeLock(_) =>
    case TakeRead(_) =>
    case TakeWrite(_, _) =>
    case TakeUnlock(_) =>
    case _ =>
      PlainStepIsQuiet(st, pid, fault, due);
      hide PlainStep;
  }

  lemma ApplyKeepsFit(caps: Caps, st: State, ev: Event)
    requires AllFit(caps, st)
    ensures AllFit(caps, Apply(caps, st, ev))
  {
    hide StepProc;
    if ev.Step? && ev.pid in st.procs {
      StepKeepsFit(caps, st, ev.pid, ev.fault, ev.due);
    }
  }

  lemma {:induction false} RunKeepsFit(caps: Caps, events: seq<Event>)
    ensures AllFit(caps, Run(caps, events))
  {
    hide Apply;
    if events != [] {
      RunKeepsFit(caps, events[..|events| - 1]);
      ApplyKeepsFit(caps, Run(caps, events[..|events| - 1]), events[|events| - 1]);
    }
  }

  /** In every interleaving, with failures, crashes and lapses anywhere, of locks in use too, no aggregate exceeds its session's
      cap. */
  lemma AggregateNeverExceedsCap(caps: Caps, events: seq<Event>, s: string)
    requires s in Run(caps, events).shared.aggregates
    ensures Run(caps, events).shared.aggregates[s] <= caps(s)
  {
    RunKeepsFit(caps, events);
  }
}
