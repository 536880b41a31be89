/** Processes, CPUs and locks as proc.c and the code that sleeps under spin locks
    share them: what every thread is about to do, which stack every CPU runs on,
    who holds which lock. */
module ProcState {
  import opened Monitors

  datatype Option<T> = None | Some(value: T)

  datatype PState = UNUSED | EMBRYO | SLEEPING | RUNNABLE | RUNNING | ZOMBIE

  /** What a process sleeps on: itself, in wait, or channel c of monitor l. */
  datatype Chan = NoChan | Self(p: nat) | Cond(l: nat, c: nat)

  /** Where the kernel thread of a process may be while it holds no lock: a timer
      interrupt may strike there. Run is all code that wants nothing yet. */
  datatype Spot =
    | Run | ExitWant | WaitWant | ForkWant | KillWant(pid: nat)
    | ForkStack(i: nat) | ForkCopy(i: nat) | ForkReadyWant(i: nat)
    | MonWant(l: nat)

  /** Where the thread is; the comment says which of ptable.lock (pt) and the
      monitor's spin lock (lk) it holds there. */
  datatype Pc =
    | Unborn
    | At(spot: Spot)                                            // -
    | Entry | ForkRet                                           // -, pt
    | YieldWant(spot: Spot) | YieldHeld(spot: Spot) | YieldSet(spot: Spot)  // -, pt, pt
    | YieldParked(spot: Spot) | YieldBack(spot: Spot)           // -, pt
    | ExitHeld | ExitSet | Dead                                 // pt, pt, -
    | WaitHeld | WaitDone                                       // pt, pt
    | WaitNone | WaitSet | WaitParked | WaitBack                // pt, pt, -, pt
    | MonHeld(l: nat)                                           // lk
    | MonSleep(l: nat, c: nat) | MonBoth(l: nat, c: nat)        // lk, pt+lk
    | MonGo(l: nat, c: nat) | MonSet(l: nat, c: nat)            // pt, pt
    | MonParked(l: nat, c: nat) | MonBack(l: nat) | MonTidy(l: nat)  // -, pt, pt
    | MonWake(l: nat, c: nat) | MonWakeBoth(l: nat, c: nat)     // lk, pt+lk
    | MonWoken(l: nat)                                          // pt+lk
    | ForkHeld | ForkNone | ForkGot(i: nat)                     // pt, pt, pt
    | ForkReady(i: nat) | ForkDone                              // pt, pt
    | KillHeld(pid: nat) | KillDone                             // pt, pt

  predicate HoldsPt(pc: Pc) {
    pc.ForkRet? || pc.YieldHeld? || pc.YieldSet? || pc.YieldBack? || pc.ExitHeld? || pc.ExitSet?
    || pc.WaitHeld? || pc.WaitDone? || pc.WaitNone? || pc.WaitSet? || pc.WaitBack?
    || pc.MonBoth? || pc.MonGo? || pc.MonSet? || pc.MonBack? || pc.MonTidy? || pc.MonWakeBoth? || pc.MonWoken?
    || pc.ForkHeld? || pc.ForkNone? || pc.ForkGot? || pc.ForkReady? || pc.ForkDone? || pc.KillHeld? || pc.KillDone?
  }

  /** The monitor whose spin lock the thread holds. */
  function LkOf(pc: Pc): Option<nat> {
    if pc.MonHeld? || pc.MonSleep? || pc.MonBoth? || pc.MonWake? || pc.MonWakeBoth? || pc.MonWoken? then Some(pc.l)
    else None
  }

  predicate HoldsLk(pc: Pc, l: nat) {
    LkOf(pc) == Some(l)
  }

  /** The thread has found the condition of channel c of l and is about to sleep. */
  predicate DozesOn(pc: Pc, l: nat, c: nat) {
    (pc.MonSleep? || pc.MonBoth? || pc.MonGo?) && pc.l == l && pc.c == c
  }

  predicate Dozes(pc: Pc) {
    pc.MonSleep? || pc.MonBoth? || pc.MonGo?
  }

  /** Where the thread is, or will be when its time slice comes. */
  function SpotOf(pc: Pc): Option<Spot> {
    if pc.At? || pc.YieldWant? || pc.YieldHeld? || pc.YieldSet? || pc.YieldParked? || pc.YieldBack? then Some(pc.spot)
    else None
  }

  /** The monitor the thread is concerned with at all. */
  function LockOf(pc: Pc): Option<nat> {
    if LkOf(pc).Some? then LkOf(pc)
    else if pc.MonGo? || pc.MonSet? || pc.MonParked? || pc.MonBack? || pc.MonTidy? then Some(pc.l)
    else if SpotOf(pc).Some? && SpotOf(pc).value.MonWant? then Some(SpotOf(pc).value.l)
    else None
  }

  predicate Exiting(pc: Pc) {
    pc.ExitHeld? || SpotOf(pc) == Some(ExitWant)
  }

  /** Off the CPU, with a context to come back to. */
  predicate Parked(pc: Pc) {
    pc.Entry? || pc.YieldParked? || pc.WaitParked? || pc.MonParked? || pc.Dead?
  }

  /** On a CPU, its state already changed, about to switch to the scheduler. */
  predicate Parking(pc: Pc) {
    pc.YieldSet? || pc.ExitSet? || pc.WaitSet? || pc.MonSet?
  }

  predicate OnCpu(pc: Pc) {
    !pc.Unborn? && !Parked(pc)
  }

  /** The table entry a fork in progress is filling in, and how far it has come. */
  function Making(pc: Pc): Option<nat> {
    if pc.ForkGot? || pc.ForkReady? then Some(pc.i)
    else if SpotOf(pc).None? then None
    else match SpotOf(pc).value
      case ForkStack(i) => Some(i)
      case ForkCopy(i) => Some(i)
      case ForkReadyWant(i) => Some(i)
      case _ => None
  }

  function Stage(pc: Pc): nat {
    if pc.ForkReady? then 2
    else if SpotOf(pc).None? then 0
    else if SpotOf(pc).value.ForkCopy? then 1 else if SpotOf(pc).value.ForkReadyWant? then 2 else 0
  }

  datatype Proc = Proc(
    state: PState, chan: Chan, parent: Option<nat>, kstack: bool, killed: bool, pid: nat,
    pc: Pc,
    on: Option<nat>,        // the CPU that runs on this process's kernel stack
    mine: set<nat>          // the sleep-locks it holds
  )

  /** proc is c->proc; stack is whose kernel stack the CPU runs on, None for
      the scheduler's own. */
  datatype Cpu = Cpu(proc: Option<nat>, stack: Option<nat>)

  /** A spin lock and what it protects. owed: the channels whose condition the
      holder has ended since it took the lock, and not yet woken. */
  datatype Monitor = Monitor(held: Option<nat>, val: Val, owed: set<nat>)

  datatype S = S(
    procs: seq<Proc>,
    cpus: seq<Cpu>,
    mons: seq<Monitor>,
    pt: Option<nat>,        // the CPU that holds ptable.lock
    init: nat,              // initproc
    nextpid: nat,
    reaped: set<nat>        // pids wait has returned
  )

  predicate IsProc(s: S, p: nat) {
    p < |s.procs|
  }

  predicate IsCpu(s: S, c: nat) {
    c < |s.cpus|
  }

  // ---- The invariant ----

  /** A CPU runs on the stack of the process that says so, and only there. */
  ghost predicate Stacks(s: S) {
    && (forall c: nat :: IsCpu(s, c) && s.cpus[c].stack.Some? ==>
          IsProc(s, s.cpus[c].stack.value) && s.procs[s.cpus[c].stack.value].on == Some(c))
    && (forall p: nat :: IsProc(s, p) && s.procs[p].on.Some? ==>
          IsCpu(s, s.procs[p].on.value) && s.cpus[s.procs[p].on.value].stack == Some(p))
    && (forall p: nat :: IsProc(s, p) ==> (s.procs[p].on.Some? <==> OnCpu(s.procs[p].pc)))
    && (forall p: nat :: IsProc(s, p) && !s.procs[p].pc.Unborn? ==> s.procs[p].kstack)
  }

  /** c->proc is right except between a switch and the holder's next step. */
  ghost predicate Current(s: S) {
    forall c: nat :: IsCpu(s, c) ==>
      && (s.cpus[c].stack.Some? ==> s.cpus[c].proc == s.cpus[c].stack)
      && (s.pt != Some(c) && s.cpus[c].stack == None ==> s.cpus[c].proc == None)
  }

  /** The lock is with the CPU whose thread says it holds it. */
  ghost predicate Locked(s: S) {
    && (s.pt.Some? ==> IsCpu(s, s.pt.value))
    && (forall p: nat :: IsProc(s, p) && s.procs[p].on.Some? ==>
          (HoldsPt(s.procs[p].pc) <==> s.pt == s.procs[p].on))
    && (forall l: nat, p: nat :: l < |s.mons| && IsProc(s, p) ==>
          (s.mons[l].held == Some(p) <==> HoldsLk(s.procs[p].pc, l)))
  }

  /** The state a process may be in, by where its thread is. */
  predicate StateFits(r: Proc, p: nat) {
    match r.pc
    case Unborn => r.state == UNUSED || r.state == EMBRYO
    case Entry => r.state == RUNNABLE
    case YieldSet(_) => r.state == RUNNABLE
    case YieldParked(_) => r.state == RUNNABLE
    case ExitSet => r.state == ZOMBIE
    case Dead => r.state == ZOMBIE
    case WaitSet => r.state == SLEEPING && r.chan == Self(p)
    case WaitParked => (r.state == SLEEPING && r.chan == Self(p)) || r.state == RUNNABLE
    case MonSet(l, c) => r.state == SLEEPING && r.chan == Cond(l, c)
    case MonParked(l, c) => (r.state == SLEEPING && r.chan == Cond(l, c)) || r.state == RUNNABLE
    case _ => r.state == RUNNING
  }

  ghost predicate States(s: S) {
    forall p: nat :: IsProc(s, p) ==> StateFits(s.procs[p], p)
  }

  /** p's thread has found no exited child and will sleep, or sleeps, in wait. */
  predicate Waiting(r: Proc, p: nat) {
    r.pc.WaitNone? || (r.state == SLEEPING && r.chan == Self(p))
  }

  ghost predicate NoZombieChild(s: S, p: nat) {
    forall q: nat :: IsProc(s, q) && s.procs[q].parent == Some(p) ==> s.procs[q].state != ZOMBIE
  }

  /** Nobody waits for a child that has exited. */
  ghost predicate Waiters(s: S) {
    forall p: nat :: IsProc(s, p) && Waiting(s.procs[p], p) ==> NoZombieChild(s, p)
  }

  /** p's thread has found the condition of channel c of l and will sleep, or
      sleeps, on it. */
  predicate SleepsOn(r: Proc, l: nat, c: nat) {
    DozesOn(r.pc, l, c) || (r.state == SLEEPING && r.chan == Cond(l, c))
  }

  /** Monitor l is one of those in keep, whose users make the wakeups that are
      due, or a sleep-lock. */
  predicate Ruled(s: S, keep: set<nat>, l: nat) {
    l < |s.mons| && (l in keep || s.mons[l].val.LockVal?)
  }

  /** Who sleeps, or will, faces the condition, or a wakeup that is due. */
  ghost predicate Sleepers(s: S, keep: set<nat>) {
    forall l: nat, c: nat, p: nat {:trigger SleepsOn(s.procs[p], l, c)} ::
      Ruled(s, keep, l) && IsProc(s, p) && SleepsOn(s.procs[p], l, c) ==>
        c in Waits(s.mons[l].val) || c in s.mons[l].owed
  }

  /** Wakeups are due only while the lock is held by a thread that has not yet
      decided to sleep; with a sleep-lock, one that is at its wakeup. */
  predicate Pays(m: Monitor, pc: Pc, l: nat) {
    && (pc.MonHeld? || pc.MonWake? || pc.MonWakeBoth? || pc.MonWoken?)
    && (m.val.LockVal? ==> (pc == MonWake(l, LOCK) || pc == MonWakeBoth(l, LOCK)) && m.owed <= {LOCK})
  }

  ghost predicate Debts(s: S, keep: set<nat>) {
    forall l: nat :: Ruled(s, keep, l) && s.mons[l].owed != {} ==>
      && s.mons[l].held.Some? && IsProc(s, s.mons[l].held.value)
      && Pays(s.mons[l], s.procs[s.mons[l].held.value].pc, l)
  }

  predicate IsLocked(v: Val) {
    v.LockVal? && v.locked
  }

  /** A sleep-lock is locked when, and only when, one process holds it. */
  ghost predicate Holders(s: S) {
    && (forall l: nat, p: nat :: l < |s.mons| && IsProc(s, p) && l in s.procs[p].mine ==> IsLocked(s.mons[l].val))
    && (forall l: nat, p: nat, q: nat ::
          l < |s.mons| && IsProc(s, p) && IsProc(s, q) && l in s.procs[p].mine && l in s.procs[q].mine ==> p == q)
    && (forall p: nat :: IsProc(s, p) ==> PcHolds(s.procs[p]))
  }

  /** A thread that exits holds no sleep-lock. */
  predicate PcHolds(r: Proc) {
    Exiting(r.pc) || r.pc.ExitSet? || r.pc.Dead? || r.pc.Unborn? ==> r.mine == {}
  }

  ghost predicate LockNames(s: S) {
    && (forall p: nat, l: nat :: IsProc(s, p) && l in s.procs[p].mine ==> l < |s.mons|)
    && (forall p: nat :: IsProc(s, p) ==> PcNames(s.procs[p].pc, |s.mons|))
  }

  predicate PcNames(pc: Pc, n: nat) {
    LockOf(pc).Some? ==> LockOf(pc).value < n
  }

  /** An entry being filled in by a fork belongs to that fork alone. */
  ghost predicate Forks(s: S) {
    && (forall p: nat :: IsProc(s, p) && Making(s.procs[p].pc).Some? ==>
          var i := Making(s.procs[p].pc).value;
          IsProc(s, i) && s.procs[i].pc == Unborn && s.procs[i].state == EMBRYO)
    && (forall p: nat, q: nat {:trigger Making(s.procs[p].pc), Making(s.procs[q].pc)} ::
          IsProc(s, p) && IsProc(s, q) && Making(s.procs[p].pc).Some? && p != q ==>
          Making(s.procs[p].pc) != Making(s.procs[q].pc))
    && (forall p: nat :: IsProc(s, p) && Making(s.procs[p].pc).Some? ==>
          var i := Making(s.procs[p].pc).value;
          IsProc(s, i) && Made(s.procs[p].pc, s.procs[i], p))
  }

  /** What a fork has put into the new entry so far. */
  predicate Made(pc: Pc, r: Proc, p: nat) {
    && (r.parent == if Stage(pc) == 2 then Some(p) else None)
    && (Stage(pc) > 0 ==> r.kstack)
  }

  predicate Alive(r: Proc) {
    r.state != UNUSED && r.state != EMBRYO && r.state != ZOMBIE
  }

  /** initproc lives for ever, and every other process has a parent that can
      still wait for it. */
  ghost predicate Family(s: S) {
    && IsProc(s, s.init) && Alive(s.procs[s.init]) && !Exiting(s.procs[s.init].pc)
    && s.procs[s.init].parent == None
    && (forall p: nat :: IsProc(s, p) && s.procs[p].parent.Some? ==>
          && IsProc(s, s.procs[p].parent.value) && Alive(s.procs[s.procs[p].parent.value])
          && s.procs[p].parent != Some(p))
    && (forall p: nat :: IsProc(s, p) && p != s.init && s.procs[p].state != UNUSED && s.procs[p].state != EMBRYO ==>
          s.procs[p].parent.Some?)
    && (forall p: nat :: IsProc(s, p) && s.procs[p].state == UNUSED ==> s.procs[p].parent == None)
  }

  /** Process identifiers are used once. */
  ghost predicate Pids(s: S) {
    && (forall p: nat :: IsProc(s, p) && s.procs[p].state != UNUSED ==>
          0 < s.procs[p].pid < s.nextpid && s.procs[p].pid !in s.reaped)
    && (forall p: nat, q: nat {:trigger s.procs[p].pid, s.procs[q].pid} ::
          IsProc(s, p) && IsProc(s, q) && p != q && s.procs[p].state != UNUSED && s.procs[q].state != UNUSED ==>
            s.procs[p].pid != s.procs[q].pid)
    && (forall x :: x in s.reaped ==> x < s.nextpid)
  }

  /** What holds of stacks, locks and the table, whatever wakeups are lost. */
  ghost predicate Core(s: S) {
    && Stacks(s) && Current(s) && Locked(s) && States(s)
    && Waiters(s) && Holders(s) && LockNames(s)
    && Forks(s) && Family(s) && Pids(s) && 0 < s.nextpid
  }

  ghost predicate Inv(s: S, keep: set<nat>) {
    Core(s) && Sleepers(s, keep) && Debts(s, keep)
  }
}
