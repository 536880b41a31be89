/** The steps of the machine: one action of one CPU each. */
module ProcSteps {
  import opened Monitors
  import opened ProcState

  // ---- Control flow ----

  /** Threads waiting for ptable.lock, and where they are once they have it. */
  function AfterAcquire(pc: Pc): Option<Pc> {
    match pc
    case At(ExitWant) => Some(ExitHeld)
    case At(WaitWant) => Some(WaitHeld)
    case At(ForkWant) => Some(ForkHeld)
    case At(ForkReadyWant(i)) => Some(ForkReady(i))
    case At(KillWant(pid)) => Some(KillHeld(pid))
    case YieldWant(spot) => Some(YieldHeld(spot))
    case MonSleep(l, c) => Some(MonBoth(l, c))
    case MonWake(l, c) => Some(MonWakeBoth(l, c))
    case _ => None
  }

  /** Threads about to release ptable.lock. */
  function AfterRelease(pc: Pc): Option<Pc> {
    match pc
    case ForkRet => Some(At(Run))
    case YieldBack(spot) => Some(At(spot))
    case WaitDone => Some(At(Run))
    case MonTidy(l) => Some(At(MonWant(l)))
    case MonWoken(l) => Some(MonHeld(l))
    case ForkNone => Some(At(Run))
    case ForkGot(i) => Some(At(ForkStack(i)))
    case ForkDone => Some(At(Run))
    case KillDone => Some(At(Run))
    case _ => None
  }

  /** Threads about to switch to the scheduler, and where they will come back. */
  function AfterSwitch(pc: Pc): Option<Pc> {
    match pc
    case YieldSet(spot) => Some(YieldParked(spot))
    case ExitSet => Some(Dead)
    case WaitSet => Some(WaitParked)
    case MonSet(l, c) => Some(MonParked(l, c))
    case _ => None
  }

  /** Where a thread is when the scheduler has switched to it. */
  function Resumed(pc: Pc): Pc {
    match pc
    case Entry => ForkRet
    case YieldParked(spot) => YieldBack(spot)
    case WaitParked => WaitBack
    case MonParked(l, _) => MonBack(l)
    case _ => pc
  }

  /** Threads about to release a monitor's spin lock: on leaving it, or in sleep. */
  function AfterReleaseLk(pc: Pc): Option<Pc> {
    match pc
    case MonHeld(l) => Some(At(Run))
    case MonBoth(l, c) => Some(MonGo(l, c))
    case _ => None
  }

  // ---- Building blocks ----

  /** A process whose thread moves on. */
  function Go(r: Proc, pc: Pc): Proc {
    Proc(r.state, r.chan, r.parent, r.kstack, r.killed, r.pid, pc, r.on, r.mine)
  }

  function In(r: Proc, state: PState, chan: Chan, pc: Pc): Proc {
    Proc(state, chan, r.parent, r.kstack, r.killed, r.pid, pc, r.on, r.mine)
  }

  function WithMine(r: Proc, pc: Pc, mine: set<nat>): Proc {
    Proc(r.state, r.chan, r.parent, r.kstack, r.killed, r.pid, pc, r.on, mine)
  }

  function WithProc(s: S, p: nat, r: Proc): S
    requires IsProc(s, p)
  {
    S(s.procs[p := r], s.cpus, s.mons, s.pt, s.init, s.nextpid, s.reaped)
  }

  function WithPt(s: S, pt: Option<nat>): S {
    S(s.procs, s.cpus, s.mons, pt, s.init, s.nextpid, s.reaped)
  }

  function WithMon(s: S, l: nat, m: Monitor): S
    requires l < |s.mons|
  {
    S(s.procs, s.cpus, s.mons[l := m], s.pt, s.init, s.nextpid, s.reaped)
  }

  /** CPU c runs the thread of process p. */
  predicate Runs(s: S, c: nat, p: nat) {
    IsCpu(s, c) && IsProc(s, p) && s.cpus[c].stack == Some(p)
  }

  // ---- Locks ----

  predicate CanAcquirePt(s: S, c: nat, p: nat) {
    Runs(s, c, p) && s.pt == None && AfterAcquire(s.procs[p].pc).Some?
  }

  function AcquirePt(s: S, c: nat, p: nat): S
    requires CanAcquirePt(s, c, p)
  {
    WithPt(WithProc(s, p, Go(s.procs[p], AfterAcquire(s.procs[p].pc).value)), Some(c))
  }

  predicate CanReleasePt(s: S, c: nat, p: nat) {
    Runs(s, c, p) && AfterRelease(s.procs[p].pc).Some?
  }

  function ReleasePt(s: S, c: nat, p: nat): S
    requires CanReleasePt(s, c, p)
  {
    WithPt(WithProc(s, p, Go(s.procs[p], AfterRelease(s.procs[p].pc).value)), None)
  }

  predicate CanAcquireLk(s: S, c: nat, p: nat, l: nat) {
    Runs(s, c, p) && s.procs[p].pc == At(MonWant(l)) && l < |s.mons| && s.mons[l].held == None
  }

  function AcquireLk(s: S, c: nat, p: nat, l: nat): S
    requires CanAcquireLk(s, c, p, l)
  {
    WithMon(WithProc(s, p, Go(s.procs[p], MonHeld(l))), l, Monitor(Some(p), s.mons[l].val, {}))
  }

  predicate CanReleaseLk(s: S, c: nat, p: nat, l: nat) {
    Runs(s, c, p) && HoldsLk(s.procs[p].pc, l) && AfterReleaseLk(s.procs[p].pc).Some? && l < |s.mons|
  }

  /** A wakeup that is due and not made is lost. */
  function ReleaseLk(s: S, c: nat, p: nat, l: nat): S
    requires CanReleaseLk(s, c, p, l)
  {
    WithMon(WithProc(s, p, Go(s.procs[p], AfterReleaseLk(s.procs[p].pc).value)), l, Monitor(None, s.mons[l].val, {}))
  }

  // ---- swtch and the scheduler ----

  predicate CanSwitch(s: S, c: nat, p: nat) {
    Runs(s, c, p) && AfterSwitch(s.procs[p].pc).Some?
  }

  function Switch(s: S, c: nat, p: nat): S
    requires CanSwitch(s, c, p)
  {
    var r := s.procs[p];
    S(s.procs[p := Proc(r.state, r.chan, r.parent, r.kstack, r.killed, r.pid, AfterSwitch(r.pc).value, None, r.mine)],
      s.cpus[c := Cpu(s.cpus[c].proc, None)], s.mons, s.pt, s.init, s.nextpid, s.reaped)
  }

  predicate Scheduling(s: S, c: nat) {
    IsCpu(s, c) && s.cpus[c].stack == None
  }

  function SchedAcquire(s: S, c: nat): S
    requires Scheduling(s, c) && s.pt == None
  {
    WithPt(s, Some(c))
  }

  function SchedClear(s: S, c: nat): S
    requires Scheduling(s, c) && s.pt == Some(c)
  {
    S(s.procs, s.cpus[c := Cpu(None, None)], s.mons, s.pt, s.init, s.nextpid, s.reaped)
  }

  predicate CanPick(s: S, c: nat, q: nat) {
    Scheduling(s, c) && s.pt == Some(c) && s.cpus[c].proc == None && IsProc(s, q) && s.procs[q].state == RUNNABLE
  }

  function SchedPick(s: S, c: nat, q: nat): S
    requires CanPick(s, c, q)
  {
    var r := s.procs[q];
    S(s.procs[q := Proc(RUNNING, r.chan, r.parent, r.kstack, r.killed, r.pid, Resumed(r.pc), Some(c), r.mine)],
      s.cpus[c := Cpu(Some(q), Some(q))], s.mons, s.pt, s.init, s.nextpid, s.reaped)
  }

  function SchedRelease(s: S, c: nat): S
    requires Scheduling(s, c) && s.pt == Some(c) && s.cpus[c].proc == None
  {
    WithPt(s, None)
  }

  // ---- Changes to the table ----

  /** wakeup1 */
  function Wakeup1(procs: seq<Proc>, chan: Chan): (r: seq<Proc>)
    ensures |r| == |procs|
    ensures forall i :: 0 <= i < |procs| ==>
              r[i] == if procs[i].state == SLEEPING && procs[i].chan == chan then Woken(procs[i]) else procs[i]
  {
    seq(|procs|, i requires 0 <= i < |procs| =>
      if procs[i].state == SLEEPING && procs[i].chan == chan then Woken(procs[i]) else procs[i])
  }

  function Woken(r: Proc): Proc {
    Proc(RUNNABLE, r.chan, r.parent, r.kstack, r.killed, r.pid, r.pc, r.on, r.mine)
  }

  function WithParent(r: Proc, parent: Option<nat>): Proc {
    Proc(r.state, r.chan, parent, r.kstack, r.killed, r.pid, r.pc, r.on, r.mine)
  }

  /** The children of p become init's. */
  function Reparent(procs: seq<Proc>, p: nat, init: nat): (r: seq<Proc>)
    ensures |r| == |procs|
    ensures forall i :: 0 <= i < |procs| ==>
              r[i] == if procs[i].parent == Some(p) then WithParent(procs[i], Some(init)) else procs[i]
  {
    seq(|procs|, i requires 0 <= i < |procs| =>
      if procs[i].parent == Some(p) then WithParent(procs[i], Some(init)) else procs[i])
  }

  predicate HasZombie(procs: seq<Proc>, p: nat) {
    exists q :: 0 <= q < |procs| && procs[q].parent == Some(p) && procs[q].state == ZOMBIE
  }

  predicate HasKid(procs: seq<Proc>, p: nat) {
    exists q :: 0 <= q < |procs| && procs[q].parent == Some(p)
  }

  /** What exit does to the table before the process itself turns ZOMBIE. */
  function ExitTable(procs: seq<Proc>, p: nat, init: nat): (r: seq<Proc>)
    requires p < |procs|
    ensures |r| == |procs|
  {
    var a := if procs[p].parent.Some? then Wakeup1(procs, Self(procs[p].parent.value)) else procs;
    var b := if HasZombie(a, p) then Wakeup1(a, Self(init)) else a;
    Reparent(b, p, init)
  }

  /** An entry that wait has cleared. */
  function Cleared(r: Proc): Proc {
    Proc(UNUSED, r.chan, None, false, false, 0, Unborn, None, r.mine)
  }

  function Killed(r: Proc): Proc {
    Proc(if r.state == SLEEPING then RUNNABLE else r.state, r.chan, r.parent, r.kstack, true, r.pid, r.pc, r.on, r.mine)
  }

  function WithTable(s: S, procs: seq<Proc>): S {
    S(procs, s.cpus, s.mons, s.pt, s.init, s.nextpid, s.reaped)
  }

  // ---- Bodies ----

  /** The thread of p goes on in place: yield, sleep, coming back, giving up. */
  function InPlace(r: Proc, p: nat): Option<Proc> {
    match r.pc
    case YieldHeld(spot) => Some(In(r, RUNNABLE, r.chan, YieldSet(spot)))
    case WaitNone => Some(In(r, SLEEPING, Self(p), WaitSet))
    case WaitBack => Some(In(r, r.state, NoChan, WaitHeld))
    case MonGo(l, c) => Some(In(r, SLEEPING, Cond(l, c), MonSet(l, c)))
    case MonBack(l) => Some(In(r, r.state, NoChan, MonTidy(l)))
    case ForkHeld => Some(Go(r, ForkNone))
    case _ => None
  }

  ghost predicate CanGo(s: S, c: nat, p: nat) {
    && Runs(s, c, p) && InPlace(s.procs[p], p).Some?
    && (s.procs[p].pc == ForkHeld ==> forall i :: 0 <= i < |s.procs| ==> s.procs[i].state != UNUSED)
  }

  function GoOn(s: S, c: nat, p: nat): S
    requires CanGo(s, c, p)
  {
    WithProc(s, p, InPlace(s.procs[p], p).value)
  }

  /** What code outside all critical sections may begin. */
  predicate MayStart(s: S, p: nat, spot: Spot)
    requires IsProc(s, p)
  {
    match spot
    case ExitWant => p != s.init && s.procs[p].mine == {}
    case WaitWant => true
    case MonWant(l) => l < |s.mons|
    case ForkWant => true
    case KillWant(_) => true
    case _ => false
  }

  predicate CanStart(s: S, c: nat, p: nat, spot: Spot) {
    Runs(s, c, p) && s.procs[p].pc == At(Run) && MayStart(s, p, spot)
  }

  function Start(s: S, c: nat, p: nat, spot: Spot): S
    requires CanStart(s, c, p, spot)
  {
    WithProc(s, p, Go(s.procs[p], At(spot)))
  }

  /** A timer interrupt, anywhere outside the locks. */
  predicate CanPreempt(s: S, c: nat, p: nat) {
    Runs(s, c, p) && s.procs[p].pc.At?
  }

  function Preempt(s: S, c: nat, p: nat): S
    requires CanPreempt(s, c, p)
  {
    WithProc(s, p, Go(s.procs[p], YieldWant(s.procs[p].pc.spot)))
  }

  // ---- Monitors ----

  predicate InMonitor(s: S, c: nat, p: nat, l: nat) {
    Runs(s, c, p) && s.procs[p].pc == MonHeld(l) && l < |s.mons|
  }

  /** The holder finds the condition of channel x and will sleep on it. */
  predicate CanDoze(s: S, c: nat, p: nat, l: nat, x: nat) {
    InMonitor(s, c, p, l) && x in Waits(s.mons[l].val)
  }

  function Doze(s: S, c: nat, p: nat, l: nat, x: nat): S
    requires CanDoze(s, c, p, l, x)
  {
    WithProc(s, p, Go(s.procs[p], MonSleep(l, x)))
  }

  /** The holder calls wakeup on channel x. */
  function Call(s: S, c: nat, p: nat, l: nat, x: nat): S
    requires InMonitor(s, c, p, l)
  {
    WithProc(s, p, Go(s.procs[p], MonWake(l, x)))
  }

  predicate CanWake(s: S, c: nat, p: nat) {
    Runs(s, c, p) && s.procs[p].pc.MonWakeBoth? && s.procs[p].pc.l < |s.mons|
  }

  function Wake(s: S, c: nat, p: nat): S
    requires CanWake(s, c, p)
  {
    var l, x := s.procs[p].pc.l, s.procs[p].pc.c;
    var w := WithTable(s, Wakeup1(s.procs, Cond(l, x)));
    WithMon(WithProc(w, p, Go(w.procs[p], MonWoken(l))), l, Monitor(s.mons[l].held, s.mons[l].val, s.mons[l].owed - {x}))
  }

  /** The holder changes the value: conditions that end make wakeups due. */
  predicate CanChange(s: S, c: nat, p: nat, l: nat, v: Val) {
    InMonitor(s, c, p, l) && !s.mons[l].val.LockVal? && !v.LockVal?
  }

  function Change(s: S, c: nat, p: nat, l: nat, v: Val): S
    requires CanChange(s, c, p, l, v)
  {
    WithMon(s, l, Monitor(s.mons[l].held, v, Due(s.mons[l].owed, s.mons[l].val, v)))
  }

  /** A change without the lock that ends no condition, as commit makes. */
  predicate CanDrift(s: S, l: nat, v: Val) {
    l < |s.mons| && !s.mons[l].val.LockVal? && !v.LockVal? && Ends(s.mons[l].val, v) == {}
  }

  function Drift(s: S, l: nat, v: Val): S
    requires CanDrift(s, l, v)
  {
    WithMon(s, l, Monitor(s.mons[l].held, v, s.mons[l].owed))
  }

  // ---- acquiresleep and releasesleep ----

  predicate CanTake(s: S, c: nat, p: nat, l: nat) {
    InMonitor(s, c, p, l) && s.mons[l].val == LockVal(false)
  }

  function Take(s: S, c: nat, p: nat, l: nat): S
    requires CanTake(s, c, p, l)
  {
    WithMon(WithProc(s, p, WithMine(s.procs[p], MonHeld(l), s.procs[p].mine + {l})),
            l, Monitor(s.mons[l].held, LockVal(true), s.mons[l].owed))
  }

  predicate CanUnlock(s: S, c: nat, p: nat, l: nat) {
    InMonitor(s, c, p, l) && s.mons[l].val.LockVal? && l in s.procs[p].mine
  }

  /** releasesleep goes straight on to its wakeup. */
  function Unlock(s: S, c: nat, p: nat, l: nat): S
    requires CanUnlock(s, c, p, l)
  {
    WithMon(WithProc(s, p, WithMine(s.procs[p], MonWake(l, LOCK), s.procs[p].mine - {l})),
            l, Monitor(s.mons[l].held, LockVal(false), Due(s.mons[l].owed, s.mons[l].val, LockVal(false))))
  }

  // ---- exit, wait, kill ----

  predicate CanExit(s: S, c: nat, p: nat) {
    Runs(s, c, p) && s.procs[p].pc == ExitHeld
  }

  function Exit(s: S, c: nat, p: nat): S
    requires CanExit(s, c, p)
  {
    var w := WithTable(s, ExitTable(s.procs, p, s.init));
    WithProc(w, p, In(w.procs[p], ZOMBIE, w.procs[p].chan, ExitSet))
  }

  predicate CanReap(s: S, c: nat, p: nat, q: nat) {
    Runs(s, c, p) && s.procs[p].pc == WaitHeld && IsProc(s, q) && s.procs[q].parent == Some(p) && s.procs[q].state == ZOMBIE
  }

  function Reap(s: S, c: nat, p: nat, q: nat): S
    requires CanReap(s, c, p, q)
  {
    S(s.procs[q := Cleared(s.procs[q])][p := Go(s.procs[p], WaitDone)], s.cpus, s.mons, s.pt, s.init, s.nextpid,
      s.reaped + {s.procs[q].pid})
  }

  predicate CanEndWait(s: S, c: nat, p: nat) {
    && Runs(s, c, p) && s.procs[p].pc == WaitHeld && !HasZombie(s.procs, p)
  }

  /** No child has exited: give up, or go to sleep. */
  function EndWait(s: S, c: nat, p: nat): S
    requires CanEndWait(s, c, p)
  {
    WithProc(s, p, Go(s.procs[p], if !HasKid(s.procs, p) || s.procs[p].killed then WaitDone else WaitNone))
  }

  predicate CanKill(s: S, c: nat, p: nat) {
    Runs(s, c, p) && s.procs[p].pc.KillHeld?
  }

  /** The first entry with the given pid is k, or there is none and k is past
      the end. */
  predicate FirstPid(procs: seq<Proc>, pid: nat, k: nat) {
    && k <= |procs| && (k < |procs| ==> procs[k].pid == pid)
    && forall i :: 0 <= i < k ==> procs[i].pid != pid
  }

  function Kill(s: S, c: nat, p: nat, k: nat): S
    requires CanKill(s, c, p) && FirstPid(s.procs, s.procs[p].pc.pid, k)
  {
    var w := if k < |s.procs| then WithProc(s, k, Killed(s.procs[k])) else s;
    WithProc(w, p, Go(w.procs[p], KillDone))
  }

  // ---- fork ----

  predicate CanAlloc(s: S, c: nat, p: nat, i: nat) {
    Runs(s, c, p) && s.procs[p].pc == ForkHeld && IsProc(s, i) && s.procs[i].state == UNUSED
  }

  function Alloc(s: S, c: nat, p: nat, i: nat): S
    requires CanAlloc(s, c, p, i)
  {
    var e := s.procs[i];
    S(s.procs[i := Proc(EMBRYO, e.chan, e.parent, e.kstack, e.killed, s.nextpid, e.pc, e.on, e.mine)]
             [p := Go(s.procs[p], ForkGot(i))],
      s.cpus, s.mons, s.pt, s.init, s.nextpid + 1, s.reaped)
  }

  /** The new entry e and the next point of the forking thread, if all goes well. */
  function ForkOn(pc: Pc, e: Proc, p: nat): Option<(Proc, Pc)> {
    match pc
    case At(ForkStack(i)) =>
      Some((Proc(e.state, e.chan, e.parent, true, e.killed, e.pid, e.pc, e.on, e.mine), At(ForkCopy(i))))
    case At(ForkCopy(i)) => Some((WithParent(e, Some(p)), At(ForkReadyWant(i))))
    case ForkReady(i) => Some((In(e, RUNNABLE, e.chan, Entry), ForkDone))
    case _ => None
  }

  predicate CanFork(s: S, c: nat, p: nat) {
    && Runs(s, c, p) && Making(s.procs[p].pc).Some? && IsProc(s, Making(s.procs[p].pc).value)
    && ForkOn(s.procs[p].pc, s.procs[Making(s.procs[p].pc).value], p).Some?
  }

  function Fork(s: S, c: nat, p: nat): S
    requires CanFork(s, c, p)
  {
    var i := Making(s.procs[p].pc).value;
    var n := ForkOn(s.procs[p].pc, s.procs[i], p).value;
    WithProc(WithProc(s, i, n.0), p, Go(s.procs[p], n.1))
  }

  predicate CanUndoFork(s: S, c: nat, p: nat, i: nat) {
    && Runs(s, c, p) && (s.procs[p].pc == At(ForkStack(i)) || s.procs[p].pc == At(ForkCopy(i))) && IsProc(s, i)
  }

  /** Out of memory: the entry is given back, without the lock. */
  function UndoFork(s: S, c: nat, p: nat, i: nat): S
    requires CanUndoFork(s, c, p, i)
  {
    var e := s.procs[i];
    WithProc(WithProc(s, i, Proc(UNUSED, e.chan, e.parent, false, e.killed, e.pid, e.pc, e.on, e.mine)),
             p, Go(s.procs[p], At(Run)))
  }
}
