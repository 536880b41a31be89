/** fork's steps, and what holds in every state that any run can reach. */
module ProcEnter {
  import opened ProcState
  import opened ProcSteps
  import opened ProcNudge

  /** Process p moves on to pc while the entry i it makes becomes n. */
  ghost predicate EnterStep(s: S, t: S, c: nat, p: nat, i: nat, n: Proc, pc: Pc) {
    && Runs(s, c, p) && IsProc(s, i) && i != p
    && t == S(s.procs[i := n][p := Go(s.procs[p], pc)], s.cpus, s.mons, s.pt, s.init, t.nextpid, s.reaped)
    && Entered(s.procs[i], n, p, pc, i)
    && StateFits(Go(s.procs[p], pc), p) && OnCpu(pc) && Alive(s.procs[p]) && s.procs[p].state == RUNNING
    && HoldsPt(pc) == HoldsPt(s.procs[p].pc) && LockOf(pc) == None && LockOf(s.procs[p].pc) == None
    && !pc.WaitNone? && !Exiting(pc) && !pc.ExitSet? && !pc.Dead?
  }
}

module ProcForkProof {
  import opened Monitors
  import opened ProcState
  import opened ProcSteps
  import opened ProcNudge
  import opened ProcEnter

  lemma EnterStacks(s: S, t: S, c: nat, p: nat, i: nat, n: Proc, pc: Pc)
    requires EnterStep(s, t, c, p, i, n, pc) && Stacks(s) && Current(s)
    ensures Stacks(t) && Current(t)
  {
  }

  lemma EnterLocked(s: S, t: S, c: nat, p: nat, i: nat, n: Proc, pc: Pc)
    requires EnterStep(s, t, c, p, i, n, pc) && Stacks(s) && Locked(s)
    ensures Locked(t)
  {
    assert LkOf(pc) == None && LkOf(s.procs[p].pc) == None && LkOf(n.pc) == None && LkOf(s.procs[i].pc) == None;
    assert s.procs[i].on == None;
  }

  lemma EnterStates(s: S, t: S, c: nat, p: nat, i: nat, n: Proc, pc: Pc)
    requires EnterStep(s, t, c, p, i, n, pc) && States(s) && Waiters(s)
    ensures States(t) && Waiters(t)
  {
    forall x: nat | IsProc(t, x) && Waiting(t.procs[x], x)
      ensures NoZombieChild(t, x)
    {
      assert x != i && x != p && Waiting(s.procs[x], x);
      assert NoZombieChild(s, x);
    }
  }

  lemma EnterSleepers(s: S, t: S, c: nat, p: nat, i: nat, n: Proc, pc: Pc, keep: set<nat>)
    requires EnterStep(s, t, c, p, i, n, pc) && Sleepers(s, keep)
    ensures Sleepers(t, keep)
  {
    forall l: nat, x: nat, q: nat | Ruled(t, keep, l) && IsProc(t, q) && SleepsOn(t.procs[q], l, x)
      ensures x in Waits(t.mons[l].val) || x in t.mons[l].owed
    {
      assert q != i && q != p && SleepsOn(s.procs[q], l, x);
    }
  }

  lemma EnterDebts(s: S, t: S, c: nat, p: nat, i: nat, n: Proc, pc: Pc, keep: set<nat>)
    requires EnterStep(s, t, c, p, i, n, pc) && Debts(s, keep) && Locked(s)
    ensures Debts(t, keep)
  {
    forall l: nat | Ruled(t, keep, l) && t.mons[l].owed != {}
      ensures t.mons[l].held.Some? && IsProc(t, t.mons[l].held.value)
              && Pays(t.mons[l], t.procs[t.mons[l].held.value].pc, l)
    {
      assert HoldsLk(s.procs[s.mons[l].held.value].pc, l);
      assert s.mons[l].held != Some(p) && s.mons[l].held != Some(i);
    }
  }

  lemma EnterHolders(s: S, t: S, c: nat, p: nat, i: nat, n: Proc, pc: Pc)
    requires EnterStep(s, t, c, p, i, n, pc) && Holders(s) && LockNames(s)
    ensures Holders(t) && LockNames(t)
  {
    assert PcHolds(s.procs[i]) && PcHolds(s.procs[p]);
  }

  /** The entry another fork is filling in is not touched. */
  lemma EnterMade(s: S, t: S, c: nat, p: nat, i: nat, n: Proc, pc: Pc, x: nat)
    requires EnterStep(s, t, c, p, i, n, pc) && Forks(s) && IsProc(s, x) && Making(t.procs[x].pc).Some?
    requires x != p ==> Making(s.procs[x].pc) != Some(i)
    ensures var k := Making(t.procs[x].pc).value;
            IsProc(t, k) && t.procs[k].pc == Unborn && t.procs[k].state == EMBRYO && Made(t.procs[x].pc, t.procs[k], x)
  {
    if x != p {
      assert x != i && Making(s.procs[x].pc) == Making(t.procs[x].pc);
      assert Making(s.procs[x].pc) != Some(p);
    }
  }

  lemma EnterApart(s: S, t: S, c: nat, p: nat, i: nat, n: Proc, pc: Pc, x: nat, k: nat)
    requires EnterStep(s, t, c, p, i, n, pc) && Forks(s) && IsProc(s, x) && IsProc(s, k) && Making(t.procs[x].pc).Some? && x != k
    requires (x != p ==> Making(s.procs[x].pc) != Some(i)) && (k != p ==> Making(s.procs[k].pc) != Some(i))
    ensures Making(t.procs[x].pc) != Making(t.procs[k].pc)
  {
    if x != p && k != p {
      assert Making(s.procs[x].pc) == Making(t.procs[x].pc) && (k != i ==> Making(s.procs[k].pc) == Making(t.procs[k].pc));
    }
  }

  lemma EnterForks(s: S, t: S, c: nat, p: nat, i: nat, n: Proc, pc: Pc)
    requires EnterStep(s, t, c, p, i, n, pc) && Forks(s)
    requires forall x: nat :: IsProc(s, x) && x != p ==> Making(s.procs[x].pc) != Some(i)
    ensures Forks(t)
  {
    forall x: nat | IsProc(t, x) && Making(t.procs[x].pc).Some?
      ensures var k := Making(t.procs[x].pc).value;
              IsProc(t, k) && t.procs[k].pc == Unborn && t.procs[k].state == EMBRYO && Made(t.procs[x].pc, t.procs[k], x)
    {
      EnterMade(s, t, c, p, i, n, pc, x);
    }
    forall x: nat, k: nat | IsProc(t, x) && IsProc(t, k) && Making(t.procs[x].pc).Some? && x != k
      ensures Making(t.procs[x].pc) != Making(t.procs[k].pc)
    {
      EnterApart(s, t, c, p, i, n, pc, x, k);
    }
  }

  lemma EnterFamily(s: S, t: S, c: nat, p: nat, i: nat, n: Proc, pc: Pc)
    requires EnterStep(s, t, c, p, i, n, pc) && Family(s) && States(s)
    ensures Family(t)
  {
    assert StateFits(s.procs[i], i) && !Alive(s.procs[i]);
    EnterOrphans(s, t, c, p, i, n, pc);
    forall x: nat | IsProc(t, x) && t.procs[x].parent.Some?
      ensures IsProc(t, t.procs[x].parent.value) && Alive(t.procs[t.procs[x].parent.value]) && t.procs[x].parent != Some(x)
    {
      EnterParent(s, t, c, p, i, n, pc, x);
    }
  }

  lemma EnterOrphans(s: S, t: S, c: nat, p: nat, i: nat, n: Proc, pc: Pc)
    requires EnterStep(s, t, c, p, i, n, pc) && Family(s) && !Alive(s.procs[i])
    ensures forall x: nat :: IsProc(t, x) && x != t.init && t.procs[x].state != UNUSED && t.procs[x].state != EMBRYO ==>
              t.procs[x].parent.Some?
    ensures forall x: nat :: IsProc(t, x) && t.procs[x].state == UNUSED ==> t.procs[x].parent == None
    ensures IsProc(t, t.init) && Alive(t.procs[t.init]) && !Exiting(t.procs[t.init].pc) && t.procs[t.init].parent == None
  {
  }

  lemma EnterParent(s: S, t: S, c: nat, p: nat, i: nat, n: Proc, pc: Pc, x: nat)
    requires EnterStep(s, t, c, p, i, n, pc) && Family(s) && !Alive(s.procs[i]) && IsProc(t, x) && t.procs[x].parent.Some?
    ensures IsProc(t, t.procs[x].parent.value) && Alive(t.procs[t.procs[x].parent.value]) && t.procs[x].parent != Some(x)
  {
    if x != i {
      assert s.procs[x].parent == t.procs[x].parent;
      assert Alive(s.procs[s.procs[x].parent.value]);
    }
  }

  lemma EnterPids(s: S, t: S, c: nat, p: nat, i: nat, n: Proc, pc: Pc)
    requires EnterStep(s, t, c, p, i, n, pc) && Pids(s) && s.nextpid <= t.nextpid
    requires n.state != UNUSED ==> 0 < n.pid < t.nextpid && n.pid !in s.reaped
    requires n.state != UNUSED ==> n.pid == s.nextpid || (s.procs[i].state != UNUSED && n.pid == s.procs[i].pid)
    ensures Pids(t)
  {
  }

  lemma EnterKeeps(s: S, t: S, c: nat, p: nat, i: nat, n: Proc, pc: Pc, keep: set<nat>)
    requires Inv(s, keep) && EnterStep(s, t, c, p, i, n, pc) && s.nextpid <= t.nextpid
    requires forall x: nat :: IsProc(s, x) && x != p ==> Making(s.procs[x].pc) != Some(i)
    requires n.state != UNUSED ==> 0 < n.pid < t.nextpid && n.pid !in s.reaped
    requires n.state != UNUSED ==> n.pid == s.nextpid || (s.procs[i].state != UNUSED && n.pid == s.procs[i].pid)
    ensures Inv(t, keep)
  {
    EnterStacks(s, t, c, p, i, n, pc);
    EnterLocked(s, t, c, p, i, n, pc);
    EnterStates(s, t, c, p, i, n, pc);
    EnterSleepers(s, t, c, p, i, n, pc, keep);
    EnterDebts(s, t, c, p, i, n, pc, keep);
    EnterHolders(s, t, c, p, i, n, pc);
    EnterForks(s, t, c, p, i, n, pc);
    EnterFamily(s, t, c, p, i, n, pc);
    EnterPids(s, t, c, p, i, n, pc);
  }

  lemma AllocEnters(s: S, t: S, c: nat, p: nat, i: nat, n: Proc)
    requires States(s) && Family(s) && CanAlloc(s, c, p, i) && t == Alloc(s, c, p, i)
    requires var e := s.procs[i]; n == Proc(EMBRYO, e.chan, e.parent, e.kstack, e.killed, s.nextpid, e.pc, e.on, e.mine)
    ensures EnterStep(s, t, c, p, i, n, ForkGot(i))
  {
    assert StateFits(s.procs[p], p) && StateFits(s.procs[i], i) && s.procs[i].parent == None;
  }

  lemma Unmade(s: S, p: nat, i: nat)
    requires Forks(s) && IsProc(s, i) && s.procs[i].state == UNUSED
    ensures forall x: nat :: IsProc(s, x) && x != p ==> Making(s.procs[x].pc) != Some(i)
  {
  }

  lemma AllocKeeps(s: S, c: nat, p: nat, i: nat, keep: set<nat>)
    requires Inv(s, keep) && CanAlloc(s, c, p, i)
    ensures Inv(Alloc(s, c, p, i), keep)
  {
    var t := Alloc(s, c, p, i);
    var e := s.procs[i];
    var n := Proc(EMBRYO, e.chan, e.parent, e.kstack, e.killed, s.nextpid, e.pc, e.on, e.mine);
    AllocEnters(s, t, c, p, i, n);
    Unmade(s, p, i);
    EnterKeeps(s, t, c, p, i, n, ForkGot(i), keep);
  }

  /** The entry a fork is making is its own. */
  lemma MakerFacts(s: S, p: nat, i: nat)
    requires Core(s) && IsProc(s, p) && Making(s.procs[p].pc) == Some(i)
    ensures IsProc(s, i) && i != p && s.procs[i].pc == Unborn && s.procs[i].state == EMBRYO
    ensures Made(s.procs[p].pc, s.procs[i], p) && (s.procs[p].pc.At? || s.procs[p].pc.ForkReady? ==> s.procs[p].state == RUNNING)
    ensures forall x: nat :: IsProc(s, x) && x != p ==> Making(s.procs[x].pc) != Some(i)
    ensures 0 < s.procs[i].pid < s.nextpid && s.procs[i].pid !in s.reaped
  {
    assert StateFits(s.procs[p], p);
    forall x: nat | IsProc(s, x) && x != p
      ensures Making(s.procs[x].pc) != Some(i)
    {
      assert Making(s.procs[p].pc) != Making(s.procs[x].pc);
    }
  }

  lemma ForkPc(e: Proc, r: Proc, p: nat, i: nat)
    requires Making(r.pc) == Some(i) && ForkOn(r.pc, e, p).Some? && e.pc == Unborn && e.state == EMBRYO && Made(r.pc, e, p)
    requires r.state == RUNNING
    ensures var n := ForkOn(r.pc, e, p).value;
            && Entered(e, n.0, p, n.1, i) && StateFits(Go(r, n.1), p) && OnCpu(n.1) && HoldsPt(n.1) == HoldsPt(r.pc)
            && LockOf(n.1) == None && LockOf(r.pc) == None && n.0.pid == e.pid && n.0.state != UNUSED
            && !n.1.WaitNone? && !Exiting(n.1) && !n.1.ExitSet? && !n.1.Dead?
  {
  }

  lemma ForkKeeps(s: S, c: nat, p: nat, keep: set<nat>)
    requires Inv(s, keep) && CanFork(s, c, p)
    ensures Inv(Fork(s, c, p), keep)
  {
    var i := Making(s.procs[p].pc).value;
    MakerFacts(s, p, i);
    ForkPc(s.procs[i], s.procs[p], p, i);
    var n := ForkOn(s.procs[p].pc, s.procs[i], p).value;
    EnterKeeps(s, Fork(s, c, p), c, p, i, n.0, n.1, keep);
  }

  lemma UndoEnters(s: S, t: S, c: nat, p: nat, i: nat, n: Proc)
    requires CanUndoFork(s, c, p, i) && t == UndoFork(s, c, p, i) && i != p
    requires s.procs[p].state == RUNNING && s.procs[i].pc == Unborn && Made(s.procs[p].pc, s.procs[i], p)
    requires var e := s.procs[i]; n == Proc(UNUSED, e.chan, e.parent, false, e.killed, e.pid, e.pc, e.on, e.mine)
    ensures EnterStep(s, t, c, p, i, n, At(Run))
  {
  }

  lemma UndoForkKeeps(s: S, c: nat, p: nat, i: nat, keep: set<nat>)
    requires Inv(s, keep) && CanUndoFork(s, c, p, i)
    ensures Inv(UndoFork(s, c, p, i), keep)
  {
    MakerFacts(s, p, i);
    var e := s.procs[i];
    var n := Proc(UNUSED, e.chan, e.parent, false, e.killed, e.pid, e.pc, e.on, e.mine);
    UndoEnters(s, UndoFork(s, c, p, i), c, p, i, n);
    EnterKeeps(s, UndoFork(s, c, p, i), c, p, i, n, At(Run), keep);
  }
}

/** The machine: its steps, its runs, the states it can reach. */
module ProcMachine {
  import opened Monitors
  import opened ProcState
  import opened ProcSteps

  /** One action of CPU c, running process p or the scheduler. */
  datatype Step =
    | DoAcquirePt(c: nat, p: nat) | DoReleasePt(c: nat, p: nat)
    | DoAcquireLk(c: nat, p: nat, l: nat) | DoReleaseLk(c: nat, p: nat, l: nat)
    | DoSwitch(c: nat, p: nat)
    | DoSchedAcquire(c: nat) | DoSchedClear(c: nat) | DoPick(c: nat, q: nat) | DoSchedRelease(c: nat)
    | DoGo(c: nat, p: nat) | DoStart(c: nat, p: nat, spot: Spot) | DoPreempt(c: nat, p: nat)
    | DoDoze(c: nat, p: nat, l: nat, x: nat) | DoCall(c: nat, p: nat, l: nat, x: nat) | DoWake(c: nat, p: nat)
    | DoChange(c: nat, p: nat, l: nat, v: Val) | DoDrift(l: nat, v: Val)
    | DoTake(c: nat, p: nat, l: nat) | DoUnlock(c: nat, p: nat, l: nat)
    | DoExit(c: nat, p: nat) | DoReap(c: nat, p: nat, q: nat) | DoEndWait(c: nat, p: nat) | DoKill(c: nat, p: nat, k: nat)
    | DoAlloc(c: nat, p: nat, i: nat) | DoFork(c: nat, p: nat) | DoUndoFork(c: nat, p: nat, i: nat)

  ghost predicate Enabled(s: S, a: Step) {
    match a
    case DoAcquirePt(c, p) => CanAcquirePt(s, c, p)
    case DoReleasePt(c, p) => CanReleasePt(s, c, p)
    case DoAcquireLk(c, p, l) => CanAcquireLk(s, c, p, l)
    case DoReleaseLk(c, p, l) => CanReleaseLk(s, c, p, l)
    case DoSwitch(c, p) => CanSwitch(s, c, p)
    case DoSchedAcquire(c) => Scheduling(s, c) && s.pt == None
    case DoSchedClear(c) => Scheduling(s, c) && s.pt == Some(c)
    case DoPick(c, q) => CanPick(s, c, q)
    case DoSchedRelease(c) => Scheduling(s, c) && s.pt == Some(c) && s.cpus[c].proc == None
    case DoGo(c, p) => CanGo(s, c, p)
    case DoStart(c, p, spot) => CanStart(s, c, p, spot)
    case DoPreempt(c, p) => CanPreempt(s, c, p)
    case DoDoze(c, p, l, x) => CanDoze(s, c, p, l, x)
    case DoCall(c, p, l, x) => InMonitor(s, c, p, l)
    case DoWake(c, p) => CanWake(s, c, p)
    case DoChange(c, p, l, v) => CanChange(s, c, p, l, v)
    case DoDrift(l, v) => CanDrift(s, l, v)
    case DoTake(c, p, l) => CanTake(s, c, p, l)
    case DoUnlock(c, p, l) => CanUnlock(s, c, p, l)
    case DoExit(c, p) => CanExit(s, c, p)
    case DoReap(c, p, q) => CanReap(s, c, p, q)
    case DoEndWait(c, p) => CanEndWait(s, c, p)
    case DoKill(c, p, k) => CanKill(s, c, p) && FirstPid(s.procs, s.procs[p].pc.pid, k)
    case DoAlloc(c, p, i) => CanAlloc(s, c, p, i)
    case DoFork(c, p) => CanFork(s, c, p)
    case DoUndoFork(c, p, i) => CanUndoFork(s, c, p, i)
  }

  ghost function Do(s: S, a: Step): S
    requires Enabled(s, a)
  {
    match a
    case DoAcquirePt(c, p) => AcquirePt(s, c, p)
    case DoReleasePt(c, p) => ReleasePt(s, c, p)
    case DoAcquireLk(c, p, l) => AcquireLk(s, c, p, l)
    case DoReleaseLk(c, p, l) => ReleaseLk(s, c, p, l)
    case DoSwitch(c, p) => Switch(s, c, p)
    case DoSchedAcquire(c) => SchedAcquire(s, c)
    case DoSchedClear(c) => SchedClear(s, c)
    case DoPick(c, q) => SchedPick(s, c, q)
    case DoSchedRelease(c) => SchedRelease(s, c)
    case DoGo(c, p) => GoOn(s, c, p)
    case DoStart(c, p, spot) => Start(s, c, p, spot)
    case DoPreempt(c, p) => Preempt(s, c, p)
    case DoDoze(c, p, l, x) => Doze(s, c, p, l, x)
    case DoCall(c, p, l, x) => Call(s, c, p, l, x)
    case DoWake(c, p) => Wake(s, c, p)
    case DoChange(c, p, l, v) => Change(s, c, p, l, v)
    case DoDrift(l, v) => Drift(s, l, v)
    case DoTake(c, p, l) => Take(s, c, p, l)
    case DoUnlock(c, p, l) => Unlock(s, c, p, l)
    case DoExit(c, p) => Exit(s, c, p)
    case DoReap(c, p, q) => Reap(s, c, p, q)
    case DoEndWait(c, p) => EndWait(s, c, p)
    case DoKill(c, p, k) => Kill(s, c, p, k)
    case DoAlloc(c, p, i) => Alloc(s, c, p, i)
    case DoFork(c, p) => Fork(s, c, p)
    case DoUndoFork(c, p, i) => UndoFork(s, c, p, i)
  }

  /** The rule for the monitors in keep: who leaves one, or turns to sleep in it,
      has made the wakeups that are due. */
  predicate Settled(s: S, a: Step, keep: set<nat>) {
    && (a.DoReleaseLk? && IsProc(s, a.p) && s.procs[a.p].pc.MonHeld? && a.l < |s.mons| && a.l in keep ==>
          s.mons[a.l].owed == {})
    && (a.DoDoze? && a.l < |s.mons| && a.l in keep ==> s.mons[a.l].owed == {})
  }

  /** userinit's process and nothing else; every CPU in its scheduler. */
  function Boot(nproc: nat, ncpu: nat, vals: seq<Val>): S
    requires nproc > 0
  {
    S([Proc(RUNNABLE, NoChan, None, true, false, 1, Entry, None, {})]
      + seq(nproc - 1, _ => Proc(UNUSED, NoChan, None, false, false, 0, Unborn, None, {})),
      seq(ncpu, _ => Cpu(None, None)),
      seq(|vals|, l requires 0 <= l < |vals| => Monitor(None, if vals[l].LockVal? then LockVal(false) else vals[l], {})),
      None, 0, 2, {})
  }

  /** A run: every step is enabled where it is taken. */
  ghost predicate Runnable(s: S, run: seq<Step>)
    decreases |run|
  {
    run == [] || (Enabled(s, run[0]) && Runnable(Do(s, run[0]), run[1..]))
  }

  /** The run keeps the rule for the monitors in keep. */
  ghost predicate Obeys(s: S, run: seq<Step>, keep: set<nat>)
    requires Runnable(s, run)
    decreases |run|
  {
    run == [] || (Settled(s, run[0], keep) && Obeys(Do(s, run[0]), run[1..], keep))
  }

  ghost function End(s: S, run: seq<Step>): S
    requires Runnable(s, run)
    decreases |run|
  {
    if run == [] then s else End(Do(s, run[0]), run[1..])
  }

  /** s is where some run from boot ends. */
  ghost predicate Reachable(s: S) {
    exists nproc: nat, ncpu: nat, vals: seq<Val>, run: seq<Step> :: ReachedBy(s, nproc, ncpu, vals, run)
  }

  /** s is where some run from boot ends that keeps the rule for those in keep. */
  ghost predicate ReachableKeeping(s: S, keep: set<nat>) {
    exists nproc: nat, ncpu: nat, vals: seq<Val>, run: seq<Step> ::
      ReachedBy(s, nproc, ncpu, vals, run) && Obeys(Boot(nproc, ncpu, vals), run, keep)
  }

  ghost predicate ReachedBy(s: S, nproc: nat, ncpu: nat, vals: seq<Val>, run: seq<Step>) {
    nproc > 0 && Runnable(Boot(nproc, ncpu, vals), run) && s == End(Boot(nproc, ncpu, vals), run)
  }
}

module ProcRuns {
  import opened Monitors
  import opened ProcState
  import opened ProcSteps
  import opened ProcMachine
  import opened ProcProof
  import opened ProcTableProof
  import opened ProcForkProof

  predicate IsLockStep(a: Step) {
    a.DoAcquirePt? || a.DoReleasePt? || a.DoAcquireLk? || a.DoReleaseLk? || a.DoSwitch? || a.DoSchedAcquire?
    || a.DoSchedClear? || a.DoPick? || a.DoSchedRelease? || a.DoGo? || a.DoStart? || a.DoPreempt?
  }

  predicate IsSchedStep(a: Step) {
    a.DoSchedAcquire? || a.DoSchedClear? || a.DoPick? || a.DoSchedRelease?
  }

  /** The scheduler's own. */
  lemma SchedStepKeeps(s: S, a: Step, keep: set<nat>)
    requires Inv(s, keep) && Enabled(s, a) && IsSchedStep(a)
    ensures Inv(Do(s, a), keep)
  {
    match a {
      case DoSchedAcquire(c) => SchedKeeps(s, SchedAcquire(s, c), c, keep);
      case DoSchedClear(c) => SchedKeeps(s, SchedClear(s, c), c, keep);
      case DoPick(c, q) => PickKeeps(s, c, q, keep);
      case DoSchedRelease(c) => SchedKeeps(s, SchedRelease(s, c), c, keep);
    }
  }

  /** Locks, switches and what a thread does on its own. */
  lemma LockStepKeeps(s: S, a: Step, keep: set<nat>)
    requires Inv(s, keep) && Enabled(s, a) && Settled(s, a, keep) && IsLockStep(a) && !IsSchedStep(a)
    ensures Inv(Do(s, a), keep)
  {
    match a {
      case DoAcquirePt(c, p) => AcquirePtKeeps(s, c, p, keep);
      case DoReleasePt(c, p) => ReleasePtKeeps(s, c, p, keep);
      case DoAcquireLk(c, p, l) => AcquireLkKeeps(s, c, p, l, keep);
      case DoReleaseLk(c, p, l) => ReleaseLkKeeps(s, c, p, l, keep);
      case DoSwitch(c, p) => SwitchKeeps(s, c, p, keep);
      case DoGo(c, p) => GoOnKeeps(s, c, p, keep);
      case DoStart(c, p, spot) => StartKeeps(s, c, p, spot, keep);
      case DoPreempt(c, p) => PreemptKeeps(s, c, p, keep);
    }
  }

  predicate IsMonStep(a: Step) {
    a.DoDoze? || a.DoCall? || a.DoWake? || a.DoChange? || a.DoDrift? || a.DoTake? || a.DoUnlock?
  }

  /** What is done inside monitors. */
  lemma MonStepKeeps(s: S, a: Step, keep: set<nat>)
    requires Inv(s, keep) && Enabled(s, a) && Settled(s, a, keep) && IsMonStep(a)
    ensures Inv(Do(s, a), keep)
  {
    match a {
      case DoDoze(c, p, l, x) => DozeKeeps(s, c, p, l, x, keep);
      case DoCall(c, p, l, x) => CallKeeps(s, c, p, l, x, keep);
      case DoWake(c, p) => WakeKeeps(s, c, p, keep);
      case DoChange(c, p, l, v) => ChangeKeeps(s, c, p, l, v, keep);
      case DoDrift(l, v) => DriftKeeps(s, l, v, keep);
      case DoTake(c, p, l) => TakeKeeps(s, c, p, l, keep);
      case DoUnlock(c, p, l) => UnlockKeeps(s, c, p, l, keep);
    }
  }

  /** Changes to the table. */
  lemma TableStepKeeps(s: S, a: Step, keep: set<nat>)
    requires Inv(s, keep) && Enabled(s, a) && !IsLockStep(a) && !IsMonStep(a)
    ensures Inv(Do(s, a), keep)
  {
    match a {
      case DoExit(c, p) => ExitKeeps(s, c, p, keep);
      case DoReap(c, p, q) => ReapKeeps(s, c, p, q, keep);
      case DoEndWait(c, p) => EndWaitKeeps(s, c, p, keep);
      case DoKill(c, p, k) => KillKeeps(s, c, p, k, keep);
      case DoAlloc(c, p, i) => AllocKeeps(s, c, p, i, keep);
      case DoFork(c, p) => ForkKeeps(s, c, p, keep);
      case DoUndoFork(c, p, i) => UndoForkKeeps(s, c, p, i, keep);
    }
  }

  lemma StepKeeps(s: S, a: Step, keep: set<nat>)
    requires Inv(s, keep) && Enabled(s, a) && Settled(s, a, keep)
    ensures Inv(Do(s, a), keep)
  {
    if IsSchedStep(a) {
      SchedStepKeeps(s, a, keep);
    } else if IsLockStep(a) {
      LockStepKeeps(s, a, keep);
    } else if IsMonStep(a) {
      MonStepKeeps(s, a, keep);
    } else {
      TableStepKeeps(s, a, keep);
    }
  }

  lemma BootInv(nproc: nat, ncpu: nat, vals: seq<Val>, keep: set<nat>)
    requires nproc > 0
    ensures Inv(Boot(nproc, ncpu, vals), keep)
  {
    var s := Boot(nproc, ncpu, vals);
    BootProcs(s, nproc, ncpu, vals);
    BootTable(s);
    BootStacks(s);
    BootMons(s, keep);
  }

  /** Every entry but the first is unused. */
  ghost predicate Fresh(s: S) {
    && |s.procs| > 0 && s.procs[0] == Proc(RUNNABLE, NoChan, None, true, false, 1, Entry, None, {})
    && (forall p: nat :: IsProc(s, p) && p != 0 ==>
          s.procs[p] == Proc(UNUSED, NoChan, None, false, false, 0, Unborn, None, {}))
    && (forall c: nat :: IsCpu(s, c) ==> s.cpus[c] == Cpu(None, None))
    && (forall l: nat :: l < |s.mons| ==> s.mons[l].held == None && s.mons[l].owed == {})
    && s.pt == None && s.init == 0 && s.nextpid == 2 && s.reaped == {}
  }

  lemma BootProcs(s: S, nproc: nat, ncpu: nat, vals: seq<Val>)
    requires nproc > 0 && s == Boot(nproc, ncpu, vals)
    ensures Fresh(s)
  {
  }

  lemma BootTable(s: S)
    requires Fresh(s)
    ensures States(s) && Waiters(s) && Forks(s) && Family(s) && Pids(s)
  {
  }

  lemma BootStacks(s: S)
    requires Fresh(s)
    ensures Stacks(s) && Current(s) && Locked(s)
  {
  }

  lemma BootMons(s: S, keep: set<nat>)
    requires Fresh(s)
    ensures Sleepers(s, keep) && Debts(s, keep) && Holders(s) && LockNames(s)
  {
  }

  lemma {:induction false} RunKeeps(s: S, run: seq<Step>, keep: set<nat>)
    requires Inv(s, keep) && Runnable(s, run) && Obeys(s, run, keep)
    ensures Inv(End(s, run), keep)
    decreases |run|
  {
    if run != [] {
      StepKeeps(s, run[0], keep);
      RunKeeps(Do(s, run[0]), run[1..], keep);
    }
  }

  /** No rule is asked of a run that keeps it nowhere. */
  lemma {:induction false} ObeysNone(s: S, run: seq<Step>)
    requires Runnable(s, run)
    ensures Obeys(s, run, {})
    decreases |run|
  {
    if run != [] {
      ObeysNone(Do(s, run[0]), run[1..]);
    }
  }

  lemma KeepingInv(s: S, keep: set<nat>)
    requires ReachableKeeping(s, keep)
    ensures Inv(s, keep)
  {
    var nproc: nat, ncpu: nat, vals: seq<Val>, run: seq<Step> :|
      ReachedBy(s, nproc, ncpu, vals, run) && Obeys(Boot(nproc, ncpu, vals), run, keep);
    BootInv(nproc, ncpu, vals, keep);
    RunKeeps(Boot(nproc, ncpu, vals), run, keep);
  }

  /** In every run the core holds, and sleep-locks lose no wakeup. */
  lemma ReachableInv(s: S)
    requires Reachable(s)
    ensures Inv(s, {})
  {
    var nproc: nat, ncpu: nat, vals: seq<Val>, run: seq<Step> :| ReachedBy(s, nproc, ncpu, vals, run);
    BootInv(nproc, ncpu, vals, {});
    ObeysNone(Boot(nproc, ncpu, vals), run);
    RunKeeps(Boot(nproc, ncpu, vals), run, {});
  }
}

/** What every reachable state satisfies. */
module ProcTheorems {
  import opened Params
  import opened Monitors
  import opened ProcState
  import opened ProcSteps
  import opened ProcMachine
  import opened ProcProof
  import opened ProcTableProof
  import opened ProcRuns

  lemma CurrentRuns(s: S, p: nat, c: nat)
    requires Stacks(s) && Current(s) && Locked(s) && States(s) && s.pt == None && IsProc(s, p) && IsCpu(s, c)
    ensures s.cpus[c].proc == Some(p) <==> s.procs[p].on == Some(c)
    ensures s.procs[p].state == RUNNING <==> s.procs[p].on.Some?
  {
    assert StateFits(s.procs[p], p);
  }

  /** While ptable.lock is free a process is RUNNING exactly when one CPU, and
      only one, has it as its current process. */
  lemma RunningOnOneCpu(s: S, p: nat)
    requires Reachable(s) && s.pt == None && IsProc(s, p)
    ensures s.procs[p].state == RUNNING <==> exists c: nat :: IsCpu(s, c) && s.cpus[c].proc == Some(p)
    ensures forall c: nat, d: nat ::
              IsCpu(s, c) && IsCpu(s, d) && s.cpus[c].proc == Some(p) && s.cpus[d].proc == Some(p) ==> c == d
  {
    ReachableInv(s);
    OneCpu(s, p);
  }

  lemma OneCpu(s: S, p: nat)
    requires Stacks(s) && Current(s) && Locked(s) && States(s) && s.pt == None && IsProc(s, p)
    ensures s.procs[p].state == RUNNING <==> exists c: nat :: IsCpu(s, c) && s.cpus[c].proc == Some(p)
    ensures forall c: nat, d: nat ::
              IsCpu(s, c) && IsCpu(s, d) && s.cpus[c].proc == Some(p) && s.cpus[d].proc == Some(p) ==> c == d
  {
    forall c: nat | IsCpu(s, c)
      ensures s.cpus[c].proc == Some(p) <==> s.procs[p].on == Some(c)
    {
      CurrentRuns(s, p, c);
    }
    assert StateFits(s.procs[p], p);
    if s.procs[p].on.Some? {
      var c := s.procs[p].on.value;
      assert IsCpu(s, c);
      CurrentRuns(s, p, c);
    }
  }

  /** Nobody sleeps in wait while a child of its has exited, and an exited child
      has a parent that can still wait for it. */
  lemma NoForgottenChild(s: S, p: nat, q: nat)
    requires Reachable(s) && IsProc(s, p) && IsProc(s, q) && s.procs[q].state == ZOMBIE
    ensures s.procs[q].parent == Some(p) ==> !(s.procs[p].state == SLEEPING && s.procs[p].chan == Self(p))
    ensures s.procs[q].parent.Some? && IsProc(s, s.procs[q].parent.value) && Alive(s.procs[s.procs[q].parent.value])
  {
    ReachableInv(s);
    assert Waiting(s.procs[p], p) ==> NoZombieChild(s, p);
  }

  /** A CPU never runs on a kernel stack that has been freed ... */
  lemma StackAllocated(s: S, c: nat)
    requires Reachable(s) && IsCpu(s, c) && s.cpus[c].stack.Some?
    ensures IsProc(s, s.cpus[c].stack.value) && s.procs[s.cpus[c].stack.value].kstack
  {
    ReachableInv(s);
  }

  /** ... for wait frees it when its process runs nowhere; and it returns no pid
      twice. */
  lemma ReapedOnce(s: S, c: nat, p: nat, q: nat)
    requires Reachable(s) && Enabled(s, DoReap(c, p, q))
    ensures s.procs[q].pid !in s.reaped && s.procs[q].pid in Do(s, DoReap(c, p, q)).reaped
    ensures forall d: nat :: IsCpu(s, d) ==> s.cpus[d].stack != Some(q) && s.cpus[d].proc != Some(q)
  {
    ReachableInv(s);
    ReapSafe(s, c, p, q);
    DeadNowhere(s, c, p, q);
  }

  lemma DeadNowhere(s: S, c: nat, p: nat, q: nat)
    requires Stacks(s) && Current(s) && Locked(s) && CanReap(s, c, p, q)
    requires forall d: nat :: IsCpu(s, d) ==> s.cpus[d].stack != Some(q)
    ensures forall d: nat :: IsCpu(s, d) ==> s.cpus[d].proc != Some(q)
  {
    assert s.procs[p].on == Some(c) && s.pt == Some(c);
  }

  // ---- Sleep and wakeup ----

  /** A sleep-lock has one holder at most, and is locked while it has one. */
  lemma SleepLockExclusive(s: S, l: nat, p: nat, q: nat)
    requires Reachable(s) && IsProc(s, p) && IsProc(s, q) && l in s.procs[p].mine && l in s.procs[q].mine
    ensures p == q && l < |s.mons| && IsLocked(s.mons[l].val)
  {
    ReachableInv(s);
  }

  /** acquiresleep and releasesleep keep the rule for monitors. */
  lemma SleepLockSettled(s: S, a: Step, l: nat)
    requires Reachable(s) && Enabled(s, a) && (a.DoReleaseLk? || a.DoDoze?)
    requires l == a.l && l < |s.mons| && s.mons[l].val.LockVal?
    ensures s.mons[l].owed == {}
  {
    ReachableInv(s);
    LeaverSettled(s, a.p, l);
  }

  lemma LeaverSettled(s: S, p: nat, l: nat)
    requires Debts(s, {}) && Locked(s) && IsProc(s, p) && l < |s.mons| && s.mons[l].val.LockVal?
    requires s.procs[p].pc == MonHeld(l) || (s.procs[p].pc.MonBoth? && s.procs[p].pc.l == l)
    ensures s.mons[l].owed == {}
  {
    if s.procs[p].pc == MonHeld(l) {
      LockSettled(s, p, l, {});
    } else {
      SettledInSleep(s, p, l, {});
    }
  }

  /** No wakeup is lost in a monitor that keeps the rule, whatever the condition
      and whatever the others do: a process that sleeps on a channel, or has found
      its condition and is about to, faces the condition whenever the lock is
      free, and else the condition or a wakeup that the holder has yet to make. */
  lemma NoLostWakeup(s: S, keep: set<nat>, l: nat, x: nat, p: nat)
    requires ReachableKeeping(s, keep) && Ruled(s, keep, l) && IsProc(s, p) && SleepsOn(s.procs[p], l, x)
    ensures s.mons[l].held == None ==> x in Waits(s.mons[l].val)
    ensures x !in Waits(s.mons[l].val) ==>
              && x in s.mons[l].owed && s.mons[l].held.Some? && IsProc(s, s.mons[l].held.value)
              && Pays(s.mons[l], s.procs[s.mons[l].held.value].pc, l)
  {
    KeepingInv(s, keep);
    SleeperFaces(s, keep, l, x, p);
  }

  lemma SleeperFaces(s: S, keep: set<nat>, l: nat, x: nat, p: nat)
    requires Sleepers(s, keep) && Ruled(s, keep, l) && IsProc(s, p) && SleepsOn(s.procs[p], l, x)
    ensures x in Waits(s.mons[l].val) || x in s.mons[l].owed
  {
  }

  /** Nobody sleeps in acquiresleep on a lock that is free, in any run. */
  lemma LockerNotForgotten(s: S, l: nat, p: nat)
    requires Reachable(s) && l < |s.mons| && s.mons[l].held == None && s.mons[l].val.LockVal?
    requires IsProc(s, p) && SleepsOn(s.procs[p], l, LOCK)
    ensures s.mons[l].val.locked
  {
    ReachableInv(s);
    SleeperFaces(s, {}, l, LOCK, p);
  }

  /** And the wakeup, when it comes, wakes all of them. */
  lemma WakeupWakes(s: S, c: nat, p: nat)
    requires Reachable(s) && Enabled(s, DoWake(c, p))
    ensures var t := Do(s, DoWake(c, p));
            var l, x := s.procs[p].pc.l, s.procs[p].pc.c;
            && (forall q: nat :: IsProc(t, q) ==> !SleepsOn(t.procs[q], l, x))
            && (forall q: nat :: IsProc(s, q) && SleepsOn(s.procs[q], l, x) ==> t.procs[q].state == RUNNABLE)
  {
    ReachableInv(s);
    WakesAll(s, Do(s, DoWake(c, p)), c, p, s.procs[p].pc.l, s.procs[p].pc.c);
  }

  lemma WakesAll(s: S, t: S, c: nat, p: nat, l: nat, x: nat)
    requires Stacks(s) && Locked(s) && States(s)
    requires CanWake(s, c, p) && s.procs[p].pc == MonWakeBoth(l, x) && t == Wake(s, c, p)
    ensures forall q: nat :: IsProc(t, q) ==> !SleepsOn(t.procs[q], l, x)
    ensures forall q: nat :: IsProc(s, q) && SleepsOn(s.procs[q], l, x) ==> t.procs[q].state == RUNNABLE
  {
    assert StateFits(s.procs[p], p);
    WokenQuiet(s, WithTable(s, Wakeup1(s.procs, Cond(l, x))), c, p, l, x);
    forall q: nat | IsProc(s, q)
      ensures !DozesOn(s.procs[q].pc, l, x)
    {
      NotDozing(s, c, p, l, x, q);
    }
  }

  /** Nobody sleeps in piperead on a pipe with bytes in it, or without writers. */
  lemma ReaderNotForgotten(s: S, keep: set<nat>, l: nat, p: nat)
    requires ReachableKeeping(s, keep) && l in keep && l < |s.mons| && s.mons[l].held == None && s.mons[l].val.PipeVal?
    requires IsProc(s, p) && SleepsOn(s.procs[p], l, NREAD)
    ensures var v := s.mons[l].val; v.nread == v.nwrite && v.writeopen
  {
    NoLostWakeup(s, keep, l, NREAD, p);
  }

  /** Nobody sleeps in pipewrite on a pipe with room in it, or without readers. */
  lemma WriterNotForgotten(s: S, keep: set<nat>, l: nat, p: nat)
    requires ReachableKeeping(s, keep) && l in keep && l < |s.mons| && s.mons[l].held == None && s.mons[l].val.PipeVal?
    requires IsProc(s, p) && SleepsOn(s.procs[p], l, NWRITE)
    ensures var v := s.mons[l].val; v.nwrite == (v.nread + PIPESIZE) % WORD && v.readopen
  {
    NoLostWakeup(s, keep, l, NWRITE, p);
  }

  /** Nobody sleeps in begin_op with room in the log and no commit under way. */
  lemma BeginNotForgotten(s: S, keep: set<nat>, l: nat, p: nat)
    requires ReachableKeeping(s, keep) && l in keep && l < |s.mons| && s.mons[l].held == None && s.mons[l].val.LogVal?
    requires IsProc(s, p) && SleepsOn(s.procs[p], l, LOG)
    ensures var v := s.mons[l].val; v.committing || v.n + (v.outstanding + 1) * MAXOPBLOCKS > LOGSIZE
  {
    NoLostWakeup(s, keep, l, LOG, p);
  }

  /** sched's panics are out of reach: who switches holds ptable.lock and no
      other spin lock, and has left RUNNING. */
  lemma SchedNoPanic(s: S, c: nat, p: nat)
    requires Reachable(s) && Enabled(s, DoSwitch(c, p))
    ensures s.pt == Some(c) && s.procs[p].state != RUNNING && s.cpus[c].proc == Some(p)
    ensures forall l: nat :: l < |s.mons| ==> s.mons[l].held != Some(p)
  {
    ReachableInv(s);
    SwitcherReady(s, c, p);
  }

  lemma SwitcherReady(s: S, c: nat, p: nat)
    requires Stacks(s) && Current(s) && Locked(s) && States(s) && CanSwitch(s, c, p)
    ensures s.pt == Some(c) && s.procs[p].state != RUNNING && s.cpus[c].proc == Some(p)
    ensures forall l: nat :: l < |s.mons| ==> s.mons[l].held != Some(p)
  {
    assert StateFits(s.procs[p], p) && s.procs[p].on == Some(c);
    assert LkOf(s.procs[p].pc) == None;
  }
}
