/** No CPU is stuck, and no two wait for each other. */
module ProcWaiting {
  import opened Monitors
  import opened ProcState
  import opened ProcSteps
  import opened ProcMachine

  /** A step of CPU c other than a timer interrupt. */
  predicate StepOf(a: Step, c: nat) {
    !a.DoDrift? && !a.DoPreempt? && a.c == c
  }

  /** CPU c waits for ptable.lock, which another CPU has. */
  predicate WaitsPt(s: S, c: nat) {
    && IsCpu(s, c) && s.pt.Some? && s.pt.value != c
    && (s.cpus[c].stack.None?
        || (IsProc(s, s.cpus[c].stack.value) && AfterAcquire(s.procs[s.cpus[c].stack.value].pc).Some?))
  }

  /** It waits for the spin lock of monitor l, which process q has. */
  predicate WaitsLk(s: S, c: nat, l: nat, q: nat) {
    && IsCpu(s, c) && s.cpus[c].stack.Some? && IsProc(s, s.cpus[c].stack.value) && IsProc(s, q) && q != s.cpus[c].stack.value
    && l < |s.mons| && s.procs[s.cpus[c].stack.value].pc == At(MonWant(l)) && s.mons[l].held == Some(q)
  }

  ghost predicate Blocked(s: S, c: nat) {
    WaitsPt(s, c) || exists l: nat, q: nat :: WaitsLk(s, c, l, q)
  }

  /** Who has a spin lock is a process. */
  ghost predicate Named(s: S) {
    forall l: nat :: l < |s.mons| && s.mons[l].held.Some? ==> IsProc(s, s.mons[l].held.value)
  }

  ghost predicate Moves(s: S, c: nat, a: Step) {
    Enabled(s, a) && StepOf(a, c)
  }
}

module ProcProgress {
  import opened Monitors
  import opened ProcState
  import opened ProcSteps
  import opened ProcMachine
  import opened ProcProof
  import opened ProcRuns
  import opened ProcWaiting

  lemma LockNamed(s: S, a: Step)
    requires Named(s) && Enabled(s, a) && (IsLockStep(a) || IsSchedStep(a))
    ensures Named(Do(s, a))
  {
  }

  lemma MonNamed(s: S, a: Step)
    requires Named(s) && Enabled(s, a) && IsMonStep(a)
    ensures Named(Do(s, a))
  {
  }

  lemma TableNamed(s: S, a: Step)
    requires Named(s) && Enabled(s, a) && !IsLockStep(a) && !IsSchedStep(a) && !IsMonStep(a)
    ensures Named(Do(s, a))
  {
  }

  lemma {:induction false} RunNamed(s: S, run: seq<Step>)
    requires Named(s) && Runnable(s, run)
    ensures Named(End(s, run))
    decreases |run|
  {
    if run != [] {
      if IsLockStep(run[0]) || IsSchedStep(run[0]) {
        LockNamed(s, run[0]);
      } else if IsMonStep(run[0]) {
        MonNamed(s, run[0]);
      } else {
        TableNamed(s, run[0]);
      }
      RunNamed(Do(s, run[0]), run[1..]);
    }
  }

  lemma ReachableNamed(s: S)
    requires Reachable(s)
    ensures Named(s)
  {
    var nproc: nat, ncpu: nat, vals: seq<Val>, run: seq<Step> :| ReachedBy(s, nproc, ncpu, vals, run);
    RunNamed(Boot(nproc, ncpu, vals), run);
  }

  /** Threads about to take, release or hand over a lock, or to sleep. */
  predicate Simple(pc: Pc) {
    AfterRelease(pc).Some? || AfterAcquire(pc).Some? || AfterSwitch(pc).Some? || pc.MonHeld? || pc.MonBoth?
  }

  lemma SimpleMoves(s: S, c: nat, p: nat) returns (a: Step)
    requires Stacks(s) && Locked(s) && LockNames(s) && Runs(s, c, p) && Simple(s.procs[p].pc)
    ensures WaitsPt(s, c) || Moves(s, c, a)
  {
    var pc := s.procs[p].pc;
    assert s.procs[p].on == Some(c) && PcNames(pc, |s.mons|);
    if AfterRelease(pc).Some? {
      a := DoReleasePt(c, p);
    } else if AfterAcquire(pc).Some? {
      a := DoAcquirePt(c, p);
      WantsPt(pc);
    } else if AfterSwitch(pc).Some? {
      a := DoSwitch(c, p);
    } else {
      a := DoReleaseLk(c, p, pc.l);
    }
  }

  lemma WantsPt(pc: Pc)
    requires AfterAcquire(pc).Some?
    ensures !HoldsPt(pc)
  {
  }

  /** Threads inside yield, sleep or wakeup, or outside everything. */
  predicate Plain(pc: Pc) {
    pc == At(Run) || pc.YieldHeld? || pc.WaitNone? || pc.WaitBack? || pc.MonGo? || pc.MonBack? || pc.MonWakeBoth?
  }

  lemma PlainMoves(s: S, c: nat, p: nat) returns (a: Step)
    requires LockNames(s) && Runs(s, c, p) && Plain(s.procs[p].pc)
    ensures Moves(s, c, a)
  {
    var pc := s.procs[p].pc;
    assert PcNames(pc, |s.mons|);
    if pc == At(Run) {
      a := DoStart(c, p, WaitWant);
    } else if pc.MonWakeBoth? {
      a := DoWake(c, p);
    } else {
      a := DoGo(c, p);
    }
  }

  /** Threads that want a spin lock. */
  lemma LkMoves(s: S, c: nat, p: nat, l: nat) returns (a: Step)
    requires Locked(s) && LockNames(s) && Named(s) && Runs(s, c, p) && s.procs[p].pc == At(MonWant(l))
    ensures Blocked(s, c) || Moves(s, c, a)
  {
    assert PcNames(s.procs[p].pc, |s.mons|);
    a := DoAcquireLk(c, p, l);
    if s.mons[l].held.Some? {
      assert !HoldsLk(s.procs[p].pc, l);
      assert WaitsLk(s, c, l, s.mons[l].held.value);
    }
  }

  lemma {:induction false} PidAt(procs: seq<Proc>, pid: nat, from: nat) returns (k: nat)
    requires from <= |procs| && forall i :: 0 <= i < from ==> procs[i].pid != pid
    ensures FirstPid(procs, pid, k)
    decreases |procs| - from
  {
    if from == |procs| || procs[from].pid == pid {
      k := from;
    } else {
      k := PidAt(procs, pid, from + 1);
    }
  }

  /** Threads inside exit, wait, kill and fork. */
  lemma TableMoves(s: S, c: nat, p: nat) returns (a: Step)
    requires Forks(s) && Runs(s, c, p) && OnCpu(s.procs[p].pc) && !Simple(s.procs[p].pc) && !Plain(s.procs[p].pc)
    requires !(s.procs[p].pc.At? && s.procs[p].pc.spot.MonWant?)
    ensures Moves(s, c, a)
  {
    var pc := s.procs[p].pc;
    if pc.ExitHeld? {
      a := DoExit(c, p);
    } else if pc.WaitHeld? {
      a := WaitMoves(s, c, p);
    } else if pc.KillHeld? {
      a := KillMoves(s, c, p);
    } else if pc.ForkHeld? {
      a := AllocMoves(s, c, p);
    } else {
      assert Making(pc).Some?;
      a := DoFork(c, p);
    }
  }

  lemma KillMoves(s: S, c: nat, p: nat) returns (a: Step)
    requires Runs(s, c, p) && s.procs[p].pc.KillHeld?
    ensures Moves(s, c, a)
  {
    var k := PidAt(s.procs, s.procs[p].pc.pid, 0);
    a := DoKill(c, p, k);
  }

  lemma WaitMoves(s: S, c: nat, p: nat) returns (a: Step)
    requires Runs(s, c, p) && s.procs[p].pc == WaitHeld
    ensures Moves(s, c, a)
  {
    if HasZombie(s.procs, p) {
      var q :| 0 <= q < |s.procs| && s.procs[q].parent == Some(p) && s.procs[q].state == ZOMBIE;
      a := DoReap(c, p, q);
    } else {
      a := DoEndWait(c, p);
    }
  }

  lemma AllocMoves(s: S, c: nat, p: nat) returns (a: Step)
    requires Runs(s, c, p) && s.procs[p].pc == ForkHeld
    ensures Moves(s, c, a)
  {
    if i: nat :| i < |s.procs| && s.procs[i].state == UNUSED {
      a := DoAlloc(c, p, i);
    } else {
      a := DoGo(c, p);
    }
  }

  lemma SchedulerMoves(s: S, c: nat) returns (a: Step)
    requires Scheduling(s, c)
    ensures WaitsPt(s, c) || Moves(s, c, a)
  {
    a := if s.pt == None then DoSchedAcquire(c) else if s.cpus[c].proc == None then DoSchedRelease(c) else DoSchedClear(c);
  }

  /** In every reachable state every CPU has a step to take, unless it spins for a
      lock that somebody else has. */
  lemma Progress(s: S, c: nat) returns (a: Step)
    requires Reachable(s) && IsCpu(s, c)
    ensures Blocked(s, c) || Moves(s, c, a)
  {
    ReachableInv(s);
    ReachableNamed(s);
    if s.cpus[c].stack == None {
      a := SchedulerMoves(s, c);
    } else {
      var p := s.cpus[c].stack.value;
      assert Runs(s, c, p) && OnCpu(s.procs[p].pc);
      if Simple(s.procs[p].pc) {
        a := SimpleMoves(s, c, p);
      } else if Plain(s.procs[p].pc) {
        a := PlainMoves(s, c, p);
      } else if s.procs[p].pc.At? && s.procs[p].pc.spot.MonWant? {
        a := LkMoves(s, c, p, s.procs[p].pc.spot.l);
      } else {
        a := TableMoves(s, c, p);
      }
    }
  }

  /** Who has ptable.lock does not wait. */
  lemma PtHolderMoves(s: S, c: nat) returns (d: nat, a: Step)
    requires Reachable(s) && WaitsPt(s, c)
    ensures IsCpu(s, d) && Moves(s, d, a)
  {
    ReachableInv(s);
    d := s.pt.value;
    a := Progress(s, d);
    PtHolderFree(s, d);
  }

  lemma PtHolderFree(s: S, d: nat)
    requires Stacks(s) && Locked(s) && s.pt == Some(d)
    ensures IsCpu(s, d) && !Blocked(s, d)
  {
    if s.cpus[d].stack.Some? {
      var p := s.cpus[d].stack.value;
      assert s.procs[p].on == Some(d) && HoldsPt(s.procs[p].pc);
      if AfterAcquire(s.procs[p].pc).Some? {
        WantsPt(s.procs[p].pc);
      }
    }
  }

  /** There is no deadlock: whatever CPU c waits for, some CPU has a step to take. */
  lemma NoDeadlock(s: S, c: nat) returns (d: nat, a: Step)
    requires Reachable(s) && IsCpu(s, c)
    ensures IsCpu(s, d) && Moves(s, d, a)
  {
    a := Progress(s, c);
    d := c;
    if !Moves(s, c, a) {
      if WaitsPt(s, c) {
        d, a := PtHolderMoves(s, c);
      } else {
        var l: nat, q: nat :| WaitsLk(s, c, l, q);
        d, a := LkHolderMoves(s, c, l, q);
      }
    }
  }

  /** Who has a spin lock waits for ptable.lock at most. */
  lemma LkHolderMoves(s: S, c: nat, l: nat, q: nat) returns (d: nat, a: Step)
    requires Reachable(s) && WaitsLk(s, c, l, q)
    ensures IsCpu(s, d) && Moves(s, d, a)
  {
    ReachableInv(s);
    LkHolderRuns(s, l, q);
    d := s.procs[q].on.value;
    a := Progress(s, d);
    if WaitsPt(s, d) {
      d, a := PtHolderMoves(s, d);
    }
  }

  lemma LkHolderRuns(s: S, l: nat, q: nat)
    requires Stacks(s) && Locked(s) && IsProc(s, q) && l < |s.mons| && s.mons[l].held == Some(q)
    ensures s.procs[q].on.Some? && IsCpu(s, s.procs[q].on.value)
    ensures Blocked(s, s.procs[q].on.value) ==> WaitsPt(s, s.procs[q].on.value)
  {
    assert HoldsLk(s.procs[q].pc, l) && OnCpu(s.procs[q].pc);
    assert s.cpus[s.procs[q].on.value].stack == Some(q);
  }

  // ---- What a thread may choose ----

  /** Outside all locks a thread may be interrupted, and may turn to whatever the
      kernel offers; init does not exit, nor who holds a sleep-lock. */
  lemma MayChoose(s: S, c: nat, p: nat, l: nat, pid: nat)
    requires Runs(s, c, p) && s.procs[p].pc.At?
    ensures Enabled(s, DoPreempt(c, p))
    ensures s.procs[p].pc == At(Run) ==>
              && Enabled(s, DoStart(c, p, WaitWant)) && Enabled(s, DoStart(c, p, ForkWant))
              && Enabled(s, DoStart(c, p, KillWant(pid))) && (Enabled(s, DoStart(c, p, MonWant(l))) <==> l < |s.mons|)
              && (Enabled(s, DoStart(c, p, ExitWant)) <==> p != s.init && s.procs[p].mine == {})
  {
  }

  /** Inside a monitor it may change the value, call wakeup on any channel, and
      sleep where it finds the condition; a sleep-lock can be taken if it is free
      and released by who holds it. */
  lemma MayAct(s: S, c: nat, p: nat, l: nat, x: nat, v: Val)
    requires Runs(s, c, p) && s.procs[p].pc == MonHeld(l) && l < |s.mons|
    ensures Enabled(s, DoCall(c, p, l, x)) && (Enabled(s, DoDoze(c, p, l, x)) <==> x in Waits(s.mons[l].val))
    ensures Enabled(s, DoChange(c, p, l, v)) <==> !s.mons[l].val.LockVal? && !v.LockVal?
    ensures Enabled(s, DoTake(c, p, l)) <==> s.mons[l].val == LockVal(false)
    ensures Enabled(s, DoUnlock(c, p, l)) <==> s.mons[l].val.LockVal? && l in s.procs[p].mine
  {
  }
}
