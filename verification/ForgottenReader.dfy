/** A run from boot after which a reader sleeps on a full pipe. */
module ForgottenReader {
  import opened Params
  import opened Monitors
  import opened MonitorActs
  import opened ProcState
  import opened ProcSteps
  import opened ProcMachine
  import opened MonitorSteps
  import opened MonitorRuns
  import opened MonitorTheorems

  lemma RunOn(s: S, more: seq<Step>)
    requires Reachable(s) && Runnable(s, more)
    ensures Reachable(End(s, more))
  {
    var nproc: nat, ncpu: nat, vals: seq<Val>, run: seq<Step> :| ReachedBy(s, nproc, ncpu, vals, run);
    Joined(Boot(nproc, ncpu, vals), run, more);
    assert ReachedBy(End(s, more), nproc, ncpu, vals, run + more);
  }

  lemma StepOn(s: S, a: Step, t: S)
    requires Reachable(s) && StepTo(s, a, t)
    ensures Reachable(t)
  {
    var nproc: nat, ncpu: nat, vals: seq<Val>, run: seq<Step> :| ReachedBy(s, nproc, ncpu, vals, run);
    Then(Boot(nproc, ncpu, vals), run, a);
    assert ReachedBy(t, nproc, ncpu, vals, run + [a]);
  }

  lemma Takes(s: S, c: nat, p: nat, t: S)
    requires Reachable(s) && CanAcquirePt(s, c, p) && t == AcquirePt(s, c, p)
    ensures Reachable(t)
  {
    StepOn(s, DoAcquirePt(c, p), t);
  }

  lemma Drops(s: S, c: nat, p: nat, t: S)
    requires Reachable(s) && CanReleasePt(s, c, p) && t == ReleasePt(s, c, p)
    ensures Reachable(t)
  {
    StepOn(s, DoReleasePt(c, p), t);
  }

  lemma Starts(s: S, c: nat, p: nat, spot: Spot, t: S)
    requires Reachable(s) && CanStart(s, c, p, spot) && t == Start(s, c, p, spot)
    ensures Reachable(t)
  {
    StepOn(s, DoStart(c, p, spot), t);
  }

  lemma Forks(s: S, c: nat, p: nat, t: S)
    requires Reachable(s) && CanFork(s, c, p) && t == Fork(s, c, p)
    ensures Reachable(t)
  {
    StepOn(s, DoFork(c, p), t);
  }

  lemma Allocs(s: S, c: nat, p: nat, i: nat, t: S)
    requires Reachable(s) && CanAlloc(s, c, p, i) && t == Alloc(s, c, p, i)
    ensures Reachable(t)
  {
    StepOn(s, DoAlloc(c, p, i), t);
  }

  lemma Picks(s: S, c: nat, q: nat, t: S)
    requires Reachable(s) && CanPick(s, c, q) && t == SchedPick(s, c, q)
    ensures Reachable(t)
  {
    StepOn(s, DoPick(c, q), t);
  }

  // ---- One CPU, one pipe, init and its child ----

  /** init, on the CPU or not yet. */
  function Init(pc: Pc): Proc {
    if pc == Entry then Proc(RUNNABLE, NoChan, None, true, false, 1, Entry, None, {})
    else Proc(RUNNING, NoChan, None, true, false, 1, pc, Some(0), {})
  }

  /** init, asleep in piperead. */
  const READER := Proc(SLEEPING, Cond(0, NREAD), None, true, false, 1, MonParked(0, NREAD), None, {})

  function Entry1(state: PState, parent: Option<nat>, kstack: bool, pid: nat, pc: Pc): Proc {
    Proc(state, NoChan, parent, kstack, false, pid, pc, None, {})
  }

  /** The child, on the CPU. */
  function Child(killed: bool, pc: Pc): Proc {
    Proc(RUNNING, NoChan, Some(0), true, killed, 2, pc, Some(0), {})
  }

  function At2(r: Proc, q: Proc, on: Option<nat>, pt: Option<nat>, nextpid: nat): S {
    S([r, q], [Cpu(on, on)], [Monitor(None, PipeVal(0, 0, true, true), {})], pt, 0, nextpid, {})
  }

  const FREE := Entry1(UNUSED, None, false, 0, Unborn)
  const BORN := Entry1(RUNNABLE, Some(0), true, 2, Entry)

  lemma Booted()
    ensures Reachable(At2(Init(Entry), FREE, None, None, 2))
  {
    var s := Boot(2, 1, [PipeVal(0, 0, true, true)]);
    assert s.procs == [Init(Entry), FREE] && s.cpus == [Cpu(None, None)];
    assert s.mons == [Monitor(None, PipeVal(0, 0, true, true), {})];
    assert ReachedBy(s, 2, 1, [PipeVal(0, 0, true, true)], []);
  }

  lemma Update(r: Proc, q: Proc, x: Proc)
    ensures [r, q][0 := x] == [x, q] && [r, q][1 := x] == [r, x]
  {
  }

  /** init takes ptable.lock, ... */
  lemma InitTakes(q: Proc, a: Pc, b: Pc, nextpid: nat)
    requires Reachable(At2(Init(a), q, Some(0), None, nextpid)) && AfterAcquire(a) == Some(b)
    ensures Reachable(At2(Init(b), q, Some(0), Some(0), nextpid))
  {
    InitTaking(q, a, b, nextpid);
    Takes(At2(Init(a), q, Some(0), None, nextpid), 0, 0, At2(Init(b), q, Some(0), Some(0), nextpid));
  }

  lemma InitTaking(q: Proc, a: Pc, b: Pc, nextpid: nat)
    requires AfterAcquire(a) == Some(b)
    ensures var s := At2(Init(a), q, Some(0), None, nextpid);
            CanAcquirePt(s, 0, 0) && AcquirePt(s, 0, 0) == At2(Init(b), q, Some(0), Some(0), nextpid)
  {
    Update(Init(a), q, Init(b));
  }

  /** ... releases it, ... */
  lemma InitDrops(q: Proc, a: Pc, b: Pc, nextpid: nat)
    requires Reachable(At2(Init(a), q, Some(0), Some(0), nextpid)) && AfterRelease(a) == Some(b)
    ensures Reachable(At2(Init(b), q, Some(0), None, nextpid))
  {
    InitDropping(q, a, b, nextpid);
    Drops(At2(Init(a), q, Some(0), Some(0), nextpid), 0, 0, At2(Init(b), q, Some(0), None, nextpid));
  }

  lemma InitDropping(q: Proc, a: Pc, b: Pc, nextpid: nat)
    requires AfterRelease(a) == Some(b)
    ensures var s := At2(Init(a), q, Some(0), Some(0), nextpid);
            CanReleasePt(s, 0, 0) && ReleasePt(s, 0, 0) == At2(Init(b), q, Some(0), None, nextpid)
  {
    Update(Init(a), q, Init(b));
  }

  /** ... sets out to do something, ... */
  lemma InitStarts(q: Proc, spot: Spot, nextpid: nat)
    requires Reachable(At2(Init(At(Run)), q, Some(0), None, nextpid)) && (spot == ForkWant || spot == MonWant(0))
    ensures Reachable(At2(Init(At(spot)), q, Some(0), None, nextpid))
  {
    Update(Init(At(Run)), q, Init(At(spot)));
    Starts(At2(Init(At(Run)), q, Some(0), None, nextpid), 0, 0, spot, At2(Init(At(spot)), q, Some(0), None, nextpid));
  }

  /** ... and goes on with its fork. */
  lemma InitForks(a: Pc, e: Proc, b: Pc, f: Proc, pt: Option<nat>)
    requires Reachable(At2(Init(a), e, Some(0), pt, 3)) && Making(a) == Some(1) && ForkOn(a, e, 0) == Some((f, b)) && b != Entry
    ensures Reachable(At2(Init(b), f, Some(0), pt, 3))
  {
    Update(Init(a), e, f);
    Update(Init(a), f, Init(b));
    Forks(At2(Init(a), e, Some(0), pt, 3), 0, 0, At2(Init(b), f, Some(0), pt, 3));
  }

  /** The scheduler runs init, which calls fork ... */
  lemma InitRuns()
    ensures Reachable(At2(Init(ForkRet), FREE, Some(0), Some(0), 2))
  {
    Booted();
    var s := At2(Init(Entry), FREE, None, None, 2);
    StepOn(s, DoSchedAcquire(0), SchedAcquire(s, 0));
    InitPicked();
    Picks(At2(Init(Entry), FREE, None, Some(0), 2), 0, 0, At2(Init(ForkRet), FREE, Some(0), Some(0), 2));
  }

  lemma InitPicked()
    ensures var s := At2(Init(Entry), FREE, None, Some(0), 2);
            CanPick(s, 0, 0) && SchedPick(s, 0, 0) == At2(Init(ForkRet), FREE, Some(0), Some(0), 2)
  {
    Update(Init(Entry), FREE, Init(ForkRet));
  }

  lemma ForkCalled()
    ensures Reachable(At2(Init(At(ForkWant)), FREE, Some(0), None, 2))
  {
    InitRuns();
    InitDrops(FREE, ForkRet, At(Run), 2);
    InitStarts(FREE, ForkWant, 2);
  }

  const EMBRYO0 := Entry1(EMBRYO, None, false, 2, Unborn)
  const EMBRYO1 := Entry1(EMBRYO, None, true, 2, Unborn)
  const EMBRYO2 := Entry1(EMBRYO, Some(0), true, 2, Unborn)

  /** ... and takes the second entry ... */
  lemma EntryTaken()
    ensures Reachable(At2(Init(ForkGot(1)), EMBRYO0, Some(0), Some(0), 3))
  {
    ForkCalled();
    InitTakes(FREE, At(ForkWant), ForkHeld, 2);
    InitAllocs();
  }

  lemma InitAllocs()
    requires Reachable(At2(Init(ForkHeld), FREE, Some(0), Some(0), 2))
    ensures Reachable(At2(Init(ForkGot(1)), EMBRYO0, Some(0), Some(0), 3))
  {
    InitAllocating();
    Allocs(At2(Init(ForkHeld), FREE, Some(0), Some(0), 2), 0, 0, 1, At2(Init(ForkGot(1)), EMBRYO0, Some(0), Some(0), 3));
  }

  lemma InitAllocating()
    ensures var s := At2(Init(ForkHeld), FREE, Some(0), Some(0), 2);
            CanAlloc(s, 0, 0, 1) && Alloc(s, 0, 0, 1) == At2(Init(ForkGot(1)), EMBRYO0, Some(0), Some(0), 3)
  {
    Update(Init(ForkHeld), FREE, EMBRYO0);
    Update(Init(ForkHeld), EMBRYO0, Init(ForkGot(1)));
  }

  /** ... for its child ... */
  lemma StackWanted()
    ensures Reachable(At2(Init(At(ForkStack(1))), EMBRYO0, Some(0), None, 3))
  {
    EntryTaken();
    InitDrops(EMBRYO0, ForkGot(1), At(ForkStack(1)), 3);
  }

  lemma StackMade()
    ensures Reachable(At2(Init(At(ForkCopy(1))), EMBRYO1, Some(0), None, 3))
  {
    StackWanted();
    InitForks(At(ForkStack(1)), EMBRYO0, At(ForkCopy(1)), EMBRYO1, None);
  }

  lemma SpaceCopied()
    ensures Reachable(At2(Init(ForkReady(1)), EMBRYO2, Some(0), Some(0), 3))
  {
    StackMade();
    InitForks(At(ForkCopy(1)), EMBRYO1, At(ForkReadyWant(1)), EMBRYO2, None);
    InitTakes(EMBRYO2, At(ForkReadyWant(1)), ForkReady(1), 3);
  }

  lemma ChildReady()
    ensures Reachable(At2(Init(ForkDone), BORN, Some(0), Some(0), 3))
  {
    SpaceCopied();
    InitForks(ForkReady(1), EMBRYO2, ForkDone, BORN, Some(0));
  }

  lemma ForkEnds()
    ensures Reachable(At2(Init(At(Run)), BORN, Some(0), None, 3))
  {
    ChildReady();
    InitDrops(BORN, ForkDone, At(Run), 3);
  }

  lemma ReadCalled()
    ensures Reachable(At2(Init(At(MonWant(0))), BORN, Some(0), None, 3))
  {
    ForkEnds();
    InitStarts(BORN, MonWant(0), 3);
  }

  const PARKED := S([READER, BORN], [Cpu(Some(0), None)], [Monitor(None, PipeVal(0, 0, true, true), {})], Some(0), 0, 3, {})

  /** ... and falls asleep in piperead. */
  lemma ReaderParks()
    ensures Reachable(PARKED)
  {
    ReadCalled();
    var s := At2(Init(At(MonWant(0))), BORN, Some(0), None, 3);
    var t := AcquireLk(s, 0, 0, 0);
    EnterLeads(s, {}, 0, 0, 0);
    SleepLeads(s, [DoAcquireLk(0, 0, 0)], t, {}, true, 0, 0, 0, NREAD);
    RunOn(s, [DoAcquireLk(0, 0, 0)] + ActSteps(0, 0, 0, Sleep(NREAD)));
    Parked1(s, t);
  }

  lemma Parked1(s: S, t: S)
    requires s == At2(Init(At(MonWant(0))), BORN, Some(0), None, 3) && t == AcquireLk(s, 0, 0, 0)
    ensures AfterAct(t, 0, 0, 0, Sleep(NREAD)) == PARKED
  {
    Update(Init(At(MonWant(0))), BORN, Init(MonHeld(0)));
    Update(Init(MonHeld(0)), BORN, READER);
  }

  lemma ReaderSleeps()
    ensures Reachable(At2(READER, BORN, None, Some(0), 3))
  {
    ReaderParks();
    StepOn(PARKED, DoSchedClear(0), At2(READER, BORN, None, Some(0), 3));
  }

  lemma ChildTakes(k: bool, a: Pc, b: Pc)
    requires Reachable(At2(READER, Child(k, a), Some(1), None, 3)) && AfterAcquire(a) == Some(b)
    ensures Reachable(At2(READER, Child(k, b), Some(1), Some(0), 3))
  {
    Update(READER, Child(k, a), Child(k, b));
    Takes(At2(READER, Child(k, a), Some(1), None, 3), 0, 1, At2(READER, Child(k, b), Some(1), Some(0), 3));
  }

  lemma ChildDrops(k: bool, a: Pc, b: Pc)
    requires Reachable(At2(READER, Child(k, a), Some(1), Some(0), 3)) && AfterRelease(a) == Some(b)
    ensures Reachable(At2(READER, Child(k, b), Some(1), None, 3))
  {
    Update(READER, Child(k, a), Child(k, b));
    Drops(At2(READER, Child(k, a), Some(1), Some(0), 3), 0, 1, At2(READER, Child(k, b), Some(1), None, 3));
  }

  lemma ChildStarts(k: bool, spot: Spot)
    requires Reachable(At2(READER, Child(k, At(Run)), Some(1), None, 3)) && (spot == KillWant(2) || spot == MonWant(0))
    ensures Reachable(At2(READER, Child(k, At(spot)), Some(1), None, 3))
  {
    Update(READER, Child(k, At(Run)), Child(k, At(spot)));
    Starts(At2(READER, Child(k, At(Run)), Some(1), None, 3), 0, 1, spot, At2(READER, Child(k, At(spot)), Some(1), None, 3));
  }

  lemma ChildKilled()
    requires Reachable(At2(READER, Child(false, KillHeld(2)), Some(1), Some(0), 3))
    ensures Reachable(At2(READER, Child(true, KillDone), Some(1), Some(0), 3))
  {
    var s := At2(READER, Child(false, KillHeld(2)), Some(1), Some(0), 3);
    Update(READER, Child(false, KillHeld(2)), Child(true, KillHeld(2)));
    Update(READER, Child(true, KillHeld(2)), Child(true, KillDone));
    assert FirstPid(s.procs, 2, 1);
    StepOn(s, DoKill(0, 1, 1), At2(READER, Child(true, KillDone), Some(1), Some(0), 3));
  }

  lemma ChildRuns()
    ensures Reachable(At2(READER, Child(false, At(Run)), Some(1), None, 3))
  {
    ReaderSleeps();
    Update(READER, BORN, Child(false, ForkRet));
    Picks(At2(READER, BORN, None, Some(0), 3), 0, 1, At2(READER, Child(false, ForkRet), Some(1), Some(0), 3));
    ChildDrops(false, ForkRet, At(Run));
  }

  /** The child is killed ... */
  lemma KillCalled()
    ensures Reachable(At2(READER, Child(false, KillHeld(2)), Some(1), Some(0), 3))
  {
    ChildRuns();
    ChildStarts(false, KillWant(2));
    ChildTakes(false, At(KillWant(2)), KillHeld(2));
  }

  lemma KillEnds()
    ensures Reachable(At2(READER, Child(true, At(Run)), Some(1), None, 3))
  {
    KillCalled();
    ChildKilled();
    ChildDrops(true, KillDone, At(Run));
  }

  /** ... and turns to the pipe. */
  lemma WriterReady()
    ensures Reachable(At2(READER, Child(true, At(MonWant(0))), Some(1), None, 3))
  {
    KillEnds();
    ChildStarts(true, MonWant(0));
  }

  /** A killed process has written more than fits: the pipe is full, its lock is
      free, and the reader sleeps on. */
  lemma ReaderForgotten() returns (s: S)
    ensures Reachable(s) && |s.procs| == 2 && |s.mons| == 1 && s.mons[0].held == None
    ensures s.procs[0].state == SLEEPING && s.procs[0].chan == Cond(0, NREAD)
    ensures PipeOk(s.mons[0].val) && Filled(s.mons[0].val) == PIPESIZE && NREAD !in Waits(s.mons[0].val)
  {
    WriterReady();
    var t := At2(READER, Child(true, At(MonWant(0))), Some(1), None, 3);
    var v := t.mons[0].val;
    PipewriteRuns(t, {}, 0, 1, 0, PIPESIZE + 1);
    var run := CodeRun(0, 1, 0, WriteActs(v, PIPESIZE + 1, true));
    RunOn(t, run);
    s := End(t, run);
    assert Asleep(t.procs[0], 0, NREAD);
    WroteFills(v, PIPESIZE);
    PipeWaits(Wrote(v, PIPESIZE));
  }
}
