/** Which code keeps the rule for monitors: all of it but a pipewrite that gives
    up. */
module CodeShapes {
  import opened Params
  import opened Monitors
  import opened MonitorActs
  import opened MonitorSteps

  lemma {:induction false} PutsInner(v: Val, k: nat)
    requires v.PipeVal?
    ensures Inner(Puts(v, k)) && forall x :: Notify(x) !in Puts(v, k)
  {
    if k > 0 {
      PutsInner(v, k - 1);
    }
  }

  lemma {:induction false} GetsInner(v: Val, k: nat)
    requires v.PipeVal?
    ensures Inner(Gets(v, k)) && forall x :: Notify(x) !in Gets(v, k)
  {
    if k > 0 {
      GetsInner(v, k - 1);
    }
  }

  lemma WriteWhole(v: Val, n: nat, killed: bool)
    requires PipeOk(v)
    ensures Whole(v, WriteActs(v, n, killed))
    ensures Notify(NREAD) !in WriteActs(v, n, killed) <==> (killed || !v.readopen) && n > PIPESIZE - Filled(v)
  {
    var k, acts := Min(n, PIPESIZE - Filled(v)), WriteActs(v, n, killed);
    PutsInner(v, k);
    if n <= PIPESIZE - Filled(v) {
      assert acts[..|acts| - 1] == Puts(v, k) + [Notify(NREAD)] && acts[|acts| - 2] == Notify(NREAD);
    } else if !v.readopen || killed {
      assert acts[..|acts| - 1] == Puts(v, k);
    } else {
      assert acts[..|acts| - 1] == Puts(v, k) + [Notify(NREAD)] && acts[|acts| - 2] == Notify(NREAD);
      PutsPlay(v, k);
      PlayOn(Inside(v, {}), Puts(v, k), Notify(NREAD));
      WroteFills(v, k);
      PipeWaits(Wrote(v, k));
    }
  }

  lemma ReadWhole(v: Val, n: nat, killed: bool)
    requires PipeOk(v)
    ensures Whole(v, ReadActs(v, n, killed))
    ensures Notify(NWRITE) in ReadActs(v, n, killed) <==> !(Filled(v) == 0 && v.writeopen)
  {
    var acts := ReadActs(v, n, killed);
    if Filled(v) == 0 && v.writeopen {
      PipeWaits(v);
    } else {
      GetsInner(v, Min(n, Filled(v)));
      assert acts[..|acts| - 1] == Gets(v, Min(n, Filled(v))) + [Notify(NWRITE)] && acts[|acts| - 2] == Notify(NWRITE);
    }
  }

  lemma CloseWhole(v: Val, writable: bool)
    requires PipeOk(v)
    ensures Whole(v, CloseActs(v, writable))
  {
  }

  lemma LogWhole(v: Val)
    requires v.LogVal?
    ensures Whole(v, BeginActs(v)) && Whole(v, EndActs(v)) && Whole(v, CommittedActs(v))
  {
  }
}

module MonitorTheorems {
  import opened Params
  import opened Monitors
  import opened MonitorActs
  import opened ProcState
  import opened ProcSteps
  import opened ProcMachine
  import opened ProcRuns
  import opened MonitorSteps
  import opened MonitorRuns
  import opened CodeShapes

  /** acquire, and what is done inside the monitor. */
  function CodeRun(c: nat, p: nat, l: nat, acts: seq<Act>): seq<Step> {
    [DoAcquireLk(c, p, l)] + CodeSteps(c, p, l, acts)
  }

  /** p is about to take the lock of monitor l, which is free. */
  ghost predicate AtDoor(s: S, c: nat, p: nat, l: nat) {
    Reachable(s) && Enabled(s, DoAcquireLk(c, p, l)) && s.pt == None
  }

  predicate Asleep(r: Proc, l: nat, x: nat) {
    r.state == SLEEPING && r.chan == Cond(l, x)
  }

  /** Code under a lock is a run of the machine: its changes and wakeups come out
      as played, those asleep on a channel it does not notify sleep on, and it
      keeps the rule exactly when it leaves no wakeup due. */
  lemma CodeRuns(s: S, keep: set<nat>, c: nat, p: nat, l: nat, acts: seq<Act>)
    requires AtDoor(s, c, p, l) && !s.mons[l].val.LockVal? && Whole(s.mons[l].val, acts)
    ensures var run, m := CodeRun(c, p, l, acts), Play(Inside(s.mons[l].val, {}), acts);
            && Runnable(s, run) && |End(s, run).procs| == |s.procs| && |End(s, run).mons| == |s.mons|
            && End(s, run).mons[l] == Monitor(None, m.val, {})
            && (Obeys(s, run, keep) <==> (l in keep ==> m.owed == {}))
            && forall q: nat, x: nat :: IsProc(s, q) && q != p && Asleep(s.procs[q], l, x) ==>
                 (Asleep(End(s, run).procs[q], l, x) <==> Notify(x) !in acts)
  {
    ReachableInv(s);
    assert StateFits(s.procs[p], p);
    EnterLeads(s, keep, c, p, l);
    var t := AcquireLk(s, c, p, l);
    WholeLeads(s, [DoAcquireLk(c, p, l)], t, keep, c, p, l, acts);
    var u := AfterInner(t, l, acts[..|acts| - 1]);
    CodeEnds(s, t, u, c, p, l, acts);
  }

  lemma CodeEnds(s: S, t: S, u: S, c: nat, p: nat, l: nat, acts: seq<Act>)
    requires CanAcquireLk(s, c, p, l) && t == AcquireLk(s, c, p, l) && Whole(s.mons[l].val, acts)
    requires u == AfterInner(t, l, acts[..|acts| - 1]) && InMonitor(u, c, p, l)
    ensures var e := AfterAct(u, c, p, l, acts[|acts| - 1]);
            && |e.procs| == |s.procs| && |e.mons| == |s.mons|
            && e.mons[l] == Monitor(None, Play(Inside(s.mons[l].val, {}), acts).val, {})
            && forall q: nat, x: nat :: IsProc(s, q) && q != p && Asleep(s.procs[q], l, x) ==>
                 (Asleep(e.procs[q], l, x) <==> Notify(x) !in acts)
  {
    var e, before := AfterAct(u, c, p, l, acts[|acts| - 1]), acts[..|acts| - 1];
    assert acts == before + [acts[|acts| - 1]];
    forall q: nat, x: nat | IsProc(s, q) && q != p && Asleep(s.procs[q], l, x)
      ensures Asleep(e.procs[q], l, x) <==> Notify(x) !in acts
    {
      NotifiedAt(t.procs, l, before, q);
      assert e.procs[q] == u.procs[q] && t.procs[q] == s.procs[q];
    }
  }

  lemma WriteSettles(v: Val, n: nat, killed: bool)
    requires PipeOk(v)
    ensures var m := Play(Inside(v, {}), WriteActs(v, n, killed));
            m.val == Wrote(v, Min(n, PIPESIZE - Filled(v))) && (m.owed == {} <==> !Forgets(v, n, killed))
  {
    WriteOwes(v, n, killed);
  }

  /** pipewrite of n bytes keeps the rule, and wakes who sleeps in piperead, but
      for the one case: it can tell beforehand from the pipe, from n and from
      whether it has been killed. */
  lemma PipewriteRuns(s: S, keep: set<nat>, c: nat, p: nat, l: nat, n: nat)
    requires AtDoor(s, c, p, l) && PipeOk(s.mons[l].val)
    ensures var v, killed := s.mons[l].val, s.procs[p].killed;
            var run := CodeRun(c, p, l, WriteActs(v, n, killed));
            && Runnable(s, run) && |End(s, run).procs| == |s.procs| && |End(s, run).mons| == |s.mons|
            && End(s, run).mons[l] == Monitor(None, Wrote(v, Min(n, PIPESIZE - Filled(v))), {})
            && (Obeys(s, run, keep) <==> !(l in keep && Forgets(v, n, killed)))
            && forall q: nat :: IsProc(s, q) && q != p && Asleep(s.procs[q], l, NREAD) ==>
                 (Asleep(End(s, run).procs[q], l, NREAD) <==> (killed || !v.readopen) && n > PIPESIZE - Filled(v))
  {
    var v, killed := s.mons[l].val, s.procs[p].killed;
    WriteWhole(v, n, killed);
    WriteSettles(v, n, killed);
    CodeRuns(s, keep, c, p, l, WriteActs(v, n, killed));
  }

  /** piperead and pipeclose keep it always ... */
  lemma PipereadRuns(s: S, keep: set<nat>, c: nat, p: nat, l: nat, n: nat)
    requires AtDoor(s, c, p, l) && PipeOk(s.mons[l].val)
    ensures var v := s.mons[l].val;
            var run := CodeRun(c, p, l, ReadActs(v, n, s.procs[p].killed));
            && Runnable(s, run) && |End(s, run).procs| == |s.procs| && |End(s, run).mons| == |s.mons|
            && End(s, run).mons[l] == Monitor(None, if Filled(v) == 0 then v else Took(v, Min(n, Filled(v))), {})
            && Obeys(s, run, keep)
            && forall q: nat :: IsProc(s, q) && q != p && Asleep(s.procs[q], l, NWRITE) ==>
                 (Asleep(End(s, run).procs[q], l, NWRITE) <==> Filled(v) == 0 && v.writeopen)
  {
    var v, killed := s.mons[l].val, s.procs[p].killed;
    ReadWhole(v, n, killed);
    ReadOwes(v, n, killed);
    CodeRuns(s, keep, c, p, l, ReadActs(v, n, killed));
  }

  lemma PipecloseRuns(s: S, keep: set<nat>, c: nat, p: nat, l: nat, writable: bool)
    requires AtDoor(s, c, p, l) && PipeOk(s.mons[l].val)
    ensures var run := CodeRun(c, p, l, CloseActs(s.mons[l].val, writable));
            && Runnable(s, run) && |End(s, run).procs| == |s.procs| && Obeys(s, run, keep)
            && forall q: nat :: IsProc(s, q) && q != p && Asleep(s.procs[q], l, if writable then NREAD else NWRITE) ==>
                 !Asleep(End(s, run).procs[q], l, if writable then NREAD else NWRITE)
  {
    CloseWhole(s.mons[l].val, writable);
    CloseOwes(s.mons[l].val, writable);
    CodeRuns(s, keep, c, p, l, CloseActs(s.mons[l].val, writable));
  }

  /** ... and so do begin_op and both halves of end_op. */
  lemma LogRuns(s: S, keep: set<nat>, c: nat, p: nat, l: nat, acts: seq<Act>)
    requires AtDoor(s, c, p, l) && s.mons[l].val.LogVal?
    requires var v := s.mons[l].val; acts == BeginActs(v) || acts == EndActs(v) || acts == CommittedActs(v)
    ensures var run := CodeRun(c, p, l, acts);
            && Runnable(s, run) && |End(s, run).mons| == |s.mons| && Obeys(s, run, keep)
            && End(s, run).mons[l] == Monitor(None, Play(Inside(s.mons[l].val, {}), acts).val, {})
  {
    var v := s.mons[l].val;
    LogWhole(v);
    BeginOwes(v);
    EndOwes(v);
    CommittedOwes(v);
    CodeRuns(s, keep, c, p, l, acts);
  }

  // ---- What others do meanwhile ----

  lemma Ownership(s: S, l: nat, p: nat)
    requires Locked(s) && States(s) && Owns(s, l, p)
    ensures s.procs[p].state == RUNNING && !s.procs[p].pc.Unborn?
    ensures forall q: nat :: IsProc(s, q) && q != p ==> !HoldsLk(s.procs[q].pc, l)
  {
    assert HoldsLk(s.procs[p].pc, l) && StateFits(s.procs[p], p);
  }

  lemma OtherLocks(s: S, a: Step, l: nat, p: nat)
    requires Locked(s) && States(s) && Enabled(s, a) && (a.DoAcquireLk? || a.DoReleaseLk? || a.DoPick?) && !By(a, p) && Owns(s, l, p)
    ensures Untouched(s, Do(s, a), l, p)
  {
    Ownership(s, l, p);
  }

  lemma OtherMoves(s: S, a: Step, l: nat, p: nat)
    requires Enabled(s, a) && IsLockStep(a) && !(a.DoAcquireLk? || a.DoReleaseLk? || a.DoPick?) && !By(a, p) && Owns(s, l, p)
    ensures Untouched(s, Do(s, a), l, p)
  {
  }

  lemma OtherWakes(s: S, a: Step, l: nat, p: nat)
    requires Locked(s) && States(s) && Enabled(s, a) && a.DoWake? && !By(a, p) && Owns(s, l, p)
    ensures Untouched(s, Do(s, a), l, p)
  {
    Ownership(s, l, p);
    assert HoldsLk(s.procs[a.p].pc, s.procs[a.p].pc.l);
  }

  lemma OtherMons(s: S, a: Step, l: nat, p: nat)
    requires Locked(s) && States(s) && Enabled(s, a) && IsMonStep(a) && !a.DoWake? && !By(a, p) && !(a.DoDrift? && a.l == l)
    requires Owns(s, l, p)
    ensures Untouched(s, Do(s, a), l, p)
  {
    Ownership(s, l, p);
    if !a.DoDrift? {
      assert HoldsLk(s.procs[a.p].pc, a.l);
    }
  }

  lemma OtherExits(s: S, a: Step, l: nat, p: nat)
    requires Enabled(s, a) && a.DoExit? && !By(a, p) && Owns(s, l, p)
    ensures Untouched(s, Do(s, a), l, p)
  {
    assert ExitTable(s.procs, a.p, s.init)[p].pc == s.procs[p].pc;
  }

  lemma OtherWaits(s: S, a: Step, l: nat, p: nat)
    requires Locked(s) && States(s) && Enabled(s, a) && (a.DoReap? || a.DoEndWait? || a.DoKill?) && !By(a, p) && Owns(s, l, p)
    ensures Untouched(s, Do(s, a), l, p)
  {
    Ownership(s, l, p);
  }

  lemma OtherAllocs(s: S, a: Step, l: nat, p: nat)
    requires Locked(s) && States(s) && Enabled(s, a) && a.DoAlloc? && !By(a, p) && Owns(s, l, p)
    ensures Untouched(s, Do(s, a), l, p)
  {
    Ownership(s, l, p);
  }

  lemma OtherForks(s: S, a: Step, l: nat, p: nat)
    requires Locked(s) && States(s) && Forks(s) && Enabled(s, a) && a.DoFork? && !By(a, p) && Owns(s, l, p)
    ensures Untouched(s, Do(s, a), l, p)
  {
    Ownership(s, l, p);
    NotMaking(s, a.p, p);
  }

  lemma OtherUndoes(s: S, a: Step, l: nat, p: nat)
    requires Locked(s) && States(s) && Forks(s) && Enabled(s, a) && a.DoUndoFork? && !By(a, p) && Owns(s, l, p)
    ensures Untouched(s, Do(s, a), l, p)
  {
    Ownership(s, l, p);
    NotMaking(s, a.p, p);
  }

  /** A process that has begun is no entry a fork is filling in. */
  lemma NotMaking(s: S, q: nat, p: nat)
    requires Forks(s) && IsProc(s, q) && IsProc(s, p) && !s.procs[p].pc.Unborn?
    ensures Making(s.procs[q].pc) != Some(p)
  {
  }

  /** While a process holds the lock of a monitor nobody else's step moves it, or
      changes the monitor, but for commit's changes that end no condition: what
      the others do between its own steps does not matter. */
  lemma HolderAlone(s: S, a: Step, l: nat, p: nat)
    requires Reachable(s) && Enabled(s, a) && !By(a, p) && !(a.DoDrift? && a.l == l) && Owns(s, l, p)
    ensures Untouched(s, Do(s, a), l, p)
  {
    ReachableInv(s);
    if a.DoAcquireLk? || a.DoReleaseLk? || a.DoPick? {
      OtherLocks(s, a, l, p);
    } else if IsLockStep(a) {
      OtherMoves(s, a, l, p);
    } else if a.DoWake? {
      OtherWakes(s, a, l, p);
    } else if IsMonStep(a) {
      OtherMons(s, a, l, p);
    } else if a.DoExit? {
      OtherExits(s, a, l, p);
    } else if a.DoAlloc? {
      OtherAllocs(s, a, l, p);
    } else if a.DoFork? {
      OtherForks(s, a, l, p);
    } else if a.DoUndoFork? {
      OtherUndoes(s, a, l, p);
    } else {
      OtherWaits(s, a, l, p);
    }
  }
}
