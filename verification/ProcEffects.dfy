/** What the steps of the process machine do to the table, field by field. */
module ProcEffects {
  import opened Monitors
  import opened ProcState
  import opened ProcSteps
  import opened ProcMachine

  /** All fields but the state are the same. */
  predicate SameButState(r: Proc, n: Proc) {
    && n.chan == r.chan && n.parent == r.parent && n.kstack == r.kstack && n.killed == r.killed && n.pid == r.pid
    && n.pc == r.pc && n.on == r.on && n.mine == r.mine
  }

  /** The thread is at pc; all else is the same. */
  predicate Moved(r: Proc, n: Proc, pc: Pc) {
    && n.pc == pc && n.state == r.state && n.chan == r.chan && n.parent == r.parent && n.kstack == r.kstack
    && n.killed == r.killed && n.pid == r.pid && n.on == r.on && n.mine == r.mine
  }

  /** The table alone differs, and there only entries p and q. */
  ghost predicate OnlyTwo(s: S, t: S, p: nat, q: nat) {
    && |t.procs| == |s.procs| && t.cpus == s.cpus && t.mons == s.mons && t.pt == s.pt && t.init == s.init
    && forall x: nat :: IsProc(s, x) && x != p && x != q ==> t.procs[x] == s.procs[x]
  }

  /** kill marks the first process with the pid, and makes it RUNNABLE if it
      sleeps, on whatever channel. */
  lemma KillEffect(s: S, c: nat, p: nat, k: nat)
    requires Enabled(s, DoKill(c, p, k))
    ensures var t := Do(s, DoKill(c, p, k));
            && OnlyTwo(s, t, p, k) && t.nextpid == s.nextpid && t.reaped == s.reaped && t.procs[p].pc == KillDone
            && (k != p ==> Moved(s.procs[p], t.procs[p], KillDone))
            && (k < |s.procs| ==>
                  var r, n := s.procs[k], t.procs[k];
                  && r.pid == s.procs[p].pc.pid && (forall j :: 0 <= j < k ==> s.procs[j].pid != s.procs[p].pc.pid)
                  && n.killed && n.state == (if r.state == SLEEPING then RUNNABLE else r.state)
                  && n.chan == r.chan && n.parent == r.parent && n.kstack == r.kstack && n.pid == r.pid
                  && n.on == r.on && n.mine == r.mine && (k != p ==> n.pc == r.pc))
            && (k == |s.procs| ==> forall j :: 0 <= j < |s.procs| ==> s.procs[j].pid != s.procs[p].pc.pid)
  {
  }

  /** wait without an exited child gives up if there is no child or the caller
      has been killed, and goes to sleep otherwise. */
  lemma EndWaitEffect(s: S, c: nat, p: nat)
    requires Enabled(s, DoEndWait(c, p))
    ensures var t := Do(s, DoEndWait(c, p));
            && OnlyTwo(s, t, p, p) && t.nextpid == s.nextpid && t.reaped == s.reaped
            && (t.procs[p].pc == WaitDone || t.procs[p].pc == WaitNone) && Moved(s.procs[p], t.procs[p], t.procs[p].pc)
            && (t.procs[p].pc == WaitDone <==>
                  s.procs[p].killed || forall q: nat :: IsProc(s, q) ==> s.procs[q].parent != Some(p))
  {
  }

  /** yield and sleep, under ptable.lock. */
  lemma SleepEffect(s: S, c: nat, p: nat)
    requires Enabled(s, DoGo(c, p))
    ensures var t, r := Do(s, DoGo(c, p)), s.procs[p];
            var n := t.procs[p];
            && OnlyTwo(s, t, p, p) && t.nextpid == s.nextpid && t.reaped == s.reaped
            && n.parent == r.parent && n.kstack == r.kstack && n.killed == r.killed && n.pid == r.pid
            && n.on == r.on && n.mine == r.mine
            && (r.pc.YieldHeld? ==> n.state == RUNNABLE && n.chan == r.chan && n.pc == YieldSet(r.pc.spot))
            && (r.pc.WaitNone? ==> n.state == SLEEPING && n.chan == Self(p) && n.pc == WaitSet)
            && (r.pc.MonGo? ==> n.state == SLEEPING && n.chan == Cond(r.pc.l, r.pc.c) && n.pc == MonSet(r.pc.l, r.pc.c))
            && (r.pc.WaitBack? ==> n.state == r.state && n.chan == NoChan && n.pc == WaitHeld)
            && (r.pc.MonBack? ==> n.state == r.state && n.chan == NoChan && n.pc == MonTidy(r.pc.l))
  {
  }

  /** Who sleeps on chan is woken when p exits. */
  ghost predicate Roused(procs: seq<Proc>, p: nat, init: nat, chan: Chan)
    requires p < |procs|
  {
    || (procs[p].parent.Some? && chan == Self(procs[p].parent.value))
    || (chan == Self(init) && exists k: nat :: k < |procs| && procs[k].parent == Some(p) && procs[k].state == ZOMBIE)
  }

  lemma ExitedChild(procs: seq<Proc>, a: seq<Proc>, p: nat)
    requires p < |procs| == |a|
    requires a == if procs[p].parent.Some? then Wakeup1(procs, Self(procs[p].parent.value)) else procs
    ensures HasZombie(a, p) <==> exists k: nat :: k < |procs| && procs[k].parent == Some(p) && procs[k].state == ZOMBIE
  {
    if HasZombie(a, p) {
      var k :| 0 <= k < |a| && a[k].parent == Some(p) && a[k].state == ZOMBIE;
      assert procs[k].parent == Some(p) && procs[k].state == ZOMBIE;
    }
    if k: nat :| k < |procs| && procs[k].parent == Some(p) && procs[k].state == ZOMBIE {
      assert a[k] == procs[k];
    }
  }

  /** exit's loop: the children are init's, the parent is awake, and so is init if
      it has got a child that has exited. */
  lemma ExitTableAt(procs: seq<Proc>, p: nat, init: nat, q: nat)
    requires p < |procs| && q < |procs|
    ensures var r, n := procs[q], ExitTable(procs, p, init)[q];
            && n.parent == (if r.parent == Some(p) then Some(init) else r.parent)
            && n.state == (if r.state == SLEEPING && Roused(procs, p, init, r.chan) then RUNNABLE else r.state)
            && n.chan == r.chan && n.kstack == r.kstack && n.killed == r.killed && n.pid == r.pid
            && n.pc == r.pc && n.on == r.on && n.mine == r.mine
  {
    var a := if procs[p].parent.Some? then Wakeup1(procs, Self(procs[p].parent.value)) else procs;
    var b := if HasZombie(a, p) then Wakeup1(a, Self(init)) else a;
    ExitedChild(procs, a, p);
    assert ExitTable(procs, p, init) == Reparent(b, p, init);
  }

  /** exit: that, and the process itself is a ZOMBIE. */
  lemma ExitEffect(s: S, c: nat, p: nat)
    requires Enabled(s, DoExit(c, p))
    ensures var t := Do(s, DoExit(c, p));
            && |t.procs| == |s.procs| && t.cpus == s.cpus && t.mons == s.mons && t.pt == s.pt
            && t.nextpid == s.nextpid && t.reaped == s.reaped
            && t.procs[p].state == ZOMBIE && t.procs[p].pc == ExitSet && t.procs[p].pid == s.procs[p].pid
            && forall q: nat :: IsProc(s, q) && q != p ==> t.procs[q] == ExitTable(s.procs, p, s.init)[q]
  {
    ExitTableAt(s.procs, p, s.init, p);
  }

  /** wait clears the entry of an exited child: it is as good as new. */
  lemma ReapEffect(s: S, c: nat, p: nat, q: nat)
    requires Enabled(s, DoReap(c, p, q)) && p != q
    ensures var t := Do(s, DoReap(c, p, q));
            && OnlyTwo(s, t, p, q) && t.nextpid == s.nextpid && t.reaped == s.reaped + {s.procs[q].pid}
            && Moved(s.procs[p], t.procs[p], WaitDone)
            && var n := t.procs[q];
            n.state == UNUSED && n.pid == 0 && n.parent == None && !n.killed && !n.kstack && n.on == None && n.pc == Unborn
  {
  }

  /** allocproc, then fork's own part: the child has a new pid, a stack, its
      parent and, at last, the state RUNNABLE. */
  lemma AllocEffect(s: S, c: nat, p: nat, i: nat)
    requires Enabled(s, DoAlloc(c, p, i)) && i != p
    ensures var t, e := Do(s, DoAlloc(c, p, i)), s.procs[i];
            && OnlyTwo(s, t, p, i) && t.nextpid == s.nextpid + 1 && t.reaped == s.reaped
            && Moved(s.procs[p], t.procs[p], ForkGot(i))
            && var n := t.procs[i];
            && e.state == UNUSED && n.state == EMBRYO && n.pid == s.nextpid
            && n.parent == e.parent && n.kstack == e.kstack && n.killed == e.killed && n.pc == e.pc
  {
  }

  lemma ForkEffect(s: S, c: nat, p: nat, i: nat)
    requires Enabled(s, DoFork(c, p)) && Making(s.procs[p].pc) == Some(i) && i != p
    ensures var t, e, a := Do(s, DoFork(c, p)), s.procs[i], s.procs[p].pc;
            && OnlyTwo(s, t, p, i) && t.nextpid == s.nextpid && t.reaped == s.reaped
            && var n := t.procs[i];
            && n.pid == e.pid && n.killed == e.killed && n.chan == e.chan && n.on == e.on && n.mine == e.mine
            && (a == At(ForkStack(i)) ==>
                  n.kstack && n.state == e.state && n.parent == e.parent && n.pc == e.pc
                  && Moved(s.procs[p], t.procs[p], At(ForkCopy(i))))
            && (a == At(ForkCopy(i)) ==>
                  n.parent == Some(p) && n.kstack == e.kstack && n.state == e.state && n.pc == e.pc
                  && Moved(s.procs[p], t.procs[p], At(ForkReadyWant(i))))
            && (a == ForkReady(i) ==>
                  n.state == RUNNABLE && n.pc == Entry && n.parent == e.parent && n.kstack == e.kstack
                  && Moved(s.procs[p], t.procs[p], ForkDone))
  {
  }

  /** The scheduler's choice runs, in the state it left the CPU in. */
  lemma PickEffect(s: S, c: nat, q: nat)
    requires Enabled(s, DoPick(c, q))
    ensures var t, r := Do(s, DoPick(c, q)), s.procs[q];
            var n := t.procs[q];
            && r.state == RUNNABLE && n.state == RUNNING && n.on == Some(c) && t.cpus[c] == Cpu(Some(q), Some(q))
            && n.chan == r.chan && n.parent == r.parent && n.kstack == r.kstack && n.killed == r.killed && n.pid == r.pid
            && n.mine == r.mine
            && (r.pc == Entry ==> n.pc == ForkRet) && (r.pc.YieldParked? ==> n.pc == YieldBack(r.pc.spot))
            && (r.pc == WaitParked ==> n.pc == WaitBack) && (r.pc.MonParked? ==> n.pc == MonBack(r.pc.l))
            && (forall x: nat :: IsProc(s, x) && x != q ==> t.procs[x] == s.procs[x])
            && (forall d: nat :: IsCpu(s, d) && d != c ==> t.cpus[d] == s.cpus[d])
            && t.mons == s.mons && t.pt == s.pt
  {
  }

  /** wakeup changes the state of those asleep on the channel, and no more. */
  lemma WakeEffect(s: S, c: nat, p: nat, q: nat)
    requires Enabled(s, DoWake(c, p)) && IsProc(s, q) && q != p
    ensures var t, r := Do(s, DoWake(c, p)), s.procs[q];
            var l, x := s.procs[p].pc.l, s.procs[p].pc.c;
            && |t.procs| == |s.procs| && SameButState(r, t.procs[q])
            && t.procs[q].state == (if r.state == SLEEPING && r.chan == Cond(l, x) then RUNNABLE else r.state)
  {
  }
}
