/** The steps that change more of the process table than the running thread. */
module ProcNudge {
  import opened Monitors
  import opened ProcState

  /** n is r, perhaps woken up or marked killed. */
  predicate Nudged(r: Proc, n: Proc) {
    && n.chan == r.chan && n.parent == r.parent && n.kstack == r.kstack && n.pid == r.pid
    && n.pc == r.pc && n.on == r.on && n.mine == r.mine
    && (n.state == r.state || (r.state == SLEEPING && n.state == RUNNABLE && Parked(r.pc)))
  }

  ghost predicate AllNudged(s: S, t: S) {
    && |t.procs| == |s.procs| && t == S(t.procs, s.cpus, s.mons, s.pt, s.init, s.nextpid, s.reaped)
    && forall q: nat :: IsProc(s, q) ==> Nudged(s.procs[q], t.procs[q])
  }

  /** n is r, with init for a parent if that was p. */
  predicate Adopted(r: Proc, n: Proc, p: nat, init: nat) {
    && n.state == r.state && n.chan == r.chan && n.kstack == r.kstack && n.pid == r.pid
    && n.pc == r.pc && n.on == r.on && n.mine == r.mine
    && n.parent == if r.parent == Some(p) then Some(init) else r.parent
  }

  ghost predicate AllAdopted(s: S, t: S, p: nat) {
    && |t.procs| == |s.procs| && t == S(t.procs, s.cpus, s.mons, s.pt, s.init, s.nextpid, s.reaped)
    && forall q: nat :: IsProc(s, q) ==> Adopted(s.procs[q], t.procs[q], p, s.init)
  }

  /** Threads, stacks and locks are as they were. */
  predicate SameThread(r: Proc, n: Proc) {
    n.pc == r.pc && n.on == r.on && n.mine == r.mine && n.kstack == r.kstack
  }

  ghost predicate SameThreads(s: S, t: S) {
    && |t.procs| == |s.procs| && t.cpus == s.cpus && t.mons == s.mons && t.pt == s.pt
    && forall q: nat :: IsProc(s, q) ==> SameThread(s.procs[q], t.procs[q])
  }

  /** What may become of the entry i that process p is making. */
  predicate Entered(e: Proc, n: Proc, p: nat, pc: Pc, i: nat) {
    && e.pc == Unborn && n.on == e.on && n.mine == e.mine
    && (n.pc == Unborn || n.pc == Entry)
    && (n.pc == Unborn ==> n.state == UNUSED || n.state == EMBRYO)
    && (n.pc == Entry ==> n.state == RUNNABLE && n.parent == Some(p) && n.kstack)
    && (n.parent == None || n.parent == Some(p)) && (n.state == UNUSED ==> n.parent == None)
    && (Making(pc) == None || (Making(pc) == Some(i) && n.pc == Unborn && n.state == EMBRYO && Made(pc, n, p)))
  }
}

module ProcTableProof {
  import opened Monitors
  import opened ProcState
  import opened ProcSteps
  import opened ProcCalm
  import opened ProcNudge
  import opened ProcProof

  // ---- Threads that stay where they are ----

  lemma ThreadsStacks(s: S, t: S)
    requires SameThreads(s, t) && Stacks(s) && Current(s) && Locked(s)
    ensures Stacks(t) && Current(t) && Locked(t)
  {
  }

  lemma ThreadsHolders(s: S, t: S)
    requires SameThreads(s, t) && Holders(s) && LockNames(s)
    ensures Holders(t) && LockNames(t)
  {
  }

  lemma ThreadsDebts(s: S, t: S, keep: set<nat>)
    requires SameThreads(s, t) && Debts(s, keep)
    ensures Debts(t, keep)
  {
    forall l: nat | Ruled(t, keep, l) && t.mons[l].owed != {}
      ensures t.mons[l].held.Some? && IsProc(t, t.mons[l].held.value)
              && Pays(t.mons[l], t.procs[t.mons[l].held.value].pc, l)
    {
      assert SameThread(s.procs[s.mons[l].held.value], t.procs[s.mons[l].held.value]);
    }
  }

  lemma NudgeStates(s: S, t: S)
    requires AllNudged(s, t) && States(s) && Waiters(s)
    ensures States(t) && Waiters(t)
  {
    forall q: nat | IsProc(t, q) && Waiting(t.procs[q], q)
      ensures NoZombieChild(t, q)
    {
      assert Nudged(s.procs[q], t.procs[q]);
      assert NoZombieChild(s, q);
    }
  }

  lemma NudgeSleepers(s: S, t: S, keep: set<nat>)
    requires AllNudged(s, t) && Sleepers(s, keep)
    ensures Sleepers(t, keep)
  {
    forall l: nat, c: nat, q: nat | Ruled(t, keep, l) && IsProc(t, q) && SleepsOn(t.procs[q], l, c)
      ensures c in Waits(t.mons[l].val) || c in t.mons[l].owed
    {
      assert Nudged(s.procs[q], t.procs[q]) && SleepsOn(s.procs[q], l, c);
    }
  }

  lemma NudgeForks(s: S, t: S)
    requires AllNudged(s, t) && Forks(s)
    ensures Forks(t)
  {
    forall q: nat | IsProc(t, q) && Making(t.procs[q].pc).Some?
      ensures var i := Making(t.procs[q].pc).value;
              IsProc(t, i) && t.procs[i].pc == Unborn && t.procs[i].state == EMBRYO && Made(t.procs[q].pc, t.procs[i], q)
    {
      assert Making(s.procs[q].pc) == Making(t.procs[q].pc);
      assert Nudged(s.procs[Making(s.procs[q].pc).value], t.procs[Making(s.procs[q].pc).value]);
    }
    forall q: nat, k: nat | IsProc(t, q) && IsProc(t, k) && Making(t.procs[q].pc).Some? && q != k
      ensures Making(t.procs[q].pc) != Making(t.procs[k].pc)
    {
      assert Making(s.procs[q].pc) != Making(s.procs[k].pc);
    }
  }

  lemma NudgeFamily(s: S, t: S)
    requires AllNudged(s, t) && Family(s) && Pids(s)
    ensures Family(t) && Pids(t)
  {
    forall q: nat | IsProc(t, q) && t.procs[q].parent.Some?
      ensures IsProc(t, t.procs[q].parent.value) && Alive(t.procs[t.procs[q].parent.value]) && t.procs[q].parent != Some(q)
    {
      assert Nudged(s.procs[q], t.procs[q]);
      assert Nudged(s.procs[s.procs[q].parent.value], t.procs[s.procs[q].parent.value]);
    }
  }

  lemma NudgeKeeps(s: S, t: S, keep: set<nat>)
    requires Inv(s, keep) && AllNudged(s, t)
    ensures Inv(t, keep)
  {
    ThreadsStacks(s, t);
    ThreadsHolders(s, t);
    ThreadsDebts(s, t, keep);
    NudgeStates(s, t);
    NudgeSleepers(s, t, keep);
    NudgeForks(s, t);
    NudgeFamily(s, t);
  }

  /** Under the lock, every sleeper is off its CPU. */
  lemma SleepersParked(s: S, c: nat, p: nat, q: nat)
    requires Stacks(s) && Locked(s) && States(s) && Runs(s, c, p) && s.pt == Some(c) && q != p && IsProc(s, q)
    requires s.procs[q].state == SLEEPING || s.procs[q].state == ZOMBIE
    ensures Parked(s.procs[q].pc) && s.procs[q].on == None && (s.procs[q].state == ZOMBIE ==> s.procs[q].pc == Dead)
  {
    assert StateFits(s.procs[q], q);
    assert s.procs[q].on != Some(c);
  }

  lemma WakeupNudges(s: S, c: nat, p: nat, chan: Chan)
    requires Core(s) && Runs(s, c, p) && s.pt == Some(c) && s.procs[p].state == RUNNING
    ensures AllNudged(s, WithTable(s, Wakeup1(s.procs, chan)))
  {
    var t := WithTable(s, Wakeup1(s.procs, chan));
    forall q: nat | IsProc(s, q)
      ensures Nudged(s.procs[q], t.procs[q])
    {
      if q != p && s.procs[q].state == SLEEPING {
        SleepersParked(s, c, p, q);
      }
    }
  }

  // ---- wakeup on a channel of a monitor ----

  /** Nobody sleeps on channel x of l, or is about to. */
  ghost predicate Quiet(s: S, l: nat, x: nat) {
    forall q: nat :: IsProc(s, q) ==> !SleepsOn(s.procs[q], l, x)
  }

  lemma WokenQuiet(s: S, w: S, c: nat, p: nat, l: nat, x: nat)
    requires Stacks(s) && Locked(s) && Runs(s, c, p) && s.procs[p].pc == MonWakeBoth(l, x) && l < |s.mons|
    requires w == WithTable(s, Wakeup1(s.procs, Cond(l, x)))
    ensures Quiet(w, l, x)
  {
    forall q: nat | IsProc(w, q)
      ensures !SleepsOn(w.procs[q], l, x)
    {
      NotDozing(s, c, p, l, x, q);
    }
  }

  /** With both locks in p's hands nobody else can be on the way to sleep. */
  lemma NotDozing(s: S, c: nat, p: nat, l: nat, x: nat, q: nat)
    requires Stacks(s) && Locked(s) && Runs(s, c, p) && s.procs[p].pc == MonWakeBoth(l, x) && l < |s.mons| && IsProc(s, q)
    ensures !DozesOn(s.procs[q].pc, l, x)
  {
    assert s.procs[p].on == Some(c) && HoldsPt(s.procs[p].pc) && HoldsLk(s.procs[p].pc, l);
    assert s.procs[q].on == Some(c) ==> q == p;
    assert s.mons[l].held == Some(p);
    assert HoldsLk(s.procs[q].pc, l) ==> s.mons[l].held == Some(q);
  }

  lemma WokenPc(r: Proc, n: Proc, p: nat, l: nat, x: nat)
    requires r.pc == MonWakeBoth(l, x) && StateFits(r, p) && n == Go(r, MonWoken(l))
    ensures Calm(r, n, p) && Stays(r, n) && Keeps(r, n) && HoldsPt(n.pc) && LkOf(n.pc) == Some(l)
    ensures LockOf(n.pc) == Some(l) && n.state == RUNNING && HoldsPt(r.pc) && LkOf(r.pc) == Some(l)
    ensures SleepsLess(r, n) && !Waiting(n, p) && !Exiting(n.pc)
  {
  }

  lemma WokenSleepers(w: S, t: S, p: nat, l: nat, x: nat, keep: set<nat>)
    requires Sleepers(w, keep) && OnlyProc(w, t, p) && l < |w.mons| && SleepsLess(w.procs[p], t.procs[p]) && Quiet(w, l, x)
    requires t.mons == w.mons[l := Monitor(w.mons[l].held, w.mons[l].val, w.mons[l].owed - {x})]
    ensures Sleepers(t, keep)
  {
    forall k: nat, y: nat, q: nat | Ruled(t, keep, k) && IsProc(t, q) && SleepsOn(t.procs[q], k, y)
      ensures y in Waits(t.mons[k].val) || y in t.mons[k].owed
    {
      assert SleepsOn(w.procs[q], k, y);
    }
  }

  lemma WokenDebts(w: S, t: S, p: nat, l: nat, x: nat, keep: set<nat>)
    requires Debts(w, keep) && Locked(w) && OnlyProc(w, t, p) && l < |w.mons|
    requires w.procs[p].pc == MonWakeBoth(l, x) && t.procs[p].pc == MonWoken(l)
    requires t.mons == w.mons[l := Monitor(w.mons[l].held, w.mons[l].val, w.mons[l].owed - {x})]
    ensures Debts(t, keep)
  {
    assert HoldsLk(w.procs[p].pc, l);
    forall k: nat | Ruled(t, keep, k) && t.mons[k].owed != {}
      ensures t.mons[k].held.Some? && IsProc(t, t.mons[k].held.value)
              && Pays(t.mons[k], t.procs[t.mons[k].held.value].pc, k)
    {
      assert w.mons[k].owed != {};
      assert HoldsLk(w.procs[w.mons[k].held.value].pc, k);
    }
  }

  lemma WakeKeeps(s: S, c: nat, p: nat, keep: set<nat>)
    requires Inv(s, keep) && CanWake(s, c, p)
    ensures Inv(Wake(s, c, p), keep)
  {
    var l, x := s.procs[p].pc.l, s.procs[p].pc.c;
    assert StateFits(s.procs[p], p) && s.pt == Some(c);
    var w := WithTable(s, Wakeup1(s.procs, Cond(l, x)));
    WakeupNudges(s, c, p, Cond(l, x));
    NudgeKeeps(s, w, keep);
    WokenQuiet(s, w, c, p, l, x);
    WokenEnds(w, Wake(s, c, p), c, p, l, x, keep);
  }

  lemma WokenEnds(w: S, t: S, c: nat, p: nat, l: nat, x: nat, keep: set<nat>)
    requires Inv(w, keep) && Runs(w, c, p) && w.procs[p].pc == MonWakeBoth(l, x) && l < |w.mons| && Quiet(w, l, x)
    requires t == WithMon(WithProc(w, p, Go(w.procs[p], MonWoken(l))), l,
                          Monitor(w.mons[l].held, w.mons[l].val, w.mons[l].owed - {x}))
    ensures Inv(t, keep)
  {
    assert StateFits(w.procs[p], p) && t.procs[p] == Go(w.procs[p], MonWoken(l)) && t.procs == w.procs[p := t.procs[p]];
    WokenPc(w.procs[p], t.procs[p], p, l, x);
    SameLocks(w, t, c, p);
    WokenSleepers(w, t, p, l, x, keep);
    WokenDebts(w, t, p, l, x, keep);
    CalmStacks(w, t, p);
    CalmHolders(w, t, p);
    CalmOwn(w, t, p);
  }

  // ---- kill ----

  lemma KilledNudged(r: Proc)
    requires r.state == SLEEPING ==> Parked(r.pc)
    ensures Nudged(r, Killed(r))
  {
  }

  lemma KillNudges(s: S, w: S, c: nat, p: nat, k: nat)
    requires Core(s) && Runs(s, c, p) && s.pt == Some(c) && s.procs[p].state == RUNNING
    requires w == if k < |s.procs| then WithProc(s, k, Killed(s.procs[k])) else s
    ensures AllNudged(s, w)
  {
    if k < |s.procs| {
      if k != p && s.procs[k].state == SLEEPING {
        SleepersParked(s, c, p, k);
      }
      KilledNudged(s.procs[k]);
    }
  }

  lemma KillKeeps(s: S, c: nat, p: nat, k: nat, keep: set<nat>)
    requires Inv(s, keep) && CanKill(s, c, p) && FirstPid(s.procs, s.procs[p].pc.pid, k)
    ensures Inv(Kill(s, c, p, k), keep)
  {
    assert StateFits(s.procs[p], p) && s.pt == Some(c);
    var w := if k < |s.procs| then WithProc(s, k, Killed(s.procs[k])) else s;
    KillNudges(s, w, c, p, k);
    NudgeKeeps(s, w, keep);
    KillEnds(w, c, p, keep);
  }

  lemma KillEnds(w: S, c: nat, p: nat, keep: set<nat>)
    requires Inv(w, keep) && Runs(w, c, p) && w.procs[p].pc.KillHeld?
    ensures Inv(WithProc(w, p, Go(w.procs[p], KillDone)), keep)
  {
    assert StateFits(w.procs[p], p);
    KillPc(w.procs[p], p);
    PlaceKeeps(w, c, p, Go(w.procs[p], KillDone), keep);
  }

  lemma KillPc(r: Proc, p: nat)
    requires r.pc.KillHeld? && StateFits(r, p)
    ensures var n := Go(r, KillDone);
            && Calm(r, n, p) && Stays(r, n) && Keeps(r, n) && HoldsPt(n.pc) && LkOf(n.pc) == None && !Exiting(n.pc)
            && LockOf(n.pc) == None && n.state == RUNNING && HoldsPt(r.pc) && LkOf(r.pc) == None && SleepsLess(r, n)
  {
  }

  // ---- acquiresleep and releasesleep ----

  lemma TakePc(r: Proc, n: Proc, p: nat, l: nat)
    requires r.pc == MonHeld(l) && StateFits(r, p) && n == WithMine(r, MonHeld(l), r.mine + {l})
    ensures Calm(r, n, p) && Stays(r, n) && PcHolds(n) && !Waiting(n, p) && SleepsLess(r, n) && LockOf(n.pc) == Some(l)
  {
  }

  lemma TakeHolders(s: S, t: S, p: nat, l: nat)
    requires Holders(s) && LockNames(s) && OnlyProc(s, t, p) && l < |s.mons| && !IsLocked(s.mons[l].val)
    requires t.procs[p].mine == s.procs[p].mine + {l}
    requires |t.mons| == |s.mons| && t.mons == s.mons[l := t.mons[l]] && IsLocked(t.mons[l].val)
    requires PcHolds(t.procs[p]) && PcNames(t.procs[p].pc, |s.mons|)
    ensures Holders(t) && LockNames(t)
  {
  }

  lemma TakeSleepers(s: S, t: S, p: nat, l: nat, keep: set<nat>)
    requires Sleepers(s, keep) && OnlyProc(s, t, p) && l < |s.mons| && SleepsLess(s.procs[p], t.procs[p])
    requires s.mons[l].val == LockVal(false)
    requires t.mons == s.mons[l := Monitor(s.mons[l].held, LockVal(true), s.mons[l].owed)]
    ensures Sleepers(t, keep)
  {
    forall k: nat, x: nat, q: nat | Ruled(t, keep, k) && IsProc(t, q) && SleepsOn(t.procs[q], k, x)
      ensures x in Waits(t.mons[k].val) || x in t.mons[k].owed
    {
      assert SleepsOn(s.procs[q], k, x);
    }
  }

  lemma TakeDebts(s: S, t: S, p: nat, l: nat, keep: set<nat>)
    requires Debts(s, keep) && Locked(s) && OnlyProc(s, t, p) && l < |s.mons| && s.mons[l].val == LockVal(false)
    requires s.procs[p].pc == MonHeld(l) && t.procs[p].pc == MonHeld(l)
    requires t.mons == s.mons[l := Monitor(s.mons[l].held, LockVal(true), s.mons[l].owed)]
    ensures Debts(t, keep)
  {
    assert HoldsLk(s.procs[p].pc, l);
    assert s.mons[l].held == Some(p);
    forall k: nat | Ruled(t, keep, k) && t.mons[k].owed != {}
      ensures t.mons[k].held.Some? && IsProc(t, t.mons[k].held.value)
              && Pays(t.mons[k], t.procs[t.mons[k].held.value].pc, k)
    {
      assert HoldsLk(s.procs[s.mons[k].held.value].pc, k);
    }
  }

  lemma TakeKeeps(s: S, c: nat, p: nat, l: nat, keep: set<nat>)
    requires Inv(s, keep) && CanTake(s, c, p, l)
    ensures Inv(Take(s, c, p, l), keep)
  {
    var t := Take(s, c, p, l);
    assert StateFits(s.procs[p], p);
    TakePc(s.procs[p], t.procs[p], p, l);
    assert t.procs == s.procs[p := t.procs[p]];
    assert t.mons == s.mons[l := Monitor(s.mons[l].held, LockVal(true), s.mons[l].owed)];
    TakeHolders(s, t, p, l);
    TakeSleepers(s, t, p, l, keep);
    TakeDebts(s, t, p, l, keep);
    SameLocks(s, t, c, p);
    CalmStacks(s, t, p);
    CalmOwn(s, t, p);
  }

  lemma UnlockPc(r: Proc, n: Proc, p: nat, l: nat)
    requires r.pc == MonHeld(l) && StateFits(r, p) && n == WithMine(r, MonWake(l, LOCK), r.mine - {l})
    ensures Calm(r, n, p) && Stays(r, n) && PcHolds(n) && !Waiting(n, p) && SleepsLess(r, n) && LockOf(n.pc) == Some(l)
    ensures HoldsPt(n.pc) == HoldsPt(r.pc) && LkOf(n.pc) == LkOf(r.pc) && !Exiting(n.pc)
  {
  }

  lemma UnlockHolders(s: S, t: S, p: nat, l: nat)
    requires Holders(s) && LockNames(s) && OnlyProc(s, t, p) && l < |s.mons| && l in s.procs[p].mine
    requires t.procs[p].mine == s.procs[p].mine - {l}
    requires |t.mons| == |s.mons| && t.mons == s.mons[l := t.mons[l]]
    requires PcHolds(t.procs[p]) && PcNames(t.procs[p].pc, |s.mons|)
    ensures Holders(t) && LockNames(t)
  {
  }

  /** The sleepers of l are to be woken: this thread will do it. */
  lemma UnlockSleepers(s: S, t: S, p: nat, l: nat, keep: set<nat>)
    requires Sleepers(s, keep) && OnlyProc(s, t, p) && l < |s.mons| && s.mons[l].val.LockVal? && SleepsLess(s.procs[p], t.procs[p])
    requires t.mons == s.mons[l := Monitor(s.mons[l].held, LockVal(false), Due(s.mons[l].owed, s.mons[l].val, LockVal(false)))]
    ensures Sleepers(t, keep)
  {
    forall k: nat, x: nat, q: nat | Ruled(t, keep, k) && IsProc(t, q) && SleepsOn(t.procs[q], k, x)
      ensures x in Waits(t.mons[k].val) || x in t.mons[k].owed
    {
      assert SleepsOn(s.procs[q], k, x);
    }
  }

  lemma UnlockDebts(s: S, t: S, p: nat, l: nat, keep: set<nat>)
    requires Debts(s, keep) && Locked(s) && OnlyProc(s, t, p) && l < |s.mons| && s.mons[l].val.LockVal?
    requires s.procs[p].pc == MonHeld(l) && t.procs[p].pc == MonWake(l, LOCK)
    requires t.mons == s.mons[l := Monitor(s.mons[l].held, LockVal(false), Due(s.mons[l].owed, s.mons[l].val, LockVal(false)))]
    ensures Debts(t, keep)
  {
    assert HoldsLk(s.procs[p].pc, l);
    assert s.mons[l].held == Some(p);
    forall k: nat | Ruled(t, keep, k) && t.mons[k].owed != {}
      ensures t.mons[k].held.Some? && IsProc(t, t.mons[k].held.value)
              && Pays(t.mons[k], t.procs[t.mons[k].held.value].pc, k)
    {
      assert k != l ==> HoldsLk(s.procs[s.mons[k].held.value].pc, k);
    }
  }

  lemma UnlockKeeps(s: S, c: nat, p: nat, l: nat, keep: set<nat>)
    requires Inv(s, keep) && CanUnlock(s, c, p, l)
    ensures Inv(Unlock(s, c, p, l), keep)
  {
    var t := Unlock(s, c, p, l);
    assert StateFits(s.procs[p], p);
    UnlockPc(s.procs[p], t.procs[p], p, l);
    assert t.procs == s.procs[p := t.procs[p]] && t.mons == s.mons[l := t.mons[l]];
    UnlockHolders(s, t, p, l);
    UnlockSleepers(s, t, p, l, keep);
    UnlockDebts(s, t, p, l, keep);
    SameLocks(s, t, c, p);
    CalmStacks(s, t, p);
    CalmOwn(s, t, p);
  }

  // ---- exit ----

  lemma AdoptStates(s: S, t: S, p: nat)
    requires AllAdopted(s, t, p) && States(s) && Waiters(s) && IsProc(s, s.init)
    requires Waiting(s.procs[s.init], s.init) ==> NoZombieChild(s, p)
    ensures States(t) && Waiters(t)
  {
    forall q: nat | IsProc(t, q) && Waiting(t.procs[q], q)
      ensures NoZombieChild(t, q)
    {
      assert Adopted(s.procs[q], t.procs[q], p, s.init);
      assert NoZombieChild(s, q);
    }
  }

  lemma AdoptSleepers(s: S, t: S, p: nat, keep: set<nat>)
    requires AllAdopted(s, t, p) && Sleepers(s, keep)
    ensures Sleepers(t, keep)
  {
    forall l: nat, c: nat, q: nat | Ruled(t, keep, l) && IsProc(t, q) && SleepsOn(t.procs[q], l, c)
      ensures c in Waits(t.mons[l].val) || c in t.mons[l].owed
    {
      assert Adopted(s.procs[q], t.procs[q], p, s.init) && SleepsOn(s.procs[q], l, c);
    }
  }

  lemma AdoptForks(s: S, t: S, p: nat)
    requires AllAdopted(s, t, p) && Forks(s) && IsProc(s, p) && Making(s.procs[p].pc) == None
    ensures Forks(t)
  {
    forall q: nat | IsProc(t, q) && Making(t.procs[q].pc).Some?
      ensures var i := Making(t.procs[q].pc).value;
              IsProc(t, i) && t.procs[i].pc == Unborn && t.procs[i].state == EMBRYO && Made(t.procs[q].pc, t.procs[i], q)
    {
      assert Making(s.procs[q].pc) == Making(t.procs[q].pc);
      assert Adopted(s.procs[Making(s.procs[q].pc).value], t.procs[Making(s.procs[q].pc).value], p, s.init);
    }
    forall q: nat, k: nat | IsProc(t, q) && IsProc(t, k) && Making(t.procs[q].pc).Some? && q != k
      ensures Making(t.procs[q].pc) != Making(t.procs[k].pc)
    {
      assert Making(s.procs[q].pc) != Making(s.procs[k].pc);
    }
  }

  lemma AdoptParents(s: S, t: S, p: nat, q: nat)
    requires AllAdopted(s, t, p) && Family(s) && p != s.init && IsProc(t, q)
    ensures t.procs[q].parent != Some(p)
    ensures t.procs[q].parent.Some? ==>
              IsProc(t, t.procs[q].parent.value) && Alive(t.procs[t.procs[q].parent.value]) && t.procs[q].parent != Some(q)
  {
    assert Adopted(s.procs[q], t.procs[q], p, s.init);
  }

  lemma AdoptFamily(s: S, t: S, p: nat)
    requires AllAdopted(s, t, p) && Family(s) && p != s.init
    ensures Family(t) && forall q: nat :: IsProc(t, q) ==> t.procs[q].parent != Some(p)
  {
    forall q: nat | IsProc(t, q)
      ensures t.procs[q].parent != Some(p)
      ensures t.procs[q].parent.Some? ==>
                IsProc(t, t.procs[q].parent.value) && Alive(t.procs[t.procs[q].parent.value]) && t.procs[q].parent != Some(q)
    {
      AdoptParents(s, t, p, q);
    }
  }

  lemma AdoptPids(s: S, t: S, p: nat)
    requires AllAdopted(s, t, p) && Pids(s)
    ensures Pids(t)
  {
  }

  lemma AdoptKeeps(s: S, t: S, p: nat, keep: set<nat>)
    requires Inv(s, keep) && AllAdopted(s, t, p) && IsProc(s, p) && p != s.init && Making(s.procs[p].pc) == None
    requires Waiting(s.procs[s.init], s.init) ==> NoZombieChild(s, p)
    ensures Inv(t, keep) && forall q: nat :: IsProc(t, q) ==> t.procs[q].parent != Some(p)
  {
    ThreadsStacks(s, t);
    ThreadsHolders(s, t);
    ThreadsDebts(s, t, keep);
    AdoptStates(s, t, p);
    AdoptSleepers(s, t, p, keep);
    AdoptForks(s, t, p);
    AdoptFamily(s, t, p);
    AdoptPids(s, t, p);
  }

  lemma ZombiePc(r: Proc, n: Proc, p: nat)
    requires r.pc == ExitHeld && StateFits(r, p) && PcHolds(r) && n == In(r, ZOMBIE, r.chan, ExitSet)
    ensures Keeps(r, n) && HoldsPt(n.pc) == HoldsPt(r.pc) && LkOf(n.pc) == None && LkOf(r.pc) == None && LockOf(n.pc) == None
    ensures n.on == r.on && SleepsLess(r, n) && r.state == RUNNING
  {
  }

  /** The process turns ZOMBIE: its parent is not asleep, and it has no children. */
  lemma ZombieKeeps(s: S, c: nat, p: nat, keep: set<nat>)
    requires Inv(s, keep) && Runs(s, c, p) && s.procs[p].pc == ExitHeld && p != s.init
    requires forall q: nat :: IsProc(s, q) ==> s.procs[q].parent != Some(p)
    requires forall x: nat :: IsProc(s, x) && s.procs[p].parent == Some(x) ==> !Waiting(s.procs[x], x)
    ensures Inv(WithProc(s, p, In(s.procs[p], ZOMBIE, s.procs[p].chan, ExitSet)), keep)
  {
    var t := WithProc(s, p, In(s.procs[p], ZOMBIE, s.procs[p].chan, ExitSet));
    assert t.procs == s.procs[p := t.procs[p]];
    assert StateFits(s.procs[p], p) && PcHolds(s.procs[p]);
    ZombiePc(s.procs[p], t.procs[p], p);
    SameLocks(s, t, c, p);
    ZombieMons(s, t, p, keep);
    ZombieStacks(s, t, p);
    ZombieStates(s, t, p);
    ZombieFamily(s, t, p);
    ZombieForks(s, t, p);
  }

  lemma ZombieMons(s: S, t: S, p: nat, keep: set<nat>)
    requires Sleepers(s, keep) && Debts(s, keep) && Locked(s) && Holders(s) && LockNames(s) && OnlyProc(s, t, p) && t.mons == s.mons
    requires Keeps(s.procs[p], t.procs[p]) && LkOf(s.procs[p].pc) == None && LockOf(t.procs[p].pc) == None
    requires SleepsLess(s.procs[p], t.procs[p])
    ensures Sleepers(t, keep) && Debts(t, keep) && Holders(t) && LockNames(t)
  {
    CalmHolders(s, t, p);
    CalmSleepers(s, t, p, keep);
    CalmDebts(s, t, p, keep);
  }

  lemma ZombieStacks(s: S, t: S, p: nat)
    requires IsProc(s, p) && t == WithProc(s, p, In(s.procs[p], ZOMBIE, s.procs[p].chan, ExitSet))
    requires Stacks(s) && s.procs[p].pc == ExitHeld
    ensures Stacks(t)
  {
  }

  lemma ZombieStates(s: S, t: S, p: nat)
    requires IsProc(s, p) && t == WithProc(s, p, In(s.procs[p], ZOMBIE, s.procs[p].chan, ExitSet))
    requires States(s) && Waiters(s)
    requires forall x: nat :: IsProc(s, x) && s.procs[p].parent == Some(x) ==> !Waiting(s.procs[x], x)
    ensures States(t) && Waiters(t)
  {
    forall q: nat | IsProc(t, q) && Waiting(t.procs[q], q)
      ensures NoZombieChild(t, q)
    {
      assert q != p && Waiting(s.procs[q], q);
      assert NoZombieChild(s, q);
    }
  }

  lemma ZombieFamily(s: S, t: S, p: nat)
    requires IsProc(s, p) && t == WithProc(s, p, In(s.procs[p], ZOMBIE, s.procs[p].chan, ExitSet))
    requires Family(s) && Pids(s) && p != s.init && s.procs[p].state == RUNNING
    requires forall q: nat :: IsProc(s, q) ==> s.procs[q].parent != Some(p)
    ensures Family(t) && Pids(t)
  {
    forall q: nat | IsProc(t, q) && t.procs[q].parent.Some?
      ensures IsProc(t, t.procs[q].parent.value) && Alive(t.procs[t.procs[q].parent.value]) && t.procs[q].parent != Some(q)
    {
      assert s.procs[q].parent == t.procs[q].parent;
    }
  }

  lemma ZombieForks(s: S, t: S, p: nat)
    requires IsProc(s, p) && t == WithProc(s, p, In(s.procs[p], ZOMBIE, s.procs[p].chan, ExitSet))
    requires Forks(s) && s.procs[p].pc == ExitHeld
    ensures Forks(t)
  {
    forall q: nat | IsProc(t, q) && Making(t.procs[q].pc).Some?
      ensures var i := Making(t.procs[q].pc).value;
              IsProc(t, i) && t.procs[i].pc == Unborn && t.procs[i].state == EMBRYO && Made(t.procs[q].pc, t.procs[i], q)
    {
      assert Making(s.procs[q].pc) == Making(t.procs[q].pc);
    }
    forall q: nat, k: nat | IsProc(t, q) && IsProc(t, k) && Making(t.procs[q].pc).Some? && q != k
      ensures Making(t.procs[q].pc) != Making(t.procs[k].pc)
    {
      assert Making(s.procs[q].pc) == Making(t.procs[q].pc) && (k != p ==> Making(s.procs[k].pc) == Making(t.procs[k].pc));
    }
  }

  /** After wakeup1 on its own channel a process no longer waits. */
  lemma NotWaiting(s: S, c: nat, p: nat, x: nat)
    requires Stacks(s) && Locked(s) && Runs(s, c, p) && s.pt == Some(c) && IsProc(s, x) && s.procs[p].pc == ExitHeld
    ensures !Waiting(Wakeup1(s.procs, Self(x))[x], x)
  {
    assert s.procs[x].on == Some(c) ==> x == p;
  }

  lemma NudgedWaits(s: S, t: S, x: nat)
    requires AllNudged(s, t) && IsProc(s, x) && !Waiting(s.procs[x], x)
    ensures !Waiting(t.procs[x], x)
  {
    assert Nudged(s.procs[x], t.procs[x]);
  }

  /** wakeup1(curproc->parent) */
  lemma ExitFirst(s: S, a: S, c: nat, p: nat, keep: set<nat>)
    requires Inv(s, keep) && CanExit(s, c, p) && s.pt == Some(c) && s.procs[p].state == RUNNING
    requires a == WithTable(s, if s.procs[p].parent.Some? then Wakeup1(s.procs, Self(s.procs[p].parent.value)) else s.procs)
    ensures AllNudged(s, a) && Inv(a, keep)
    ensures forall x: nat :: IsProc(a, x) && s.procs[p].parent == Some(x) ==> !Waiting(a.procs[x], x)
  {
    if s.procs[p].parent.Some? {
      var x := s.procs[p].parent.value;
      WakeupNudges(s, c, p, Self(x));
      assert IsProc(s, x);
      NotWaiting(s, c, p, x);
    }
    NudgeKeeps(s, a, keep);
  }

  /** wakeup1(initproc), if an abandoned child has exited */
  lemma ExitSecond(a: S, b: S, c: nat, p: nat, exited: bool, keep: set<nat>)
    requires Inv(a, keep) && CanExit(a, c, p) && a.pt == Some(c) && a.procs[p].state == RUNNING
    requires b == if exited then WithTable(a, Wakeup1(a.procs, Self(a.init))) else a
    requires !exited ==> NoZombieChild(a, p)
    ensures AllNudged(a, b) && Inv(b, keep)
    ensures Waiting(b.procs[b.init], b.init) ==> NoZombieChild(b, p)
  {
    if exited {
      WakeInit(a, b, c, p, keep);
    } else {
      NudgeNone(a);
    }
  }

  lemma NudgeNone(s: S)
    ensures AllNudged(s, s)
  {
  }

  lemma WakeInit(a: S, b: S, c: nat, p: nat, keep: set<nat>)
    requires Inv(a, keep) && CanExit(a, c, p) && a.pt == Some(c) && a.procs[p].state == RUNNING
    requires b == WithTable(a, Wakeup1(a.procs, Self(a.init)))
    ensures AllNudged(a, b) && Inv(b, keep) && !Waiting(b.procs[b.init], b.init)
  {
    WakeupNudges(a, c, p, Self(a.init));
    NotWaiting(a, c, p, a.init);
    NudgeKeeps(a, b, keep);
  }

  lemma NoneExited(s: S, p: nat)
    requires !HasZombie(s.procs, p)
    ensures NoZombieChild(s, p)
  {
  }

  lemma ExiterFacts(s: S, c: nat, p: nat)
    requires Stacks(s) && Locked(s) && States(s) && Family(s) && CanExit(s, c, p)
    ensures s.procs[p].state == RUNNING && s.pt == Some(c) && p != s.init
  {
    assert StateFits(s.procs[p], p) && s.procs[p].on == Some(c);
  }

  lemma ExitKeeps(s: S, c: nat, p: nat, keep: set<nat>)
    requires Inv(s, keep) && CanExit(s, c, p)
    ensures Inv(Exit(s, c, p), keep)
  {
    ExiterFacts(s, c, p);
    var a := WithTable(s, if s.procs[p].parent.Some? then Wakeup1(s.procs, Self(s.procs[p].parent.value)) else s.procs);
    ExitFirst(s, a, c, p, keep);
    assert Nudged(s.procs[p], a.procs[p]);
    var exited := HasZombie(a.procs, p);
    if !exited {
      NoneExited(a, p);
    }
    var b := if exited then WithTable(a, Wakeup1(a.procs, Self(a.init))) else a;
    ExitSecond(a, b, c, p, exited, keep);
    assert Nudged(a.procs[p], b.procs[p]);
    ExitParent(a, b, p);
    ExitLast(b, c, p, keep);
  }

  lemma ExitParent(a: S, b: S, p: nat)
    requires AllNudged(a, b) && IsProc(a, p)
    requires forall x: nat :: IsProc(a, x) && a.procs[p].parent == Some(x) ==> !Waiting(a.procs[x], x)
    ensures forall x: nat :: IsProc(b, x) && b.procs[p].parent == Some(x) ==> !Waiting(b.procs[x], x)
  {
    forall x: nat | IsProc(b, x) && b.procs[p].parent == Some(x)
      ensures !Waiting(b.procs[x], x)
    {
      assert Nudged(a.procs[p], b.procs[p]);
      NudgedWaits(a, b, x);
    }
  }

  /** The children go to init and the process turns ZOMBIE. */
  lemma ExitLast(b: S, c: nat, p: nat, keep: set<nat>)
    requires Inv(b, keep) && CanExit(b, c, p) && p != b.init
    requires Waiting(b.procs[b.init], b.init) ==> NoZombieChild(b, p)
    requires forall x: nat :: IsProc(b, x) && b.procs[p].parent == Some(x) ==> !Waiting(b.procs[x], x)
    ensures var d := WithTable(b, Reparent(b.procs, p, b.init));
            Inv(WithProc(d, p, In(d.procs[p], ZOMBIE, d.procs[p].chan, ExitSet)), keep)
  {
    var d := WithTable(b, Reparent(b.procs, p, b.init));
    ReparentAdopts(b, d, p);
    AdoptKeeps(b, d, p, keep);
    ZombieKeeps(d, c, p, keep);
  }

  lemma ReparentAdopts(b: S, d: S, p: nat)
    requires Family(b) && IsProc(b, p) && d == WithTable(b, Reparent(b.procs, p, b.init))
    requires forall x: nat :: IsProc(b, x) && b.procs[p].parent == Some(x) ==> !Waiting(b.procs[x], x)
    ensures AllAdopted(b, d, p) && Adopted(b.procs[p], d.procs[p], p, b.init)
    ensures forall x: nat :: IsProc(d, x) && d.procs[p].parent == Some(x) ==> !Waiting(d.procs[x], x)
  {
    assert AllAdopted(b, d, p);
    assert b.procs[p].parent != Some(p);
    forall x: nat | IsProc(d, x) && d.procs[p].parent == Some(x)
      ensures !Waiting(d.procs[x], x)
    {
      assert Adopted(b.procs[x], d.procs[x], p, b.init);
    }
  }

  // ---- wait ----

  /** The entry of an exited child is cleared: no CPU runs on its stack. */
  lemma ClearKeeps(s: S, t: S, q: nat, keep: set<nat>)
    requires Inv(s, keep) && IsProc(s, q) && s.procs[q].pc == Dead && s.procs[q].state == ZOMBIE
    requires t == S(s.procs[q := Cleared(s.procs[q])], s.cpus, s.mons, s.pt, s.init, s.nextpid, s.reaped + {s.procs[q].pid})
    ensures Inv(t, keep)
  {
    assert s.procs[q].on == None && PcHolds(s.procs[q]);
    ClearStacks(s, t, q);
    ClearLocked(s, t, q);
    ClearStates(s, t, q);
    ClearLocks(s, t, q, keep);
    ClearDebts(s, t, q, keep);
    ClearFamily(s, t, q);
    ClearPids(s, t, q);
    ClearForks(s, t, q);
  }

  lemma ClearStacks(s: S, t: S, q: nat)
    requires Stacks(s) && Current(s) && IsProc(s, q) && s.procs[q].pc == Dead && s.procs[q].on == None
    requires |t.procs| == |s.procs| && t.procs == s.procs[q := Cleared(s.procs[q])] && t.cpus == s.cpus && t.pt == s.pt
    ensures Stacks(t) && Current(t)
  {
  }

  lemma ClearLocked(s: S, t: S, q: nat)
    requires Locked(s) && IsProc(s, q) && s.procs[q].pc == Dead
    requires |t.procs| == |s.procs| && t.procs == s.procs[q := Cleared(s.procs[q])]
    requires t.cpus == s.cpus && t.mons == s.mons && t.pt == s.pt
    ensures Locked(t)
  {
  }

  lemma ClearStates(s: S, t: S, q: nat)
    requires States(s) && Waiters(s) && IsProc(s, q) && |t.procs| == |s.procs| && t.procs == s.procs[q := Cleared(s.procs[q])]
    ensures States(t) && Waiters(t)
  {
    forall x: nat | IsProc(t, x) && Waiting(t.procs[x], x)
      ensures NoZombieChild(t, x)
    {
      assert x != q && Waiting(s.procs[x], x);
      assert NoZombieChild(s, x);
    }
  }

  lemma ClearLocks(s: S, t: S, q: nat, keep: set<nat>)
    requires Sleepers(s, keep) && Holders(s) && LockNames(s) && IsProc(s, q) && s.procs[q].mine == {} && s.procs[q].pc == Dead
    requires |t.procs| == |s.procs| && t.procs == s.procs[q := Cleared(s.procs[q])] && t.mons == s.mons
    ensures Sleepers(t, keep) && Holders(t) && LockNames(t)
  {
    forall l: nat, c: nat, x: nat | Ruled(t, keep, l) && IsProc(t, x) && SleepsOn(t.procs[x], l, c)
      ensures c in Waits(t.mons[l].val) || c in t.mons[l].owed
    {
      assert x != q && SleepsOn(s.procs[x], l, c);
    }
  }

  lemma ClearDebts(s: S, t: S, q: nat, keep: set<nat>)
    requires Debts(s, keep) && Locked(s) && IsProc(s, q) && s.procs[q].pc == Dead
    requires |t.procs| == |s.procs| && t.procs == s.procs[q := Cleared(s.procs[q])] && t.mons == s.mons
    ensures Debts(t, keep)
  {
    forall l: nat | Ruled(t, keep, l) && t.mons[l].owed != {}
      ensures t.mons[l].held.Some? && IsProc(t, t.mons[l].held.value)
              && Pays(t.mons[l], t.procs[t.mons[l].held.value].pc, l)
    {
      assert s.mons[l].held != Some(q);
    }
  }

  lemma ClearFamily(s: S, t: S, q: nat)
    requires Family(s) && IsProc(s, q) && s.procs[q].state == ZOMBIE
    requires |t.procs| == |s.procs| && t.procs == s.procs[q := Cleared(s.procs[q])] && t.init == s.init
    ensures Family(t)
  {
    forall x: nat | IsProc(t, x) && t.procs[x].parent.Some?
      ensures IsProc(t, t.procs[x].parent.value) && Alive(t.procs[t.procs[x].parent.value]) && t.procs[x].parent != Some(x)
    {
      assert x != q && s.procs[x].parent == t.procs[x].parent;
      assert Alive(s.procs[s.procs[x].parent.value]);
    }
  }

  lemma ClearPids(s: S, t: S, q: nat)
    requires Pids(s) && IsProc(s, q) && s.procs[q].state == ZOMBIE
    requires |t.procs| == |s.procs| && t.procs == s.procs[q := Cleared(s.procs[q])]
    requires t.nextpid == s.nextpid && t.reaped == s.reaped + {s.procs[q].pid}
    ensures Pids(t)
  {
  }

  lemma ClearForks(s: S, t: S, q: nat)
    requires Forks(s) && IsProc(s, q) && s.procs[q].pc == Dead
    requires |t.procs| == |s.procs| && t.procs == s.procs[q := Cleared(s.procs[q])]
    ensures Forks(t)
  {
    forall x: nat | IsProc(t, x) && Making(t.procs[x].pc).Some?
      ensures var i := Making(t.procs[x].pc).value;
              IsProc(t, i) && t.procs[i].pc == Unborn && t.procs[i].state == EMBRYO && Made(t.procs[x].pc, t.procs[i], x)
    {
      assert x != q && Making(s.procs[x].pc) == Making(t.procs[x].pc);
    }
    forall x: nat, k: nat | IsProc(t, x) && IsProc(t, k) && Making(t.procs[x].pc).Some? && x != k
      ensures Making(t.procs[x].pc) != Making(t.procs[k].pc)
    {
      assert Making(s.procs[x].pc) == Making(t.procs[x].pc) && (k != q ==> Making(s.procs[k].pc) == Making(t.procs[k].pc));
    }
  }

  /** At the moment a kernel stack is freed its process runs on no CPU, and its
      pid has never been returned before. */
  lemma ReapSafe(s: S, c: nat, p: nat, q: nat)
    requires Core(s) && CanReap(s, c, p, q)
    ensures q != p && s.procs[q].pc == Dead && s.procs[q].on == None && s.procs[q].pid !in s.reaped
    ensures forall d: nat :: IsCpu(s, d) ==> s.cpus[d].stack != Some(q)
  {
    assert StateFits(s.procs[p], p) && s.procs[p].on == Some(c) && s.pt == Some(c);
    SleepersParked(s, c, p, q);
  }

  lemma ReapKeeps(s: S, c: nat, p: nat, q: nat, keep: set<nat>)
    requires Inv(s, keep) && CanReap(s, c, p, q)
    ensures Inv(Reap(s, c, p, q), keep)
  {
    ReapSafe(s, c, p, q);
    var u := S(s.procs[q := Cleared(s.procs[q])], s.cpus, s.mons, s.pt, s.init, s.nextpid, s.reaped + {s.procs[q].pid});
    ClearKeeps(s, u, q, keep);
    ReapEnds(u, c, p, keep);
    assert Reap(s, c, p, q) == WithProc(u, p, Go(u.procs[p], WaitDone));
  }

  lemma ReapEnds(u: S, c: nat, p: nat, keep: set<nat>)
    requires Inv(u, keep) && Runs(u, c, p) && u.procs[p].pc == WaitHeld
    ensures Inv(WithProc(u, p, Go(u.procs[p], WaitDone)), keep)
  {
    assert StateFits(u.procs[p], p);
    EndWaitPc(u.procs[p], p, WaitDone);
    PlaceKeeps(u, c, p, Go(u.procs[p], WaitDone), keep);
  }
}
