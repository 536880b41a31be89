/** Moves that leave most of the invariant alone. */
module ProcCalm {
  import opened Monitors
  import opened ProcState

  /** The same kind of entry is being filled in, as far. */
  predicate SameMaking(a: Pc, b: Pc) {
    Making(a) == Making(b) && Stage(a) == Stage(b)
  }

  /** A process moves from r to n and keeps what is its own. */
  predicate Calm(r: Proc, n: Proc, p: nat) {
    && !r.pc.Unborn? && !n.pc.Unborn?
    && n.parent == r.parent && n.kstack == r.kstack && n.pid == r.pid
    && (n.state == r.state || (Alive(r) && Alive(n))) && StateFits(n, p)
    && SameMaking(r.pc, n.pc)
  }

  /** It keeps its sleep-locks. */
  predicate Keeps(r: Proc, n: Proc) {
    n.mine == r.mine && PcHolds(n)
  }

  /** It stays on its CPU. */
  predicate Stays(r: Proc, n: Proc) {
    OnCpu(r.pc) && OnCpu(n.pc) && n.on == r.on
  }

  /** What a thread may do while it lives on and changes nothing but locks. */
  predicate CalmPc(a: Pc, b: Pc) {
    && OnCpu(a) && OnCpu(b) && !Parking(a) && !Parking(b)
    && SameMaking(a, b) && !b.WaitNone? && (Exiting(b) ==> Exiting(a))
    && (LockOf(b).Some? ==> LockOf(b) == LockOf(a))
    && (Dozes(b) ==> Dozes(a) && b.l == a.l && b.c == a.c)
  }

  /** Whoever sleeps on anything after the move did so before. */
  ghost predicate SleepsLess(r: Proc, n: Proc) {
    forall l: nat, c: nat :: SleepsOn(n, l, c) ==> SleepsOn(r, l, c)
  }

  /** The thread goes on where it is, with the locks it has. */
  ghost predicate Steady(r: Proc, n: Proc, p: nat) {
    && Calm(r, n, p) && Stays(r, n) && Keeps(r, n) && HoldsPt(n.pc) == HoldsPt(r.pc)
    && LkOf(n.pc) == None && LkOf(r.pc) == None && LockOf(n.pc) == LockOf(r.pc)
    && (Exiting(n.pc) ==> Exiting(r.pc)) && (Waiting(n, p) ==> Waiting(r, p)) && SleepsLess(r, n)
  }

  /** A thread that has wakeups to make goes on towards them. */
  predicate PayMove(a: Pc, b: Pc) {
    LkOf(a).Some? ==>
      && LkOf(b) == LkOf(a) && !a.MonWakeBoth?
      && (a.MonWake? ==> b.MonWakeBoth? && b.l == a.l && b.c == a.c)
      && (a.MonHeld? || a.MonWoken? ==> b.MonHeld? || b.MonWake?)
  }

  ghost predicate SameVals(s: S, t: S) {
    |t.mons| == |s.mons| && forall l: nat :: l < |s.mons| ==> t.mons[l].val == s.mons[l].val
  }

  /** No wakeup is forgotten where the rule is kept. */
  ghost predicate SameOwed(s: S, t: S, keep: set<nat>) {
    |t.mons| == |s.mons| && forall l: nat :: Ruled(s, keep, l) ==> t.mons[l].owed == s.mons[l].owed
  }

  ghost predicate SameHeld(s: S, t: S) {
    |t.mons| == |s.mons| && forall l: nat :: l < |s.mons| ==> t.mons[l].held == s.mons[l].held
  }

  /** Only the entry of p is different. */
  ghost predicate OnlyProc(s: S, t: S, p: nat) {
    IsProc(s, p) && |t.procs| == |s.procs| && t.procs == s.procs[p := t.procs[p]]
  }

  ghost predicate SameIds(s: S, t: S) {
    t.init == s.init && t.nextpid == s.nextpid && t.reaped == s.reaped
  }
}

/** Every step keeps the invariant. */
module ProcProof {
  import opened Monitors
  import opened ProcState
  import opened ProcSteps
  import opened ProcCalm

  lemma CalmStacks(s: S, t: S, p: nat)
    requires OnlyProc(s, t, p) && t.cpus == s.cpus
    requires Stacks(s) && Calm(s.procs[p], t.procs[p], p) && Stays(s.procs[p], t.procs[p])
    ensures Stacks(t)
  {
  }

  lemma CalmStates(s: S, t: S, p: nat)
    requires OnlyProc(s, t, p)
    requires States(s) && Waiters(s) && Calm(s.procs[p], t.procs[p], p)
    requires Waiting(t.procs[p], p) ==> Waiting(s.procs[p], p) || NoZombieChild(s, p)
    ensures States(t) && Waiters(t)
  {
    forall q: nat | IsProc(t, q) && Waiting(t.procs[q], q)
      ensures NoZombieChild(t, q)
    {
      assert q != p ==> Waiting(s.procs[q], q);
      assert NoZombieChild(s, q);
    }
  }

  lemma CalmHolders(s: S, t: S, p: nat)
    requires OnlyProc(s, t, p)
    requires SameVals(s, t)
    requires Holders(s) && LockNames(s) && Keeps(s.procs[p], t.procs[p]) && PcNames(t.procs[p].pc, |s.mons|)
    ensures Holders(t) && LockNames(t)
  {
    forall l: nat, q: nat | l < |t.mons| && IsProc(t, q) && l in t.procs[q].mine
      ensures IsLocked(t.mons[l].val)
    {
      assert l in s.procs[q].mine;
    }
  }

  lemma CalmForks(s: S, t: S, p: nat)
    requires OnlyProc(s, t, p)
    requires Forks(s) && Calm(s.procs[p], t.procs[p], p)
    ensures Forks(t)
  {
    forall q: nat | IsProc(t, q) && Making(t.procs[q].pc).Some?
      ensures var i := Making(t.procs[q].pc).value;
              IsProc(t, i) && t.procs[i].pc == Unborn && t.procs[i].state == EMBRYO && Made(t.procs[q].pc, t.procs[i], q)
    {
      assert Making(s.procs[q].pc) == Making(t.procs[q].pc);
    }
    forall q: nat, k: nat | IsProc(t, q) && IsProc(t, k) && Making(t.procs[q].pc).Some? && q != k
      ensures Making(t.procs[q].pc) != Making(t.procs[k].pc)
    {
      assert Making(s.procs[q].pc) != Making(s.procs[k].pc);
    }
  }

  lemma CalmFamily(s: S, t: S, p: nat)
    requires OnlyProc(s, t, p) && SameIds(s, t)
    requires Family(s) && Calm(s.procs[p], t.procs[p], p)
    requires Exiting(t.procs[p].pc) ==> Exiting(s.procs[p].pc) || p != s.init
    ensures Family(t)
  {
    forall q: nat | IsProc(t, q) && t.procs[q].parent.Some?
      ensures IsProc(t, t.procs[q].parent.value) && Alive(t.procs[t.procs[q].parent.value])
    {
      assert s.procs[q].parent == t.procs[q].parent;
    }
  }

  lemma CalmPids(s: S, t: S, p: nat)
    requires OnlyProc(s, t, p) && SameIds(s, t)
    requires Pids(s) && Calm(s.procs[p], t.procs[p], p)
    ensures Pids(t)
  {
  }

  /** The parts of the invariant that do not speak of monitors. */
  lemma CalmOwn(s: S, t: S, p: nat)
    requires Core(s) && OnlyProc(s, t, p) && SameIds(s, t)
    requires Calm(s.procs[p], t.procs[p], p)
    requires Exiting(t.procs[p].pc) ==> Exiting(s.procs[p].pc) || p != s.init
    requires Waiting(t.procs[p], p) ==> Waiting(s.procs[p], p) || NoZombieChild(s, p)
    ensures States(t) && Waiters(t) && Forks(t) && Family(t) && Pids(t)
  {
    CalmStates(s, t, p);
    CalmForks(s, t, p);
    CalmFamily(s, t, p);
    CalmPids(s, t, p);
  }

  /** Sleepers survive when no condition ends and the moving thread does not
      start to sleep, or finds the condition. */
  lemma CalmSleepers(s: S, t: S, p: nat, keep: set<nat>)
    requires Sleepers(s, keep) && OnlyProc(s, t, p) && SameVals(s, t) && SameOwed(s, t, keep)
    requires forall l: nat, c: nat :: l < |s.mons| && SleepsOn(t.procs[p], l, c) ==>
               SleepsOn(s.procs[p], l, c) || c in Waits(s.mons[l].val)
    ensures Sleepers(t, keep)
  {
    forall l: nat, c: nat, q: nat | Ruled(t, keep, l) && IsProc(t, q) && SleepsOn(t.procs[q], l, c)
      ensures c in Waits(t.mons[l].val) || c in t.mons[l].owed
    {
      assert q != p ==> SleepsOn(s.procs[q], l, c);
    }
  }

  lemma CalmDebts(s: S, t: S, p: nat, keep: set<nat>)
    requires Debts(s, keep) && Locked(s) && OnlyProc(s, t, p) && SameVals(s, t) && SameOwed(s, t, keep) && SameHeld(s, t)
    requires PayMove(s.procs[p].pc, t.procs[p].pc)
    ensures Debts(t, keep)
  {
    forall l: nat | Ruled(t, keep, l) && t.mons[l].owed != {}
      ensures t.mons[l].held.Some? && IsProc(t, t.mons[l].held.value)
              && Pays(t.mons[l], t.procs[t.mons[l].held.value].pc, l)
    {
      assert Pays(s.mons[l], s.procs[s.mons[l].held.value].pc, l);
      assert s.mons[l].held == Some(p) ==> HoldsLk(s.procs[p].pc, l);
    }
  }

  /** What is left to show for a calm step: Current, Locked, Sleepers and Debts. */
  lemma CalmKeeps(s: S, t: S, p: nat, keep: set<nat>)
    requires Core(s) && OnlyProc(s, t, p) && t.cpus == s.cpus && SameVals(s, t) && SameIds(s, t)
    requires Calm(s.procs[p], t.procs[p], p) && Stays(s.procs[p], t.procs[p])
    requires Keeps(s.procs[p], t.procs[p]) && PcNames(t.procs[p].pc, |s.mons|)
    requires Exiting(t.procs[p].pc) ==> Exiting(s.procs[p].pc) || p != s.init
    requires Waiting(t.procs[p], p) ==> Waiting(s.procs[p], p) || NoZombieChild(s, p)
    requires Current(t) && Locked(t) && Sleepers(t, keep) && Debts(t, keep)
    ensures Inv(t, keep)
  {
    CalmStacks(s, t, p);
    CalmHolders(s, t, p);
    CalmOwn(s, t, p);
  }

  // ---- Threads that move on, taking or dropping a lock ----

  lemma MoveCalm(r: Proc, b: Pc, p: nat)
    requires CalmPc(r.pc, b) && StateFits(r, p) && PcHolds(r)
    ensures Calm(r, Go(r, b), p) && Stays(r, Go(r, b)) && Keeps(r, Go(r, b)) && SleepsLess(r, Go(r, b))
    ensures Waiting(Go(r, b), p) ==> Waiting(r, p)
  {
  }

  /** The thread takes, drops or keeps ptable.lock. */
  lemma MovePt(s: S, t: S, c: nat, p: nat, b: Pc, pt: Option<nat>, keep: set<nat>)
    requires Inv(s, keep) && Runs(s, c, p) && t == WithPt(WithProc(s, p, Go(s.procs[p], b)), pt)
    requires CalmPc(s.procs[p].pc, b) && LkOf(s.procs[p].pc) == LkOf(b) && PayMove(s.procs[p].pc, b)
    requires pt == (if HoldsPt(b) then Some(c) else if HoldsPt(s.procs[p].pc) then None else s.pt)
    requires !HoldsPt(s.procs[p].pc) && HoldsPt(b) ==> s.pt == None
    ensures Inv(t, keep)
  {
    assert StateFits(s.procs[p], p) && PcHolds(s.procs[p]);
    MoveCalm(s.procs[p], b, p);
    assert t.procs[p] == Go(s.procs[p], b) && t.procs == s.procs[p := t.procs[p]];
    MovePtLocked(s, t, c, p, b, pt);
    CalmSleepers(s, t, p, keep);
    CalmDebts(s, t, p, keep);
    CalmKeeps(s, t, p, keep);
  }

  lemma MovePtLocked(s: S, t: S, c: nat, p: nat, b: Pc, pt: Option<nat>)
    requires Stacks(s) && Current(s) && Locked(s) && Runs(s, c, p) && t == WithPt(WithProc(s, p, Go(s.procs[p], b)), pt)
    requires OnCpu(s.procs[p].pc) && LkOf(s.procs[p].pc) == LkOf(b)
    requires pt == (if HoldsPt(b) then Some(c) else if HoldsPt(s.procs[p].pc) then None else s.pt)
    requires !HoldsPt(s.procs[p].pc) && HoldsPt(b) ==> s.pt == None
    ensures Current(t) && Locked(t)
  {
    assert s.procs[p].on == Some(c);
    forall q: nat | IsProc(t, q) && t.procs[q].on.Some?
      ensures HoldsPt(t.procs[q].pc) <==> t.pt == t.procs[q].on
    {
      assert q != p ==> s.procs[q].on != Some(c);
    }
    MovePtMons(s, t, p, b);
  }

  lemma MovePtMons(s: S, t: S, p: nat, b: Pc)
    requires Locked(s) && IsProc(s, p) && t.procs == s.procs[p := Go(s.procs[p], b)] && t.mons == s.mons
    requires LkOf(s.procs[p].pc) == LkOf(b)
    ensures forall l: nat, q: nat :: l < |t.mons| && IsProc(t, q) ==>
              (t.mons[l].held == Some(q) <==> HoldsLk(t.procs[q].pc, l))
  {
    forall l: nat, q: nat | l < |t.mons| && IsProc(t, q)
      ensures t.mons[l].held == Some(q) <==> HoldsLk(t.procs[q].pc, l)
    {
      assert s.mons[l].held == Some(q) <==> HoldsLk(s.procs[q].pc, l);
    }
  }

  // ---- Acquiring and releasing ----

  lemma AcquirePc(a: Pc)
    requires AfterAcquire(a).Some?
    ensures var b := AfterAcquire(a).value;
            CalmPc(a, b) && LkOf(a) == LkOf(b) && !HoldsPt(a) && HoldsPt(b) && PayMove(a, b)
  {
  }

  lemma AcquirePtKeeps(s: S, c: nat, p: nat, keep: set<nat>)
    requires Inv(s, keep) && CanAcquirePt(s, c, p)
    ensures Inv(AcquirePt(s, c, p), keep)
  {
    AcquirePc(s.procs[p].pc);
    MovePt(s, AcquirePt(s, c, p), c, p, AfterAcquire(s.procs[p].pc).value, Some(c), keep);
  }

  lemma ReleasePc(a: Pc)
    requires AfterRelease(a).Some?
    ensures var b := AfterRelease(a).value;
            CalmPc(a, b) && LkOf(a) == LkOf(b) && HoldsPt(a) && !HoldsPt(b) && PayMove(a, b)
  {
  }

  lemma ReleasePtKeeps(s: S, c: nat, p: nat, keep: set<nat>)
    requires Inv(s, keep) && CanReleasePt(s, c, p)
    ensures Inv(ReleasePt(s, c, p), keep)
  {
    ReleasePc(s.procs[p].pc);
    MovePt(s, ReleasePt(s, c, p), c, p, AfterRelease(s.procs[p].pc).value, None, keep);
  }

  /** The thread takes or drops a monitor's spin lock, with no wakeup due where
      the rule is kept. */
  lemma MoveLk(s: S, t: S, c: nat, p: nat, b: Pc, l: nat, m: Monitor, keep: set<nat>)
    requires Inv(s, keep) && Runs(s, c, p) && l < |s.mons|
    requires t == WithMon(WithProc(s, p, Go(s.procs[p], b)), l, m) && m.val == s.mons[l].val
    requires Ruled(s, keep, l) ==> s.mons[l].owed == {} && m.owed == {}
    requires CalmPc(s.procs[p].pc, b) && HoldsPt(s.procs[p].pc) == HoldsPt(b)
    requires || (LkOf(s.procs[p].pc) == None && LkOf(b) == Some(l) && m.held == Some(p) && s.mons[l].held == None)
             || (LkOf(s.procs[p].pc) == Some(l) && LkOf(b) == None && m.held == None)
    ensures Inv(t, keep)
  {
    assert StateFits(s.procs[p], p) && PcHolds(s.procs[p]);
    MoveCalm(s.procs[p], b, p);
    LkFields(s, t, p, b, l, m, keep);
    MoveLkLocked(s, t, c, p, b, l, m);
    CalmSleepers(s, t, p, keep);
    MoveLkDebts(s, t, p, b, l, m, keep);
    CalmKeeps(s, t, p, keep);
  }

  lemma LkFields(s: S, t: S, p: nat, b: Pc, l: nat, m: Monitor, keep: set<nat>)
    requires IsProc(s, p) && l < |s.mons| && m.val == s.mons[l].val && (Ruled(s, keep, l) ==> m.owed == s.mons[l].owed)
    requires t == WithMon(WithProc(s, p, Go(s.procs[p], b)), l, m)
    ensures OnlyProc(s, t, p) && t.procs[p] == Go(s.procs[p], b) && t.cpus == s.cpus
    ensures SameVals(s, t) && SameOwed(s, t, keep) && SameIds(s, t)
  {
  }

  lemma MoveLkLocked(s: S, t: S, c: nat, p: nat, b: Pc, l: nat, m: Monitor)
    requires Current(s) && Locked(s) && Runs(s, c, p) && l < |s.mons|
    requires t == WithMon(WithProc(s, p, Go(s.procs[p], b)), l, m)
    requires HoldsPt(s.procs[p].pc) == HoldsPt(b)
    requires || (LkOf(s.procs[p].pc) == None && LkOf(b) == Some(l) && m.held == Some(p) && s.mons[l].held == None)
             || (LkOf(s.procs[p].pc) == Some(l) && LkOf(b) == None && m.held == None)
    ensures Current(t) && Locked(t)
  {
    forall k: nat, q: nat | k < |t.mons| && IsProc(t, q)
      ensures t.mons[k].held == Some(q) <==> HoldsLk(t.procs[q].pc, k)
    {
      assert s.mons[k].held == Some(q) <==> HoldsLk(s.procs[q].pc, k);
      assert s.mons[l].held == Some(q) <==> HoldsLk(s.procs[q].pc, l);
      assert s.mons[k].held == Some(p) <==> HoldsLk(s.procs[p].pc, k);
    }
  }

  lemma MoveLkDebts(s: S, t: S, p: nat, b: Pc, l: nat, m: Monitor, keep: set<nat>)
    requires Debts(s, keep) && Locked(s) && IsProc(s, p) && l < |s.mons|
    requires t == WithMon(WithProc(s, p, Go(s.procs[p], b)), l, m) && m.val == s.mons[l].val
    requires Ruled(s, keep, l) ==> m.owed == {}
    requires LkOf(s.procs[p].pc) == None || LkOf(s.procs[p].pc) == Some(l)
    ensures Debts(t, keep)
  {
    forall k: nat | Ruled(t, keep, k) && t.mons[k].owed != {}
      ensures t.mons[k].held.Some? && IsProc(t, t.mons[k].held.value)
              && Pays(t.mons[k], t.procs[t.mons[k].held.value].pc, k)
    {
      assert k != l && HoldsLk(s.procs[s.mons[k].held.value].pc, k);
    }
  }

  lemma EnterPc(l: nat)
    ensures CalmPc(At(MonWant(l)), MonHeld(l)) && !HoldsPt(At(MonWant(l))) && !HoldsPt(MonHeld(l))
    ensures LkOf(At(MonWant(l))) == None && LkOf(MonHeld(l)) == Some(l)
  {
  }

  lemma NoDebts(s: S, l: nat, keep: set<nat>)
    requires Debts(s, keep) && l < |s.mons| && s.mons[l].held == None
    ensures Ruled(s, keep, l) ==> s.mons[l].owed == {}
  {
  }

  lemma AcquireLkKeeps(s: S, c: nat, p: nat, l: nat, keep: set<nat>)
    requires Inv(s, keep) && CanAcquireLk(s, c, p, l)
    ensures Inv(AcquireLk(s, c, p, l), keep)
  {
    NoDebts(s, l, keep);
    EnterPc(l);
    MoveLk(s, AcquireLk(s, c, p, l), c, p, MonHeld(l), l, Monitor(Some(p), s.mons[l].val, {}), keep);
  }

  lemma LeavePc(a: Pc, l: nat)
    requires HoldsLk(a, l) && AfterReleaseLk(a).Some?
    ensures var b := AfterReleaseLk(a).value;
            CalmPc(a, b) && HoldsPt(a) == HoldsPt(b) && LkOf(b) == None && (!a.MonHeld? ==> a.MonBoth?)
  {
  }

  lemma SettledInSleep(s: S, p: nat, l: nat, keep: set<nat>)
    requires Debts(s, keep) && Locked(s) && IsProc(s, p) && s.procs[p].pc.MonBoth? && s.procs[p].pc.l == l < |s.mons|
    ensures Ruled(s, keep, l) ==> s.mons[l].owed == {}
  {
    assert HoldsLk(s.procs[p].pc, l);
    assert s.mons[l].held == Some(p);
  }

  /** Who holds a sleep-lock's spin lock and is not at its wakeup owes none. */
  lemma LockSettled(s: S, p: nat, l: nat, keep: set<nat>)
    requires Debts(s, keep) && Locked(s) && IsProc(s, p) && s.procs[p].pc == MonHeld(l) && l < |s.mons|
    ensures s.mons[l].val.LockVal? ==> s.mons[l].owed == {}
  {
    assert HoldsLk(s.procs[p].pc, l);
    assert s.mons[l].held == Some(p);
  }

  /** On leaving a monitor of keep the wakeups due must be made; in sleep they are. */
  lemma ReleaseLkKeeps(s: S, c: nat, p: nat, l: nat, keep: set<nat>)
    requires Inv(s, keep) && CanReleaseLk(s, c, p, l) && (s.procs[p].pc.MonHeld? && l in keep ==> s.mons[l].owed == {})
    ensures Inv(ReleaseLk(s, c, p, l), keep)
  {
    LeavePc(s.procs[p].pc, l);
    if s.procs[p].pc.MonHeld? {
      LockSettled(s, p, l, keep);
    } else {
      SettledInSleep(s, p, l, keep);
    }
    MoveLk(s, ReleaseLk(s, c, p, l), c, p, AfterReleaseLk(s.procs[p].pc).value, l, Monitor(None, s.mons[l].val, {}), keep);
  }

  // ---- Going on in place ----

  /** The thread holds the same locks before and after. */
  lemma SameLocks(s: S, t: S, c: nat, p: nat)
    requires Stacks(s) && Current(s) && Locked(s) && Runs(s, c, p) && OnlyProc(s, t, p)
    requires t.cpus == s.cpus && t.pt == s.pt && SameHeld(s, t)
    requires t.procs[p].on == s.procs[p].on && HoldsPt(t.procs[p].pc) == HoldsPt(s.procs[p].pc)
    requires LkOf(t.procs[p].pc) == LkOf(s.procs[p].pc)
    ensures Current(t) && Locked(t)
  {
  }

  /** The monitor the thread holds owes no wakeup, if the rule is kept there. */
  predicate Paid(s: S, pc: Pc, keep: set<nat>) {
    LkOf(pc).Some? && (Ruled(s, keep, LkOf(pc).value) ==> s.mons[LkOf(pc).value].owed == {})
  }

  lemma PlaceKeeps(s: S, c: nat, p: nat, n: Proc, keep: set<nat>)
    requires Inv(s, keep) && Runs(s, c, p) && Calm(s.procs[p], n, p) && Stays(s.procs[p], n)
    requires Keeps(s.procs[p], n) && PcNames(n.pc, |s.mons|)
    requires HoldsPt(n.pc) == HoldsPt(s.procs[p].pc) && LkOf(n.pc) == LkOf(s.procs[p].pc)
    requires Exiting(n.pc) ==> Exiting(s.procs[p].pc) || p != s.init
    requires Waiting(n, p) ==> Waiting(s.procs[p], p) || NoZombieChild(s, p)
    requires forall l: nat, x: nat :: l < |s.mons| && SleepsOn(n, l, x) ==>
               SleepsOn(s.procs[p], l, x) || x in Waits(s.mons[l].val)
    requires PayMove(s.procs[p].pc, n.pc) || Paid(s, n.pc, keep)
    ensures Inv(WithProc(s, p, n), keep)
  {
    var t := WithProc(s, p, n);
    assert t.procs[p] == n && t.procs == s.procs[p := t.procs[p]];
    SameLocks(s, t, c, p);
    CalmSleepers(s, t, p, keep);
    PlaceDebts(s, t, p, keep);
    CalmKeeps(s, t, p, keep);
  }

  lemma PlaceDebts(s: S, t: S, p: nat, keep: set<nat>)
    requires Debts(s, keep) && Locked(s) && OnlyProc(s, t, p) && t.mons == s.mons && LkOf(t.procs[p].pc) == LkOf(s.procs[p].pc)
    requires PayMove(s.procs[p].pc, t.procs[p].pc) || Paid(s, t.procs[p].pc, keep)
    ensures Debts(t, keep)
  {
    if PayMove(s.procs[p].pc, t.procs[p].pc) {
      CalmDebts(s, t, p, keep);
    } else {
      forall l: nat | Ruled(t, keep, l) && t.mons[l].owed != {}
        ensures t.mons[l].held.Some? && IsProc(t, t.mons[l].held.value)
                && Pays(t.mons[l], t.procs[t.mons[l].held.value].pc, l)
      {
        assert HoldsLk(s.procs[s.mons[l].held.value].pc, l);
      }
    }
  }

  lemma YieldSteady(r: Proc, p: nat)
    requires (r.pc.YieldHeld? || r.pc == ForkHeld) && StateFits(r, p) && PcHolds(r)
    ensures InPlace(r, p).Some? && Steady(r, InPlace(r, p).value, p)
  {
  }

  lemma WaitSteady(r: Proc, p: nat)
    requires (r.pc == WaitNone || r.pc == WaitBack) && StateFits(r, p) && PcHolds(r)
    ensures InPlace(r, p).Some? && Steady(r, InPlace(r, p).value, p)
  {
  }

  lemma MonSteady(r: Proc, p: nat)
    requires (r.pc.MonGo? || r.pc.MonBack?) && StateFits(r, p) && PcHolds(r)
    ensures InPlace(r, p).Some? && Steady(r, InPlace(r, p).value, p)
  {
  }

  lemma InPlacePc(r: Proc, p: nat)
    requires InPlace(r, p).Some? && StateFits(r, p) && PcHolds(r)
    ensures Steady(r, InPlace(r, p).value, p)
  {
    if r.pc.YieldHeld? || r.pc.ForkHeld? {
      YieldSteady(r, p);
    } else if r.pc.WaitNone? || r.pc.WaitBack? {
      WaitSteady(r, p);
    } else {
      MonSteady(r, p);
    }
  }

  lemma GoOnKeeps(s: S, c: nat, p: nat, keep: set<nat>)
    requires Inv(s, keep) && CanGo(s, c, p)
    ensures Inv(GoOn(s, c, p), keep)
  {
    assert StateFits(s.procs[p], p) && PcHolds(s.procs[p]) && PcNames(s.procs[p].pc, |s.mons|);
    InPlacePc(s.procs[p], p);
    PlaceKeeps(s, c, p, InPlace(s.procs[p], p).value, keep);
  }

  lemma StartPc(s: S, r: Proc, p: nat, spot: Spot)
    requires IsProc(s, p) && r == s.procs[p] && r.pc == At(Run) && MayStart(s, p, spot) && StateFits(r, p)
    ensures var n := Go(r, At(spot));
            && Calm(r, n, p) && Stays(r, n) && Keeps(r, n) && PcNames(n.pc, |s.mons|) && !HoldsPt(n.pc) && LkOf(n.pc) == None
            && SleepsLess(r, n) && !Waiting(n, p) && (Exiting(n.pc) ==> p != s.init)
  {
  }

  lemma StartKeeps(s: S, c: nat, p: nat, spot: Spot, keep: set<nat>)
    requires Inv(s, keep) && CanStart(s, c, p, spot)
    ensures Inv(Start(s, c, p, spot), keep)
  {
    assert StateFits(s.procs[p], p);
    StartPc(s, s.procs[p], p, spot);
    PlaceKeeps(s, c, p, Go(s.procs[p], At(spot)), keep);
  }

  lemma PreemptPc(r: Proc, p: nat)
    requires r.pc.At? && StateFits(r, p) && PcHolds(r)
    ensures Steady(r, Go(r, YieldWant(r.pc.spot)), p)
  {
  }

  lemma PreemptKeeps(s: S, c: nat, p: nat, keep: set<nat>)
    requires Inv(s, keep) && CanPreempt(s, c, p)
    ensures Inv(Preempt(s, c, p), keep)
  {
    assert StateFits(s.procs[p], p) && PcHolds(s.procs[p]) && PcNames(s.procs[p].pc, |s.mons|);
    PreemptPc(s.procs[p], p);
    PlaceKeeps(s, c, p, Go(s.procs[p], YieldWant(s.procs[p].pc.spot)), keep);
  }

  lemma EndWaitPc(r: Proc, p: nat, pc: Pc)
    requires r.pc == WaitHeld && (pc == WaitDone || pc == WaitNone) && StateFits(r, p)
    ensures Calm(r, Go(r, pc), p) && Stays(r, Go(r, pc)) && Keeps(r, Go(r, pc)) && HoldsPt(pc) && LkOf(pc) == None
    ensures SleepsLess(r, Go(r, pc)) && PcNames(pc, 0) && !Exiting(pc) && Go(r, pc).state == RUNNING && PayMove(r.pc, pc)
    ensures Waiting(Go(r, pc), p) ==> pc == WaitNone
  {
  }

  lemma EndWaitKeeps(s: S, c: nat, p: nat, keep: set<nat>)
    requires Inv(s, keep) && CanEndWait(s, c, p)
    ensures Inv(EndWait(s, c, p), keep)
  {
    var pc := if !HasKid(s.procs, p) || s.procs[p].killed then WaitDone else WaitNone;
    assert StateFits(s.procs[p], p);
    EndWaitPc(s.procs[p], p, pc);
    assert NoZombieChild(s, p);
    PlaceKeeps(s, c, p, Go(s.procs[p], pc), keep);
  }

  // ---- Inside a monitor ----

  lemma InsidePc(r: Proc, n: Proc, p: nat, l: nat)
    requires r.pc == MonHeld(l) && StateFits(r, p) && PcHolds(r)
    requires n == Go(r, n.pc) && (n.pc.MonSleep? || n.pc.MonWake?) && n.pc.l == l
    ensures Calm(r, n, p) && Stays(r, n) && Keeps(r, n) && !HoldsPt(n.pc) && LkOf(n.pc) == Some(l) && LockOf(n.pc) == Some(l)
    ensures !Exiting(n.pc) && !Waiting(n, p) && n.state == RUNNING
  {
  }

  /** The holder may turn to sleep once it has made the wakeups that are due. */
  lemma DozeKeeps(s: S, c: nat, p: nat, l: nat, x: nat, keep: set<nat>)
    requires Inv(s, keep) && CanDoze(s, c, p, l, x) && (l in keep ==> s.mons[l].owed == {})
    ensures Inv(Doze(s, c, p, l, x), keep)
  {
    var n := Go(s.procs[p], MonSleep(l, x));
    assert StateFits(s.procs[p], p) && PcHolds(s.procs[p]);
    InsidePc(s.procs[p], n, p, l);
    LockSettled(s, p, l, keep);
    PlaceKeeps(s, c, p, n, keep);
  }

  lemma CallKeeps(s: S, c: nat, p: nat, l: nat, x: nat, keep: set<nat>)
    requires Inv(s, keep) && InMonitor(s, c, p, l)
    ensures Inv(Call(s, c, p, l, x), keep)
  {
    var n := Go(s.procs[p], MonWake(l, x));
    assert StateFits(s.procs[p], p) && PcHolds(s.procs[p]);
    InsidePc(s.procs[p], n, p, l);
    PlaceKeeps(s, c, p, n, keep);
  }

  /** Only the value of one monitor, not a sleep-lock, and its debts differ. */
  ghost predicate Revalued(s: S, t: S, l: nat) {
    && l < |s.mons| == |t.mons| && t == WithMon(s, l, Monitor(s.mons[l].held, t.mons[l].val, t.mons[l].owed))
    && !s.mons[l].val.LockVal? && !t.mons[l].val.LockVal?
  }

  lemma RevaluedRest(s: S, t: S, l: nat)
    requires Stacks(s) && Current(s) && Locked(s) && Revalued(s, t, l)
    ensures Stacks(t) && Current(t) && Locked(t)
  {
  }

  lemma RevaluedHolders(s: S, t: S, l: nat)
    requires Holders(s) && LockNames(s) && Revalued(s, t, l)
    ensures Holders(t) && LockNames(t)
  {
  }

  lemma RevaluedTable(s: S, t: S, l: nat)
    requires Core(s) && Revalued(s, t, l)
    ensures States(t) && Waiters(t) && Forks(t) && Family(t) && Pids(t)
  {
    forall p: nat | IsProc(t, p) && Waiting(t.procs[p], p)
      ensures NoZombieChild(t, p)
    {
      assert NoZombieChild(s, p);
    }
  }

  lemma RevaluedSleepers(s: S, t: S, l: nat, keep: set<nat>)
    requires Sleepers(s, keep) && Revalued(s, t, l)
    requires Due(s.mons[l].owed, s.mons[l].val, t.mons[l].val) <= t.mons[l].owed
    ensures Sleepers(t, keep)
  {
    forall k: nat, x: nat, q: nat | Ruled(t, keep, k) && IsProc(t, q) && SleepsOn(t.procs[q], k, x)
      ensures x in Waits(t.mons[k].val) || x in t.mons[k].owed
    {
      assert IsProc(s, q) && SleepsOn(s.procs[q], k, x);
    }
  }

  /** More may be due in l only if its lock is held inside it. */
  lemma RevaluedDebts(s: S, t: S, l: nat, keep: set<nat>)
    requires Debts(s, keep) && Revalued(s, t, l)
    requires || t.mons[l].owed == s.mons[l].owed
             || (s.mons[l].held.Some? && IsProc(s, s.mons[l].held.value) && s.procs[s.mons[l].held.value].pc == MonHeld(l))
    ensures Debts(t, keep)
  {
    forall k: nat | Ruled(t, keep, k) && t.mons[k].owed != {}
      ensures t.mons[k].held.Some? && IsProc(t, t.mons[k].held.value)
              && Pays(t.mons[k], t.procs[t.mons[k].held.value].pc, k)
    {
      assert Ruled(s, keep, k) && t.mons[k].held == s.mons[k].held;
    }
  }

  lemma RevaluedKeeps(s: S, t: S, l: nat, keep: set<nat>)
    requires Inv(s, keep) && Revalued(s, t, l) && Due(s.mons[l].owed, s.mons[l].val, t.mons[l].val) <= t.mons[l].owed
    requires || t.mons[l].owed == s.mons[l].owed
             || (s.mons[l].held.Some? && IsProc(s, s.mons[l].held.value) && s.procs[s.mons[l].held.value].pc == MonHeld(l))
    ensures Inv(t, keep)
  {
    RevaluedRest(s, t, l);
    RevaluedHolders(s, t, l);
    RevaluedTable(s, t, l);
    RevaluedSleepers(s, t, l, keep);
    RevaluedDebts(s, t, l, keep);
  }

  lemma ChangeKeeps(s: S, c: nat, p: nat, l: nat, v: Val, keep: set<nat>)
    requires Inv(s, keep) && CanChange(s, c, p, l, v)
    ensures Inv(Change(s, c, p, l, v), keep)
  {
    assert HoldsLk(s.procs[p].pc, l);
    assert s.mons[l].held == Some(p);
    RevaluedKeeps(s, Change(s, c, p, l, v), l, keep);
  }

  lemma DriftKeeps(s: S, l: nat, v: Val, keep: set<nat>)
    requires Inv(s, keep) && CanDrift(s, l, v)
    ensures Inv(Drift(s, l, v), keep)
  {
    NothingDue(s.mons[l].owed, s.mons[l].val, v);
    RevaluedKeeps(s, Drift(s, l, v), l, keep);
  }

  // ---- swtch and the scheduler ----

  lemma SwitchPc(r: Proc, n: Proc, p: nat)
    requires AfterSwitch(r.pc).Some? && StateFits(r, p) && PcHolds(r) && OnCpu(r.pc)
    requires n == Proc(r.state, r.chan, r.parent, r.kstack, r.killed, r.pid, AfterSwitch(r.pc).value, None, r.mine)
    ensures Calm(r, n, p) && Keeps(r, n) && !OnCpu(n.pc) && HoldsPt(r.pc) && LkOf(r.pc) == None && LkOf(n.pc) == None
    ensures LockOf(n.pc) == LockOf(r.pc) && SleepsLess(r, n)
    ensures (Exiting(n.pc) ==> Exiting(r.pc)) && (Waiting(n, p) ==> Waiting(r, p))
  {
  }

  lemma SwitchLocks(s: S, t: S, c: nat, p: nat)
    requires Stacks(s) && Current(s) && Locked(s) && Runs(s, c, p) && |t.procs| == |s.procs|
    requires t.procs == s.procs[p := t.procs[p]] && t.cpus == s.cpus[c := Cpu(s.cpus[c].proc, None)]
    requires t.pt == s.pt && t.mons == s.mons && t.procs[p].on == None && !OnCpu(t.procs[p].pc) && HoldsPt(s.procs[p].pc)
    requires t.procs[p].kstack == s.procs[p].kstack && OnCpu(s.procs[p].pc)
    requires LkOf(s.procs[p].pc) == None && LkOf(t.procs[p].pc) == None
    ensures Stacks(t) && Current(t) && Locked(t)
  {
    assert s.procs[p].on == Some(c) && s.pt == Some(c);
  }

  lemma SwitchKeeps(s: S, c: nat, p: nat, keep: set<nat>)
    requires Inv(s, keep) && CanSwitch(s, c, p)
    ensures Inv(Switch(s, c, p), keep)
  {
    var t := Switch(s, c, p);
    assert StateFits(s.procs[p], p) && PcHolds(s.procs[p]) && PcNames(s.procs[p].pc, |s.mons|);
    SwitchPc(s.procs[p], t.procs[p], p);
    assert t.procs == s.procs[p := t.procs[p]];
    SwitchLocks(s, t, c, p);
    CalmSleepers(s, t, p, keep);
    CalmDebts(s, t, p, keep);
    CalmHolders(s, t, p);
    CalmOwn(s, t, p);
  }

  lemma PickPc(r: Proc, n: Proc, p: nat, c: nat)
    requires r.state == RUNNABLE && StateFits(r, p) && PcHolds(r) && !OnCpu(r.pc)
    requires n == Proc(RUNNING, r.chan, r.parent, r.kstack, r.killed, r.pid, Resumed(r.pc), Some(c), r.mine)
    ensures Calm(r, n, p) && Keeps(r, n) && OnCpu(n.pc) && HoldsPt(n.pc) && LkOf(r.pc) == None && LkOf(n.pc) == None
    ensures LockOf(n.pc) == LockOf(r.pc) && SleepsLess(r, n)
    ensures (Exiting(n.pc) ==> Exiting(r.pc)) && !Waiting(n, p)
  {
  }

  lemma PickLocks(s: S, t: S, c: nat, q: nat)
    requires Stacks(s) && Current(s) && Locked(s) && CanPick(s, c, q) && |t.procs| == |s.procs|
    requires t.procs == s.procs[q := t.procs[q]] && t.cpus == s.cpus[c := Cpu(Some(q), Some(q))]
    requires t.pt == s.pt && t.mons == s.mons && t.procs[q].on == Some(c) && OnCpu(t.procs[q].pc) && HoldsPt(t.procs[q].pc)
    requires s.procs[q].on == None && t.procs[q].kstack
    requires LkOf(s.procs[q].pc) == None && LkOf(t.procs[q].pc) == None
    ensures Stacks(t) && Current(t) && Locked(t)
  {
  }

  /** A RUNNABLE process is off every CPU when another CPU has the lock. */
  lemma RunnableParked(s: S, c: nat, q: nat)
    requires Core(s) && CanPick(s, c, q)
    ensures !OnCpu(s.procs[q].pc) && s.procs[q].on == None && !s.procs[q].pc.Unborn? && s.procs[q].kstack
  {
    assert StateFits(s.procs[q], q);
    assert s.procs[q].on != s.pt;
  }

  lemma PickKeeps(s: S, c: nat, q: nat, keep: set<nat>)
    requires Inv(s, keep) && CanPick(s, c, q)
    ensures Inv(SchedPick(s, c, q), keep)
  {
    var t := SchedPick(s, c, q);
    RunnableParked(s, c, q);
    assert StateFits(s.procs[q], q) && PcHolds(s.procs[q]) && PcNames(s.procs[q].pc, |s.mons|);
    PickPc(s.procs[q], t.procs[q], q, c);
    assert t.procs == s.procs[q := t.procs[q]];
    PickLocks(s, t, c, q);
    CalmSleepers(s, t, q, keep);
    CalmDebts(s, t, q, keep);
    CalmHolders(s, t, q);
    CalmOwn(s, t, q);
  }

  /** Steps of the scheduler that leave the table alone. */
  lemma SchedKeeps(s: S, t: S, c: nat, keep: set<nat>)
    requires Inv(s, keep) && Scheduling(s, c) && t == S(s.procs, t.cpus, s.mons, t.pt, s.init, s.nextpid, s.reaped)
    requires || (s.pt == None && t == SchedAcquire(s, c))
             || (s.pt == Some(c) && t == SchedClear(s, c))
             || (s.pt == Some(c) && s.cpus[c].proc == None && t == SchedRelease(s, c))
    ensures Inv(t, keep)
  {
    SchedLocks(s, t, c);
    SameTable(s, t, keep);
  }

  lemma SchedLocks(s: S, t: S, c: nat)
    requires Stacks(s) && Current(s) && Locked(s) && Scheduling(s, c) && t.procs == s.procs && t.mons == s.mons
    requires || (s.pt == None && t == SchedAcquire(s, c))
             || (s.pt == Some(c) && t == SchedClear(s, c))
             || (s.pt == Some(c) && s.cpus[c].proc == None && t == SchedRelease(s, c))
    ensures Stacks(t) && Current(t) && Locked(t)
  {
    assert forall p: nat :: IsProc(s, p) ==> s.procs[p].on != Some(c);
  }

  lemma SameTable(s: S, t: S, keep: set<nat>)
    requires Inv(s, keep) && t.procs == s.procs && t.mons == s.mons && SameIds(s, t)
    ensures States(t) && Waiters(t) && Sleepers(t, keep) && Debts(t, keep) && Holders(t) && LockNames(t) && Forks(t) && Family(t) && Pids(t)
  {
    forall p: nat | IsProc(t, p) && Waiting(t.procs[p], p)
      ensures NoZombieChild(t, p)
    {
      assert NoZombieChild(s, p);
    }
    SameSleepers(s, t, keep);
    SameHolders(s, t);
    SameForks(s, t);
    SameFamily(s, t);
  }

  lemma SameSleepers(s: S, t: S, keep: set<nat>)
    requires Sleepers(s, keep) && Debts(s, keep) && t.procs == s.procs && t.mons == s.mons
    ensures Sleepers(t, keep) && Debts(t, keep)
  {
    forall l: nat, c: nat, q: nat | Ruled(t, keep, l) && IsProc(t, q) && SleepsOn(t.procs[q], l, c)
      ensures c in Waits(t.mons[l].val) || c in t.mons[l].owed
    {
      assert IsProc(s, q) && SleepsOn(s.procs[q], l, c);
    }
  }

  lemma SameHolders(s: S, t: S)
    requires Holders(s) && LockNames(s) && t.procs == s.procs && t.mons == s.mons
    ensures Holders(t) && LockNames(t)
  {
  }

  lemma SameForks(s: S, t: S)
    requires Forks(s) && t.procs == s.procs
    ensures Forks(t)
  {
  }

  lemma SameFamily(s: S, t: S)
    requires Family(s) && Pids(s) && t.procs == s.procs && SameIds(s, t)
    ensures Family(t) && Pids(t)
  {
  }
}
