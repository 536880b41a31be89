/** The code of MonitorActs as runs of the machine. */
module MonitorSteps {
  import opened Monitors
  import opened MonitorActs
  import opened ProcState
  import opened ProcSteps
  import opened ProcMachine

  /** The steps of process p on CPU c for one action inside monitor l. */
  function ActSteps(c: nat, p: nat, l: nat, a: Act): seq<Step> {
    match a
    case Set(v) => [DoChange(c, p, l, v)]
    case Notify(x) => [DoCall(c, p, l, x)] + [DoAcquirePt(c, p)] + [DoWake(c, p)] + [DoReleasePt(c, p)]
    case Sleep(x) => [DoDoze(c, p, l, x)] + [DoAcquirePt(c, p)] + [DoReleaseLk(c, p, l)] + [DoGo(c, p)] + [DoSwitch(c, p)]
    case Leave => [DoReleaseLk(c, p, l)]
  }

  function CodeSteps(c: nat, p: nat, l: nat, acts: seq<Act>): seq<Step> {
    if acts == [] then [] else CodeSteps(c, p, l, acts[..|acts| - 1]) + ActSteps(c, p, l, acts[|acts| - 1])
  }

  /** CPU c runs p inside monitor l, and ptable.lock is free. */
  ghost predicate Ready(s: S, c: nat, p: nat, l: nat) {
    InMonitor(s, c, p, l) && s.pt == None && s.procs[p].state == RUNNING && !s.mons[l].val.LockVal?
  }

  function InsideOf(m: Monitor): Inside {
    Inside(m.val, m.owed)
  }

  ghost predicate StepTo(s: S, a: Step, t: S) {
    Enabled(s, a) && Do(s, a) == t
  }

  /** The step is process p's. */
  predicate By(a: Step, p: nat) {
    !(a.DoSchedAcquire? || a.DoSchedClear? || a.DoPick? || a.DoSchedRelease? || a.DoDrift?) && a.p == p
  }

  predicate Owns(s: S, l: nat, p: nat) {
    l < |s.mons| && IsProc(s, p) && s.mons[l].held == Some(p)
  }

  /** Monitor l, and where process p is, are as they were. */
  predicate Untouched(s: S, t: S, l: nat, p: nat) {
    && l < |s.mons| == |t.mons| && t.mons[l] == s.mons[l]
    && p < |s.procs| == |t.procs| && t.procs[p].pc == s.procs[p].pc
  }

  /** The table after the wakeups of some actions. */
  function Notified(procs: seq<Proc>, l: nat, acts: seq<Act>): (r: seq<Proc>)
    ensures |r| == |procs|
  {
    if acts == [] then procs
    else
      var before := Notified(procs, l, acts[..|acts| - 1]);
      if acts[|acts| - 1].Notify? then Wakeup1(before, Cond(l, acts[|acts| - 1].x)) else before
  }

  /** The actions change the value of a monitor that is no sleep-lock, or notify. */
  predicate Inner(acts: seq<Act>) {
    forall i :: 0 <= i < |acts| ==> (acts[i].Set? && !acts[i].val.LockVal?) || acts[i].Notify?
  }

  /** The actions are whole: at the end the lock is released. */
  predicate Whole(v: Val, acts: seq<Act>) {
    && |acts| > 0 && Inner(acts[..|acts| - 1])
    && (acts[|acts| - 1].Leave?
        || (acts[|acts| - 1].Sleep? && acts[|acts| - 1].x in Waits(Play(Inside(v, {}), acts[..|acts| - 1]).val)))
  }

  /** The state inner actions lead to. */
  function AfterInner(s: S, l: nat, acts: seq<Act>): S
    requires l < |s.mons|
  {
    var m := Play(InsideOf(s.mons[l]), acts);
    WithMon(WithTable(s, Notified(s.procs, l, acts)), l, Monitor(s.mons[l].held, m.val, m.owed))
  }

  /** The state the steps of one action lead to. */
  function AfterAct(s: S, c: nat, p: nat, l: nat, a: Act): S
    requires InMonitor(s, c, p, l)
  {
    var r, m := s.procs[p], s.mons[l];
    match a
    case Set(v) => WithMon(s, l, Monitor(m.held, v, Due(m.owed, m.val, v)))
    case Notify(x) => WithMon(WithTable(s, Wakeup1(s.procs, Cond(l, x))), l, Monitor(m.held, m.val, m.owed - {x}))
    case Sleep(x) =>
      S(s.procs[p := Proc(SLEEPING, Cond(l, x), r.parent, r.kstack, r.killed, r.pid, MonParked(l, x), None, r.mine)],
        s.cpus[c := Cpu(s.cpus[c].proc, None)], s.mons[l := Monitor(None, m.val, {})], Some(c), s.init, s.nextpid, s.reaped)
    case Leave => WithMon(WithProc(s, p, Go(r, At(Run))), l, Monitor(None, m.val, {}))
  }
}

module MonitorRuns {
  import opened Monitors
  import opened MonitorActs
  import opened ProcState
  import opened ProcSteps
  import opened ProcMachine
  import opened MonitorSteps

  /** A run and one step more. */
  lemma {:induction false} Then(s: S, run: seq<Step>, a: Step)
    requires Runnable(s, run) && Enabled(End(s, run), a)
    ensures Runnable(s, run + [a]) && End(s, run + [a]) == Do(End(s, run), a)
    decreases |run|
  {
    if run == [] {
      assert [] + [a] == [a];
      assert Runnable(Do(s, a), [a][1..]);
    } else {
      Then(Do(s, run[0]), run[1..], a);
      assert (run + [a])[1..] == run[1..] + [a] && (run + [a])[0] == run[0];
    }
  }

  /** One run after another. */
  lemma {:induction false} Joined(s: S, run: seq<Step>, more: seq<Step>)
    requires Runnable(s, run) && Runnable(End(s, run), more)
    ensures Runnable(s, run + more) && End(s, run + more) == End(End(s, run), more)
    decreases |more|
  {
    if more == [] {
      assert run + more == run;
    } else {
      var t := End(s, run);
      Then(s, run, more[0]);
      Joined(s, run + [more[0]], more[1..]);
      assert run + [more[0]] + more[1..] == run + more;
    }
  }

  lemma {:induction false} ThenObeys(s: S, run: seq<Step>, a: Step, keep: set<nat>)
    requires Runnable(s, run) && Runnable(s, run + [a])
    ensures Obeys(s, run + [a], keep) <==> Obeys(s, run, keep) && Settled(End(s, run), a, keep)
    decreases |run|
  {
    if run == [] {
      assert [] + [a] == [a];
      assert Obeys(Do(s, a), [a][1..], keep);
    } else {
      assert (run + [a])[1..] == run[1..] + [a] && (run + [a])[0] == run[0];
      ThenObeys(Do(s, run[0]), run[1..], a, keep);
    }
  }

  /** The run leads from s to t and keeps the rule for keep if, and only if, ok. */
  ghost predicate Leads(s: S, run: seq<Step>, t: S, keep: set<nat>, ok: bool) {
    Runnable(s, run) && End(s, run) == t && (Obeys(s, run, keep) <==> ok)
  }

  lemma LeadsNowhere(s: S, keep: set<nat>)
    ensures Leads(s, [], s, keep, true)
  {
  }

  lemma LeadsOn(s: S, run: seq<Step>, t: S, keep: set<nat>, ok: bool, a: Step)
    requires Leads(s, run, t, keep, ok) && Enabled(t, a)
    ensures Leads(s, run + [a], Do(t, a), keep, ok && Settled(t, a, keep))
  {
    Then(s, run, a);
    ThenObeys(s, run, a, keep);
  }

  /** A step that no rule is about. */
  lemma LeadsTo(s: S, run: seq<Step>, t: S, keep: set<nat>, ok: bool, a: Step, u: S)
    requires Leads(s, run, t, keep, ok) && StepTo(t, a, u) && !a.DoDoze?
    requires a.DoReleaseLk? && IsProc(t, a.p) ==> !t.procs[a.p].pc.MonHeld?
    ensures Leads(s, run + [a], u, keep, ok)
  {
    LeadsOn(s, run, t, keep, ok, a);
  }

  // ---- One action ----

  lemma SetLeads(s: S, run: seq<Step>, t: S, keep: set<nat>, ok: bool, c: nat, p: nat, l: nat, v: Val)
    requires Leads(s, run, t, keep, ok) && Ready(t, c, p, l) && !v.LockVal?
    ensures Leads(s, run + ActSteps(c, p, l, Set(v)), AfterAct(t, c, p, l, Set(v)), keep, ok)
  {
    LeadsOn(s, run, t, keep, ok, DoChange(c, p, l, v));
  }

  lemma LeaveLeads(s: S, run: seq<Step>, t: S, keep: set<nat>, ok: bool, c: nat, p: nat, l: nat)
    requires Leads(s, run, t, keep, ok) && Ready(t, c, p, l)
    ensures Leads(s, run + ActSteps(c, p, l, Leave), AfterAct(t, c, p, l, Leave), keep, ok && (l in keep ==> t.mons[l].owed == {}))
  {
    LeadsOn(s, run, t, keep, ok, DoReleaseLk(c, p, l));
  }

  lemma MovesOn(t: S, p: nat, a: Pc, b: Pc)
    requires IsProc(t, p)
    ensures WithProc(WithProc(t, p, Go(t.procs[p], a)), p, Go(Go(t.procs[p], a), b)) == WithProc(t, p, Go(t.procs[p], b))
  {
  }

  /** p, which was somewhere else in t, takes ptable.lock where it is now. */
  lemma AcquireStep(t: S, c: nat, p: nat, a: Pc, b: Pc)
    requires Runs(t, c, p) && t.pt == None && AfterAcquire(a) == Some(b)
    ensures StepTo(WithProc(t, p, Go(t.procs[p], a)), DoAcquirePt(c, p), WithPt(WithProc(t, p, Go(t.procs[p], b)), Some(c)))
  {
    MovesOn(t, p, a, b);
    AcquireIs(WithProc(t, p, Go(t.procs[p], a)), c, p);
  }

  lemma AcquireIs(s: S, c: nat, p: nat)
    requires CanAcquirePt(s, c, p)
    ensures StepTo(s, DoAcquirePt(c, p), AcquirePt(s, c, p))
  {
  }

  lemma ReleaseIs(s: S, c: nat, p: nat)
    requires CanReleasePt(s, c, p)
    ensures StepTo(s, DoReleasePt(c, p), ReleasePt(s, c, p))
  {
  }

  lemma WakeIs(s: S, c: nat, p: nat)
    requires CanWake(s, c, p)
    ensures StepTo(s, DoWake(c, p), Wake(s, c, p))
  {
  }

  /** The states between the steps of wakeup. */
  lemma WakeupSteps(t: S, c: nat, p: nat, l: nat, x: nat) returns (t1: S, t2: S, t3: S)
    requires Ready(t, c, p, l)
    ensures StepTo(t, DoCall(c, p, l, x), t1) && StepTo(t1, DoAcquirePt(c, p), t2) && StepTo(t2, DoWake(c, p), t3)
    ensures StepTo(t3, DoReleasePt(c, p), AfterAct(t, c, p, l, Notify(x)))
  {
    t1 := Call(t, c, p, l, x);
    t2 := WithPt(WithProc(t, p, Go(t.procs[p], MonWakeBoth(l, x))), Some(c));
    AcquireStep(t, c, p, MonWake(l, x), MonWakeBoth(l, x));
    t3 := Wake(t2, c, p);
    WakeIs(t2, c, p);
    NotifyEnds(t, t2, t3, c, p, l, x);
    ReleaseIs(t3, c, p);
  }

  lemma NotifyEnds(t: S, t2: S, t3: S, c: nat, p: nat, l: nat, x: nat)
    requires Ready(t, c, p, l) && t2 == WithPt(WithProc(t, p, Go(t.procs[p], MonWakeBoth(l, x))), Some(c))
    requires CanWake(t2, c, p) && t3 == Wake(t2, c, p)
    ensures CanReleasePt(t3, c, p) && ReleasePt(t3, c, p) == AfterAct(t, c, p, l, Notify(x))
  {
    assert ReleasePt(t3, c, p).procs == Wakeup1(t.procs, Cond(l, x));
  }

  lemma NotifyLeads(s: S, run: seq<Step>, t: S, keep: set<nat>, ok: bool, c: nat, p: nat, l: nat, x: nat)
    requires Leads(s, run, t, keep, ok) && Ready(t, c, p, l)
    ensures Leads(s, run + ActSteps(c, p, l, Notify(x)), AfterAct(t, c, p, l, Notify(x)), keep, ok)
  {
    var t1, t2, t3 := WakeupSteps(t, c, p, l, x);
    var u := AfterAct(t, c, p, l, Notify(x));
    LeadsTo(s, run, t, keep, ok, DoCall(c, p, l, x), t1);
    LeadsTo(s, run + [DoCall(c, p, l, x)], t1, keep, ok, DoAcquirePt(c, p), t2);
    LeadsTo(s, run + [DoCall(c, p, l, x)] + [DoAcquirePt(c, p)], t2, keep, ok, DoWake(c, p), t3);
    LeadsTo(s, run + [DoCall(c, p, l, x)] + [DoAcquirePt(c, p)] + [DoWake(c, p)], t3, keep, ok, DoReleasePt(c, p), u);
    NotifyRun(run, c, p, l, x);
  }

  lemma NotifyRun(run: seq<Step>, c: nat, p: nat, l: nat, x: nat)
    ensures run + [DoCall(c, p, l, x)] + [DoAcquirePt(c, p)] + [DoWake(c, p)] + [DoReleasePt(c, p)]
            == run + ActSteps(c, p, l, Notify(x))
  {
  }

  lemma LeaveIs(s: S, c: nat, p: nat, l: nat)
    requires CanReleaseLk(s, c, p, l)
    ensures StepTo(s, DoReleaseLk(c, p, l), ReleaseLk(s, c, p, l))
  {
  }

  lemma LeaveEnds(t: S, t2: S, c: nat, p: nat, l: nat, x: nat)
    requires Ready(t, c, p, l) && t2 == WithPt(WithProc(t, p, Go(t.procs[p], MonBoth(l, x))), Some(c))
    ensures CanReleaseLk(t2, c, p, l)
    ensures ReleaseLk(t2, c, p, l)
            == WithPt(WithMon(WithProc(t, p, Go(t.procs[p], MonGo(l, x))), l, Monitor(None, t.mons[l].val, {})), Some(c))
  {
    MovesOn(t, p, MonBoth(l, x), MonGo(l, x));
  }

  /** The states between the steps of sleep, up to the release of the lock ... */
  lemma DozeSteps(t: S, c: nat, p: nat, l: nat, x: nat) returns (t1: S, t2: S, t3: S)
    requires Ready(t, c, p, l) && x in Waits(t.mons[l].val)
    ensures StepTo(t, DoDoze(c, p, l, x), t1) && StepTo(t1, DoAcquirePt(c, p), t2) && StepTo(t2, DoReleaseLk(c, p, l), t3)
    ensures IsProc(t2, p) && t2.procs[p].pc == MonBoth(l, x)
    ensures t3 == WithPt(WithMon(WithProc(t, p, Go(t.procs[p], MonGo(l, x))), l, Monitor(None, t.mons[l].val, {})), Some(c))
  {
    t1 := Doze(t, c, p, l, x);
    t2 := WithPt(WithProc(t, p, Go(t.procs[p], MonBoth(l, x))), Some(c));
    AcquireStep(t, c, p, MonSleep(l, x), MonBoth(l, x));
    LeaveEnds(t, t2, c, p, l, x);
    t3 := ReleaseLk(t2, c, p, l);
    LeaveIs(t2, c, p, l);
  }

  /** ... and after it. */
  lemma ParkSteps(t: S, t3: S, c: nat, p: nat, l: nat, x: nat) returns (t4: S)
    requires Ready(t, c, p, l)
    requires t3 == WithPt(WithMon(WithProc(t, p, Go(t.procs[p], MonGo(l, x))), l, Monitor(None, t.mons[l].val, {})), Some(c))
    ensures StepTo(t3, DoGo(c, p), t4) && StepTo(t4, DoSwitch(c, p), AfterAct(t, c, p, l, Sleep(x)))
  {
    t4 := Do(t3, DoGo(c, p));
    assert Do(t4, DoSwitch(c, p)).procs == AfterAct(t, c, p, l, Sleep(x)).procs;
    assert Do(t4, DoSwitch(c, p)).cpus == AfterAct(t, c, p, l, Sleep(x)).cpus;
  }

  lemma SleepLeads(s: S, run: seq<Step>, t: S, keep: set<nat>, ok: bool, c: nat, p: nat, l: nat, x: nat)
    requires Leads(s, run, t, keep, ok) && Ready(t, c, p, l) && x in Waits(t.mons[l].val)
    ensures Leads(s, run + ActSteps(c, p, l, Sleep(x)), AfterAct(t, c, p, l, Sleep(x)), keep,
                  ok && (l in keep ==> t.mons[l].owed == {}))
  {
    var good := ok && (l in keep ==> t.mons[l].owed == {});
    var t1, t2, t3 := DozeSteps(t, c, p, l, x);
    var t4 := ParkSteps(t, t3, c, p, l, x);
    var u := AfterAct(t, c, p, l, Sleep(x));
    var run1 := run + [DoDoze(c, p, l, x)];
    LeadsOn(s, run, t, keep, ok, DoDoze(c, p, l, x));
    LeadsTo(s, run1, t1, keep, good, DoAcquirePt(c, p), t2);
    LeadsTo(s, run1 + [DoAcquirePt(c, p)], t2, keep, good, DoReleaseLk(c, p, l), t3);
    LeadsTo(s, run1 + [DoAcquirePt(c, p)] + [DoReleaseLk(c, p, l)], t3, keep, good, DoGo(c, p), t4);
    LeadsTo(s, run1 + [DoAcquirePt(c, p)] + [DoReleaseLk(c, p, l)] + [DoGo(c, p)], t4, keep, good, DoSwitch(c, p), u);
    SleepRun(run, c, p, l, x);
  }

  lemma SleepRun(run: seq<Step>, c: nat, p: nat, l: nat, x: nat)
    ensures run + [DoDoze(c, p, l, x)] + [DoAcquirePt(c, p)] + [DoReleaseLk(c, p, l)] + [DoGo(c, p)] + [DoSwitch(c, p)]
            == run + ActSteps(c, p, l, Sleep(x))
  {
  }

  // ---- Many ----

  lemma {:induction false} NotifiedAt(procs: seq<Proc>, l: nat, acts: seq<Act>, q: nat)
    requires q < |procs|
    ensures Notified(procs, l, acts)[q]
            == if procs[q].state == SLEEPING && procs[q].chan.Cond? && procs[q].chan.l == l && Notify(procs[q].chan.c) in acts
               then Woken(procs[q]) else procs[q]
  {
    if acts != [] {
      NotifiedAt(procs, l, acts[..|acts| - 1], q);
      assert acts == acts[..|acts| - 1] + [acts[|acts| - 1]];
    }
  }

  lemma StillReady(s: S, c: nat, p: nat, l: nat, acts: seq<Act>)
    requires Ready(s, c, p, l) && Inner(acts)
    ensures Ready(AfterInner(s, l, acts), c, p, l)
  {
    NotifiedAt(s.procs, l, acts, p);
    PlayedVal(InsideOf(s.mons[l]), acts);
  }

  lemma {:induction false} PlayedVal(m: Inside, acts: seq<Act>)
    requires Inner(acts) && !m.val.LockVal?
    ensures !Play(m, acts).val.LockVal?
  {
    if acts != [] {
      PlayedVal(m, acts[..|acts| - 1]);
    }
  }

  lemma OneMore(s: S, c: nat, p: nat, l: nat, acts: seq<Act>, a: Act)
    requires InMonitor(s, c, p, l) && InMonitor(AfterInner(s, l, acts), c, p, l) && (a.Set? || a.Notify?)
    ensures AfterAct(AfterInner(s, l, acts), c, p, l, a) == AfterInner(s, l, acts + [a])
  {
    assert (acts + [a])[..|acts|] == acts;
  }

  lemma {:induction false} InnerLeads(s: S, run: seq<Step>, t: S, keep: set<nat>, c: nat, p: nat, l: nat, acts: seq<Act>)
    requires Leads(s, run, t, keep, true) && Ready(t, c, p, l) && Inner(acts)
    ensures Leads(s, run + CodeSteps(c, p, l, acts), AfterInner(t, l, acts), keep, true)
    decreases |acts|
  {
    if acts == [] {
      assert run + [] == run;
      assert AfterInner(t, l, []) == t;
    } else {
      var before, a := acts[..|acts| - 1], acts[|acts| - 1];
      assert acts == before + [a];
      InnerLeads(s, run, t, keep, c, p, l, before);
      StillReady(t, c, p, l, before);
      ActLeads(s, run + CodeSteps(c, p, l, before), AfterInner(t, l, before), keep, c, p, l, a);
      OneMore(t, c, p, l, before, a);
      CodeMore(run, c, p, l, acts);
    }
  }

  lemma ActLeads(s: S, run: seq<Step>, t: S, keep: set<nat>, c: nat, p: nat, l: nat, a: Act)
    requires Leads(s, run, t, keep, true) && Ready(t, c, p, l) && ((a.Set? && !a.val.LockVal?) || a.Notify?)
    ensures Leads(s, run + ActSteps(c, p, l, a), AfterAct(t, c, p, l, a), keep, true)
  {
    if a.Set? {
      SetLeads(s, run, t, keep, true, c, p, l, a.val);
    } else {
      NotifyLeads(s, run, t, keep, true, c, p, l, a.x);
    }
  }

  lemma CodeMore(run: seq<Step>, c: nat, p: nat, l: nat, acts: seq<Act>)
    requires acts != []
    ensures run + CodeSteps(c, p, l, acts[..|acts| - 1]) + ActSteps(c, p, l, acts[|acts| - 1]) == run + CodeSteps(c, p, l, acts)
  {
  }

  /** Whole actions, from inside: where they lead, and that they keep the rule
      exactly when they leave no wakeup due. */
  lemma WholeLeads(s: S, run: seq<Step>, t: S, keep: set<nat>, c: nat, p: nat, l: nat, acts: seq<Act>)
    requires Leads(s, run, t, keep, true) && Ready(t, c, p, l) && t.mons[l].owed == {} && Whole(t.mons[l].val, acts)
    ensures var u := AfterInner(t, l, acts[..|acts| - 1]);
            && InMonitor(u, c, p, l)
            && Leads(s, run + CodeSteps(c, p, l, acts), AfterAct(u, c, p, l, acts[|acts| - 1]), keep,
                     l in keep ==> Play(Inside(t.mons[l].val, {}), acts).owed == {})
  {
    var before, a := acts[..|acts| - 1], acts[|acts| - 1];
    var mid := run + CodeSteps(c, p, l, before);
    InnerLeads(s, run, t, keep, c, p, l, before);
    StillReady(t, c, p, l, before);
    var u := AfterInner(t, l, before);
    if a.Leave? {
      LeaveLeads(s, mid, u, keep, true, c, p, l);
    } else {
      SleepLeads(s, mid, u, keep, true, c, p, l, a.x);
    }
    CodeMore(run, c, p, l, acts);
  }

  lemma EnterLeads(s: S, keep: set<nat>, c: nat, p: nat, l: nat)
    requires CanAcquireLk(s, c, p, l) && s.pt == None && s.procs[p].state == RUNNING && !s.mons[l].val.LockVal?
    ensures Leads(s, [DoAcquireLk(c, p, l)], AcquireLk(s, c, p, l), keep, true)
    ensures Ready(AcquireLk(s, c, p, l), c, p, l)
  {
    LeadsNowhere(s, keep);
    LeadsOn(s, [], s, keep, true, DoAcquireLk(c, p, l));
    assert [] + [DoAcquireLk(c, p, l)] == [DoAcquireLk(c, p, l)];
  }
}
