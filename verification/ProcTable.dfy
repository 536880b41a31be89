/** The loops over ptable.proc that run under ptable.lock, proved to make the
    changes the steps of the machine speak of. */
module ProcTable {
  import opened ProcState
  import opened ProcSteps

  /** wakeup1 */
  method WakeupAll(a: array<Proc>, chan: Chan)
    modifies a
    ensures a[..] == Wakeup1(old(a[..]), chan)
  {
    var i := 0;
    while i < a.Length
      invariant 0 <= i <= a.Length
      invariant forall k :: 0 <= k < i ==> a[k] == Wakeup1(old(a[..]), chan)[k]
      invariant forall k :: i <= k < a.Length ==> a[k] == old(a[k])
    {
      if a[i].state == SLEEPING && a[i].chan == chan {
        a[i] := Woken(a[i]);
      }
      i := i + 1;
    }
  }

  /** Some child of p among the first k entries has exited. */
  predicate ZombieAmong(b: seq<Proc>, p: nat, k: nat)
    requires k <= |b|
  {
    exists q :: 0 <= q < k && b[q].parent == Some(p) && b[q].state == ZOMBIE
  }

  /** Entry i after the first k rounds of exit's loop. */
  function Passed(b: seq<Proc>, i: nat, p: nat, init: nat, k: nat): Proc
    requires i < |b| && k <= |b|
  {
    var w := if ZombieAmong(b, p, k) && b[i].state == SLEEPING && b[i].chan == Self(init) then Woken(b[i]) else b[i];
    if i < k && b[i].parent == Some(p) then WithParent(w, Some(init)) else w
  }

  /** exit: wake the parent, pass the children to init, wake init for those that
      have exited already. */
  method PassChildren(a: array<Proc>, p: nat, init: nat)
    requires p < a.Length
    modifies a
    ensures a[..] == ExitTable(old(a[..]), p, init)
  {
    if a[p].parent.Some? {
      WakeupAll(a, Self(a[p].parent.value));
    }
    ghost var b := a[..];
    var k := 0;
    while k < a.Length
      invariant 0 <= k <= a.Length
      invariant forall i :: 0 <= i < a.Length ==> a[i] == Passed(b, i, p, init, k)
    {
      ghost var before := a[..];
      if a[k].parent == Some(p) {
        a[k] := WithParent(a[k], Some(init));
        if a[k].state == ZOMBIE {
          WakeupAll(a, Self(init));
        }
      }
      PassedOn(b, before, a[..], p, init, k);
      k := k + 1;
    }
    PassedAll(b, a[..], p, init);
  }

  lemma PassedOn(b: seq<Proc>, s: seq<Proc>, t: seq<Proc>, p: nat, init: nat, k: nat)
    requires |s| == |t| == |b| && k < |b| && forall i :: 0 <= i < |b| ==> s[i] == Passed(b, i, p, init, k)
    requires var u := if s[k].parent == Some(p) then s[k := WithParent(s[k], Some(init))] else s;
             t == if s[k].parent == Some(p) && s[k].state == ZOMBIE then Wakeup1(u, Self(init)) else u
    ensures forall i :: 0 <= i < |b| ==> t[i] == Passed(b, i, p, init, k + 1)
  {
    assert s[k] == Passed(b, k, p, init, k);
    assert ZombieAmong(b, p, k + 1) <==> ZombieAmong(b, p, k) || (b[k].parent == Some(p) && b[k].state == ZOMBIE);
    forall i | 0 <= i < |b|
      ensures t[i] == Passed(b, i, p, init, k + 1)
    {
      assert s[i] == Passed(b, i, p, init, k);
    }
  }

  lemma PassedAll(b: seq<Proc>, t: seq<Proc>, p: nat, init: nat)
    requires |t| == |b| && forall i :: 0 <= i < |b| ==> t[i] == Passed(b, i, p, init, |b|)
    ensures t == Reparent(if HasZombie(b, p) then Wakeup1(b, Self(init)) else b, p, init)
  {
    assert HasZombie(b, p) <==> ZombieAmong(b, p, |b|);
    var r := Reparent(if HasZombie(b, p) then Wakeup1(b, Self(init)) else b, p, init);
    forall i | 0 <= i < |b|
      ensures t[i] == r[i]
    {
    }
  }

  /** wait's scan: the first exited child, or the length if there is none, and
      whether there are children at all. */
  method ScanChildren(a: array<Proc>, p: nat) returns (q: nat, havekids: bool)
    ensures q <= a.Length
    ensures q < a.Length ==> a[q].parent == Some(p) && a[q].state == ZOMBIE
    ensures forall k :: 0 <= k < q ==> !(a[k].parent == Some(p) && a[k].state == ZOMBIE)
    ensures q == a.Length ==> (havekids <==> exists k :: 0 <= k < a.Length && a[k].parent == Some(p))
  {
    q, havekids := 0, false;
    while q < a.Length
      invariant 0 <= q <= a.Length && !ZombieAmong(a[..], p, q)
      invariant havekids <==> exists k :: 0 <= k < q && a[k].parent == Some(p)
    {
      if a[q].parent == Some(p) {
        havekids := true;
        if a[q].state == ZOMBIE {
          return;
        }
      }
      q := q + 1;
    }
  }

  /** allocproc's scan. */
  method FindUnused(a: array<Proc>) returns (i: nat)
    ensures i <= a.Length && (i < a.Length ==> a[i].state == UNUSED)
    ensures forall k :: 0 <= k < i ==> a[k].state != UNUSED
  {
    i := 0;
    while i < a.Length && a[i].state != UNUSED
      invariant 0 <= i <= a.Length
      invariant forall k :: 0 <= k < i ==> a[k].state != UNUSED
    {
      i := i + 1;
    }
  }

  /** kill's scan and its effect. */
  method KillPid(a: array<Proc>, pid: nat) returns (k: nat)
    modifies a
    ensures FirstPid(old(a[..]), pid, k)
    ensures a[..] == if k < a.Length then old(a[..])[k := Killed(old(a[..])[k])] else old(a[..])
    ensures k < a.Length ==>
              var r := old(a[k]);
              && r.pid == pid && a[k].killed && a[k].state == (if r.state == SLEEPING then RUNNABLE else r.state)
              && a[k].chan == r.chan && a[k].parent == r.parent && a[k].kstack == r.kstack && a[k].pid == r.pid
              && a[k].pc == r.pc && a[k].on == r.on && a[k].mine == r.mine
    ensures forall i :: 0 <= i < k ==> old(a[i]).pid != pid
    ensures forall i :: 0 <= i < a.Length && i != k ==> a[i] == old(a[i])
  {
    k := 0;
    while k < a.Length
      invariant 0 <= k <= a.Length && a[..] == old(a[..])
      invariant forall i :: 0 <= i < k ==> a[i].pid != pid
    {
      if a[k].pid == pid {
        a[k] := Killed(a[k]);
        return;
      }
      k := k + 1;
    }
  }
}
