/** System calls and user accesses over copy-on-write memory, proved to behave
    as if every process owned private copies of its pages. */
module CowKernel {
  import opened Paging
  import opened Frames
  import opened Spaces
  import opened CowStates
  import opened CowSteps
  import opened CowView
  import opened CowVm
  import Eager

  /** userinit: the first process. False when setting up fails, where the source
      panics or, in inituvm, goes on without memory. */
  method UserInit(vm: Vm, id: nat, init: seq<Byte>, kmap: seq<Range>) returns (ok: bool)
    requires vm.Valid() && Dense(vm.m) && KmapOk(kmap) && id !in vm.tasks && id < NPROC && |init| < PGSIZE
    modifies vm
    ensures vm.Valid()
    ensures ok ==> Dense(vm.m)
    ensures ok ==> View(vm.m) == View(old(vm.m))[id := Eager.Proc(PGSIZE, [Seen(Padded(init), true)], false)]
    ensures ok ==> forall va: nat :: va < PGSIZE ==>
              && Eager.Accessible(View(vm.m), id, va)
              && Eager.Peek(View(vm.m), id, va) == if va < |init| then init[va] else 0
  {
    ok := vm.SetupKvm(id, kmap);
    if !ok || |vm.free| < 2 {
      return false;
    }
    ghost var n := vm.m;
    vm.InitUvm(id, init);
    ghost var r := vm.m;
    SetProcKeeps(vm.m, id, PGSIZE, false);
    vm.SetTask(id, PGSIZE, false);
    ViewFirst(old(vm.m), n, r, vm.m, id, kmap, Padded(init));
    FirstReads(View(vm.m), id, init);
  }

  lemma FirstReads(s: Eager.Sys, id: nat, init: seq<Byte>)
    requires |init| < PGSIZE && id in s && s[id] == Eager.Proc(PGSIZE, [Seen(Padded(init), true)], false)
    ensures forall va: nat :: va < PGSIZE ==>
              Eager.Accessible(s, id, va) && Eager.Peek(s, id, va) == if va < |init| then init[va] else 0
  {
  }

  /** forkcow */
  method Fork(vm: Vm, p: nat, c: nat, kmap: seq<Range>) returns (ok: bool)
    requires vm.Valid() && Dense(vm.m) && KmapOk(kmap) && p in vm.tasks && c !in vm.tasks && c < NPROC
    modifies vm
    ensures vm.Valid() && Dense(vm.m)
    ensures View(vm.m) == if ok then Eager.Fork(View(old(vm.m)), p, c) else View(old(vm.m))
    ensures !ok ==> vm.m.count == old(vm.m.count) && vm.m.role == old(vm.m.role)
    ensures !ok ==> |old(vm.m).free| <= NPDENTRIES + 1
  {
    DenseMapped(vm.m, p);
    var sz := vm.tasks[p].sz;
    ok := vm.CopyUvmCow(p, c, sz, kmap);
    if ok {
      ghost var n := vm.m;
      SetProcKeeps(vm.m, c, sz, false);
      vm.SetTask(c, sz, false);
      ViewCopied(old(vm.m), n, vm.m, p, c);
    } else {
      ViewSame(old(vm.m), vm.m);
    }
  }

  /** growproc with a positive argument */
  method Grow(vm: Vm, id: nat, sz: nat) returns (ok: bool)
    requires vm.Valid() && Dense(vm.m) && id in vm.tasks && vm.m.spaces[id].sz < sz
    modifies vm
    ensures vm.Valid() && Dense(vm.m)
    ensures ok ==> sz < KERNBASE && |View(old(vm.m))[id].pages| <= Pages(sz)
    ensures View(vm.m) == if ok then Eager.Grow(View(old(vm.m)), id, sz) else View(old(vm.m))
    ensures ok ==> forall va: nat :: Pages(old(vm.m.spaces[id].sz)) * PGSIZE <= va < Pages(sz) * PGSIZE ==>
              Eager.Accessible(View(vm.m), id, va) && Eager.Peek(View(vm.m), id, va) == 0
    ensures !ok ==> sz >= KERNBASE || |old(vm.m).free| <= Pages(sz) - |View(old(vm.m))[id].pages| + NPDENTRIES + 1
  {
    DenseMapped(vm.m, id);
    var t := vm.tasks[id];
    var r := vm.AllocUvm(id, t.sz, sz);
    if r == 0 {
      KeptSame(old(vm.m), vm.m);
      return false;
    }
    ghost var n := vm.m;
    SetProcKeeps(vm.m, id, sz, t.killed);
    vm.SetTask(id, sz, t.killed);
    ViewGrown(old(vm.m), n, vm.m, id, sz);
    GrownReads(View(old(vm.m)), View(vm.m), id, sz);
    ok := true;
  }

  lemma GrownReads(s: Eager.Sys, t: Eager.Sys, id: nat, sz: nat)
    requires id in s && |s[id].pages| <= Pages(sz) && t == Eager.Grow(s, id, sz)
    ensures forall va: nat :: |s[id].pages| * PGSIZE <= va < Pages(sz) * PGSIZE ==>
              Eager.Accessible(t, id, va) && Eager.Peek(t, id, va) == 0
  {
    forall va: nat | |s[id].pages| * PGSIZE <= va < Pages(sz) * PGSIZE
      ensures Eager.Accessible(t, id, va) && Eager.Peek(t, id, va) == 0
    {
      Eager.GrowReads(s, id, sz, va);
    }
  }

  lemma KeptSame(m: M, n: M)
    requires Dense(m) && (m == n || exists id :: Kept(m, n, id))
    ensures Dense(n) && View(n) == View(m)
  {
    ViewSame(m, n);
  }

  /** growproc with a negative argument that leaves some memory */
  method Shrink(vm: Vm, id: nat, sz: nat)
    requires vm.Valid() && Dense(vm.m) && id in vm.tasks && 0 < sz < vm.m.spaces[id].sz
    modifies vm
    ensures vm.Valid() && Dense(vm.m)
    ensures Pages(sz) <= |View(old(vm.m))[id].pages| && View(vm.m) == Eager.Shrink(View(old(vm.m)), id, sz)
  {
    DenseMapped(vm.m, id);
    var t := vm.tasks[id];
    var r := vm.DeallocUvm(id, t.sz, sz);
    ghost var n := vm.m;
    SetProcKeeps(vm.m, id, sz, t.killed);
    vm.SetTask(id, sz, t.killed);
    ViewGone(old(vm.m), n, vm.m, id, sz);
  }

  method Read(vm: Vm, id: nat, va: Eager.Addr) returns (out: Eager.Out)
    requires vm.Valid() && Dense(vm.m) && id in vm.tasks
    modifies vm
    ensures vm.Valid() && Dense(vm.m)
    ensures if Eager.Accessible(View(old(vm.m)), id, va)
            then out == Eager.Value(Eager.Peek(View(old(vm.m)), id, va)) && View(vm.m) == View(old(vm.m))
            else out == Eager.Killed && View(vm.m) == Eager.Kill(View(old(vm.m)), id)
  {
    OpenAccessible(vm.m, id, va);
    ViewDoomed(vm.m, id);
    out := vm.UserRead(id, va / PGSIZE, va % PGSIZE);
  }

  method Write(vm: Vm, id: nat, va: Eager.Addr, b: Byte) returns (out: Eager.Out)
    requires vm.Valid() && Dense(vm.m) && id in vm.tasks
    modifies vm
    ensures vm.Valid() && Dense(vm.m)
    ensures if Eager.Accessible(View(old(vm.m)), id, va) then out == Eager.Done || out == Eager.NoMemory else out == Eager.Killed
    ensures out == Eager.Done ==> Eager.Accessible(View(old(vm.m)), id, va)
    ensures View(vm.m) == if out == Eager.Done then Eager.Poke(View(old(vm.m)), id, va, b) else Eager.Kill(View(old(vm.m)), id)
    ensures out == Eager.NoMemory ==> old(vm.m).free == []
  {
    OpenAccessible(vm.m, id, va);
    ViewDoomed(vm.m, id);
    out := vm.UserWrite(id, va / PGSIZE, va % PGSIZE, b);
    if out == Eager.Done {
      ViewStored(old(vm.m), vm.m, id, va, b);
    }
  }

  /** exec's guard page below the stack */
  method Guard(vm: Vm, id: nat, v: nat)
    requires vm.Valid() && Dense(vm.m) && id in vm.tasks && v < |View(vm.m)[id].pages|
    modifies vm
    ensures vm.Valid() && Dense(vm.m) && View(old(vm.m))[id].pages[v].Seen?
    ensures View(vm.m) == Eager.Guard(View(old(vm.m)), id, v)
  {
    DenseMapped(vm.m, id);
    vm.ClearPteU(id, v);
    ViewGuarded(old(vm.m), vm.m, id, v);
  }

  /** wait's freevm of an exited child */
  method Exit(vm: Vm, id: nat)
    requires vm.Valid() && Dense(vm.m) && id in vm.tasks
    modifies vm
    ensures vm.Valid() && Dense(vm.m) && View(vm.m) == View(old(vm.m)) - {id}
  {
    vm.FreeVm(id);
    ViewExited(old(vm.m), vm.m, id);
  }

  method DoFork(vm: Vm, p: nat, c: nat, kmap: seq<Range>) returns (out: Eager.Out)
    requires vm.Valid() && Dense(vm.m) && KmapOk(kmap)
    modifies vm
    ensures vm.Valid() && Stepped(old(vm.m), vm.m, Eager.DoFork(p, c), out)
    ensures out.NoMemory? ==> Starved(old(vm.m), Eager.DoFork(p, c))
  {
    TaskIs(vm.tasks, vm.m, p);
    TaskIs(vm.tasks, vm.m, c);
    if p !in vm.tasks || vm.tasks[p].killed || c in vm.tasks || c >= NPROC {
      RefuseFork(vm.m, p, c);
      return Eager.Refused;
    }
    var ok := Fork(vm, p, c, kmap);
    StepFork(old(vm.m), vm.m, p, c, ok);
    out := if ok then Eager.Done else Eager.NoMemory;
  }

  method DoGrow(vm: Vm, id: nat, sz: nat) returns (out: Eager.Out)
    requires vm.Valid() && Dense(vm.m)
    modifies vm
    ensures vm.Valid() && Stepped(old(vm.m), vm.m, Eager.DoGrow(id, sz), out)
    ensures out.NoMemory? ==> Starved(old(vm.m), Eager.DoGrow(id, sz))
  {
    TaskIs(vm.tasks, vm.m, id);
    if id !in vm.tasks || vm.tasks[id].killed || sz < vm.tasks[id].sz {
      RefuseGrow(vm.m, id, sz);
      return Eager.Refused;
    }
    if sz == vm.tasks[id].sz {
      SameSize(vm.m, id);
      StepGrow(vm.m, vm.m, id, sz, true);
      return Eager.Done;
    }
    var ok := Grow(vm, id, sz);
    StepGrow(old(vm.m), vm.m, id, sz, ok);
    out := if ok then Eager.Done else if sz < KERNBASE then Eager.NoMemory else Eager.Refused;
  }

  method DoShrink(vm: Vm, id: nat, sz: nat) returns (out: Eager.Out)
    requires vm.Valid() && Dense(vm.m)
    modifies vm
    ensures vm.Valid() && Stepped(old(vm.m), vm.m, Eager.DoShrink(id, sz), out)
    ensures out.NoMemory? ==> Starved(old(vm.m), Eager.DoShrink(id, sz))
  {
    TaskIs(vm.tasks, vm.m, id);
    if id !in vm.tasks || vm.tasks[id].killed || sz == 0 || sz > vm.tasks[id].sz {
      RefuseShrink(vm.m, id, sz);
      return Eager.Refused;
    }
    if sz == vm.tasks[id].sz {
      SameSize(vm.m, id);
      StepShrink(vm.m, vm.m, id, sz);
      return Eager.Done;
    }
    Shrink(vm, id, sz);
    StepShrink(old(vm.m), vm.m, id, sz);
    out := Eager.Done;
  }

  method DoRead(vm: Vm, id: nat, va: Eager.Addr) returns (out: Eager.Out)
    requires vm.Valid() && Dense(vm.m)
    modifies vm
    ensures vm.Valid() && Stepped(old(vm.m), vm.m, Eager.DoRead(id, va), out)
    ensures out.NoMemory? ==> Starved(old(vm.m), Eager.DoRead(id, va))
  {
    TaskIs(vm.tasks, vm.m, id);
    if id !in vm.tasks || vm.tasks[id].killed {
      RefuseAccess(vm.m, id, va, 0);
      return Eager.Refused;
    }
    out := Read(vm, id, va);
    StepRead(old(vm.m), vm.m, id, va, out);
  }

  method DoWrite(vm: Vm, id: nat, va: Eager.Addr, b: Byte) returns (out: Eager.Out)
    requires vm.Valid() && Dense(vm.m)
    modifies vm
    ensures vm.Valid() && Stepped(old(vm.m), vm.m, Eager.DoWrite(id, va, b), out)
    ensures out.NoMemory? ==> Starved(old(vm.m), Eager.DoWrite(id, va, b))
  {
    TaskIs(vm.tasks, vm.m, id);
    if id !in vm.tasks || vm.tasks[id].killed {
      RefuseAccess(vm.m, id, va, b);
      return Eager.Refused;
    }
    out := Write(vm, id, va, b);
    StepWrite(old(vm.m), vm.m, id, va, b, out);
  }

  method DoGuard(vm: Vm, id: nat, v: nat) returns (out: Eager.Out)
    requires vm.Valid() && Dense(vm.m)
    modifies vm
    ensures vm.Valid() && Stepped(old(vm.m), vm.m, Eager.DoGuard(id, v), out)
    ensures out.NoMemory? ==> Starved(old(vm.m), Eager.DoGuard(id, v))
  {
    TaskIs(vm.tasks, vm.m, id);
    if id !in vm.tasks || vm.tasks[id].killed || v >= Pages(vm.tasks[id].sz) {
      RefuseGuard(vm.m, id, v);
      return Eager.Refused;
    }
    Guard(vm, id, v);
    StepGuard(old(vm.m), vm.m, id, v);
    out := Eager.Done;
  }

  method DoExit(vm: Vm, id: nat) returns (out: Eager.Out)
    requires vm.Valid() && Dense(vm.m)
    modifies vm
    ensures vm.Valid() && Stepped(old(vm.m), vm.m, Eager.DoExit(id), out)
    ensures out.NoMemory? ==> Starved(old(vm.m), Eager.DoExit(id))
  {
    if id !in vm.tasks {
      return Eager.Refused;
    }
    Exit(vm, id);
    out := Eager.Done;
  }

  /** One command. */
  method Step(vm: Vm, cmd: Eager.Cmd, kmap: seq<Range>) returns (out: Eager.Out)
    requires vm.Valid() && Dense(vm.m) && KmapOk(kmap)
    modifies vm
    ensures vm.Valid() && Stepped(old(vm.m), vm.m, cmd, out)
    ensures out.NoMemory? ==> Starved(old(vm.m), cmd)
  {
    match cmd {
      case DoFork(p, c) => out := DoFork(vm, p, c, kmap);
      case DoGrow(id, sz) => out := DoGrow(vm, id, sz);
      case DoShrink(id, sz) => out := DoShrink(vm, id, sz);
      case DoRead(id, va) => out := DoRead(vm, id, va);
      case DoWrite(id, va, b) => out := DoWrite(vm, id, va, b);
      case DoGuard(id, v) => out := DoGuard(vm, id, v);
      case DoExit(id) => out := DoExit(vm, id);
    }
  }

  /** Copy-on-write is invisible: every run reports, and leaves every process
      seeing, what eager copying would. Lack of memory is reported by commands that
      allocate, and only where too few frames are free: the trace has the states. */
  method Execute(vm: Vm, cmds: seq<Eager.Cmd>, kmap: seq<Range>) returns (outs: seq<Eager.Out>, ghost trace: seq<M>)
    requires vm.Valid() && Dense(vm.m) && KmapOk(kmap)
    modifies vm
    ensures vm.Valid() && Dense(vm.m)
    ensures Eager.Runs(View(old(vm.m)), cmds, outs, View(vm.m))
    ensures Traces(trace, cmds, outs) && trace[0] == old(vm.m) && trace[|cmds|] == vm.m
  {
    outs := [];
    trace := [vm.m];
    ghost var start := View(vm.m);
    var i := 0;
    while i < |cmds|
      invariant 0 <= i <= |cmds| && vm.Valid() && Dense(vm.m)
      invariant Eager.Runs(start, cmds[..i], outs, View(vm.m))
      invariant Traces(trace, cmds[..i], outs) && trace[0] == old(vm.m) && trace[i] == vm.m
    {
      ghost var before := View(vm.m);
      var out := Step(vm, cmds[i], kmap);
      Eager.RunsSnoc(start, cmds[..i], outs, before, cmds[i], out);
      TracesSnoc(trace, cmds[..i], outs, vm.m, cmds[i], out);
      assert cmds[..i + 1] == cmds[..i] + [cmds[i]];
      outs := outs + [out];
      trace := trace + [vm.m];
      i := i + 1;
    }
    assert cmds[..i] == cmds;
  }
}
