/** The kernel's virtual memory with copy-on-write fork: page tables, frame
    counts and the free list, changed in place by the routines of vm.c and
    kalloc.c. The ghost field `m` is the same state with flat page tables. */
module CowVm {
  import opened Paging
  import opened Frames
  import opened Spaces
  import opened CowStates
  import opened CowSteps
  import opened CowMemory
  import opened Eager

  datatype Fault = Resolved | Illegal | OutOfMemory

  class Vm {
    var free: seq<nat>         // kmem.freelist
    var count: seq<int>        // pg_refcount
    var mem: seq<Page>
    var tasks: map<nat, Task>
    ghost var m: M

    /** The fields and the ghost state agree. */
    ghost predicate Tied()
      reads this
    {
      Agree(free, count, mem, tasks, m)
    }

    ghost predicate Valid()
      reads this
    {
      Tied() && Inv(m)
    }

    /** kinit: every frame from `first` on is freed in turn. */
    constructor (first: nat)
      requires 0 < first <= NFRAMES
      ensures Valid() && m.spaces == map[]
      ensures forall f :: 0 <= f < NFRAMES ==> (m.role[f] == Free <==> first <= f)
    {
      free := [];
      count := seq(NFRAMES, _ => 0);
      mem := seq(NFRAMES, _ => JunkPage());
      tasks := map[];
      m := Bare();
      new;
      BareKeeps();
      assert AbsAll(tasks) == map[];
      var f := first;
      while f < NFRAMES
        invariant first <= f <= NFRAMES && Valid() && m.spaces == map[]
        invariant forall g :: 0 <= g < NFRAMES ==> m.role[g] == if first <= g < f then Free else Kernel
      {
        PushKeeps(m, f);
        Kfree(f);
        f := f + 1;
      }
    }

    /** Store a page-table entry. */
    method StorePte(id: nat, v: nat, e: Pte)
      requires Tied() && id in tasks && v < VPAGES && HasTable(tasks[id].pgdir, v)
      modifies this`tasks, this`m
      ensures Tied() && id in tasks
      ensures forall k :: k in old(tasks) && k != id ==> k in tasks && tasks[k] == old(tasks)[k]
      ensures m == M(old(m).free, old(m).count, old(m).mem, SetPte(old(m).spaces, id, v, e), old(m).role)
    {
      var t := tasks[id];
      var u := Task(SetEntry(t.pgdir, v, e), t.sz, t.killed);
      AbsSetPte(tasks, id, v, e);
      AbsAllUpdate(tasks, id, u);
      m := M(m.free, m.count, m.mem, SetPte(m.spaces, id, v, e), m.role);
      tasks := tasks[id := u];
    }

    /** Change a reference count. */
    method SetCount(f: nat, c: int)
      requires Tied() && f < NFRAMES && -128 <= c <= SCHAR_MAX
      modifies this`count, this`m
      ensures Tied() && m == M(old(m).free, old(m).count[f := c], old(m).mem, old(m).spaces, old(m).role)
    {
      count := count[f := c];
      m := M(m.free, m.count[f := c], m.mem, m.spaces, m.role);
    }

    /** Record what a frame is now used for. */
    ghost method SetRole(role: seq<Role>)
      requires Tied() && |role| == NFRAMES
      modifies this`m
      ensures Tied() && m == M(old(m).free, old(m).count, old(m).mem, old(m).spaces, role)
    {
      m := M(m.free, m.count, m.mem, m.spaces, role);
    }

    // ---- kalloc.c ----

    /** The first free frame, or 0 if there is none. */
    method Kalloc() returns (f: nat)
      requires Tied() && (free != [] ==> 0 < free[0] < NFRAMES)
      modifies this`free, this`m
      ensures Tied()
      ensures f == 0 <==> old(m).free == []
      ensures m == if f == 0 then old(m) else Pop(old(m))
      ensures f != 0 ==> f == old(m).free[0]
    {
      if free == [] {
        f := 0;
      } else {
        f := free[0];
        m := Pop(m);
        free := free[1..];
      }
    }

    method Kfree(f: nat)
      requires Tied() && 0 < f < NFRAMES
      modifies this`free, this`mem, this`m
      ensures Tied() && m == Push(old(m), f) && forall o :: 0 <= o < PGSIZE ==> mem[f][o] == 1
    {
      mem := mem[f := JunkPage()];
      free := [f] + free;
      m := Push(m, f);
    }

    /** memset or memmove of a whole page. */
    method FillPage(f: nat, data: Page)
      requires Tied() && f < NFRAMES
      modifies this`mem, this`m
      ensures Tied() && m == Fill(old(m), f, data)
    {
      mem := mem[f := data];
      m := Fill(m, f, data);
    }

    // ---- walkpgdir and mappages ----

    /** walkpgdir with alloc set: false when no frame is left for the table. */
    method Walk(id: nat, v: nat) returns (ok: bool)
      requires Valid() && id in tasks && v < VPAGES
      modifies this
      ensures Valid() && id in tasks
      ensures ok ==> HasTable(tasks[id].pgdir, v)
      ensures ok <==> HasTable(old(tasks)[id].pgdir, v) || old(m).free != []
      ensures !ok ==> m == old(m) && tasks == old(tasks) && free == []
      ensures Quiet(old(m), m, id) && m.spaces[id].flat == old(m).spaces[id].flat
    {
      QuietRefl(m, id);
      ok := true;
      if !HasTable(tasks[id].pgdir, v) {
        var d := v / NPTENTRIES;
        if free != [] {
          PopKeeps(m);
          AttachQuiet(m, id, d);
        }
        var f := Kalloc();
        if f == 0 {
          ok := false;
        } else {
          AttachTable(id, d, f);
        }
      }
    }

    /** Install a zeroed table page. */
    method AttachTable(id: nat, d: nat, f: nat)
      requires Tied() && id in tasks && d !in tasks[id].pgdir.pde && f < NFRAMES
      modifies this`tasks, this`m
      ensures Tied() && m == Attach(old(m), id, d, f)
      ensures id in tasks && d in tasks[id].pgdir.pde
    {
      var t := tasks[id];
      var u := Task(AddTable(t.pgdir, d, f), t.sz, t.killed);
      AbsAddTable(t, d, f);
      AbsAllUpdate(tasks, id, u);
      m := Attach(m, id, d, f);
      tasks := tasks[id := u];
    }

    method MapKernelPage(id: nat, v: nat, e: Pte) returns (ok: bool)
      requires Valid() && id in tasks && UPAGES <= v < VPAGES && v !in m.spaces[id].flat && e.p
      modifies this
      ensures Valid() && id in tasks
      ensures Quiet(old(m), m, id)
      ensures ok ==> m.spaces[id].flat == old(m).spaces[id].flat[v := e]
      ensures !ok ==> m.free == []
    {
      ok := Walk(id, v);
      if ok {
        assert !Entry(tasks[id].pgdir, v).p;   // no "remap" panic
        KernelEntryQuiet(m, id, v, e);
        QuietTrans(old(m), m, KernelEntry(m, id, v, e), id);
        StorePte(id, v, e);
      }
    }

    /** mappages for kernel addresses: pages v, v+1, .. to frames f, f+1, .. */
    method MapKernelPages(id: nat, v: nat, pages: nat, f: nat, w: bool) returns (ok: bool)
      requires Valid() && id in tasks && UPAGES <= v && v + pages <= VPAGES
      requires forall x: nat :: v <= x < v + pages ==> x !in m.spaces[id].flat
      modifies this
      ensures Valid() && id in tasks
      ensures Quiet(old(m), m, id)
      ensures ok ==> KernelMapped(old(m), m, id, v, pages, f, w)
      ensures !ok ==> m.free == []
    {
      KernelMappedNone(m, id, v, f, w);
      ok := true;
      var i := 0;
      while i < pages
        invariant 0 <= i <= pages && Valid() && id in tasks && ok
        invariant KernelMapped(old(m), m, id, v, i, f, w)
      {
        ghost var m0 := m;
        var e := Pte(true, w, false, false, f + i);
        var x := v + i;
        ok := MapKernelPage(id, x, e);
        QuietTrans(old(m), m0, m, id);
        if !ok {
          return;
        }
        KernelMappedStep(old(m), m0, m, id, v, i, f, w, x, e);
        i := i + 1;
      }
    }

    // ---- deallocuvm and freevm ----

    /** Drop one mapping, and the frame with the last one. */
    method RemovePage(id: nat, v: nat)
      requires Tied() && IsMapped(m, id, v) && 0 < At(m, id, v).frame < NFRAMES
      requires 1 <= m.count[At(m, id, v).frame] <= SCHAR_MAX
      modifies this
      ensures Tied() && m == Removed(old(m), id, v) && id in tasks
    {
      FlatEntry(tasks, id, v);
      var pa := Entry(tasks[id].pgdir, v).frame;
      var c := count[pa] - 1;
      ghost var role := if c == 0 then m.role[pa := Kernel] else m.role;
      SetCount(pa, c);
      StorePte(id, v, NoPte);
      SetRole(role);
      UnmapUserIs(old(m), m, id, v, pa, c);
      if c == 0 {
        Kfree(pa);
      }
    }

    /** Unmap page v if it is mapped; report a missing table. */
    method UnmapAt(id: nat, v: nat, ghost g: M, ghost lo: nat) returns (missing: bool)
      requires Valid() && id in tasks && lo <= v < UPAGES && Gone(g, m, id, lo, v)
      modifies this
      ensures Valid() && id in tasks
      ensures missing ==> m == old(m) && forall x: nat :: x / NPTENTRIES == v / NPTENTRIES ==> x !in m.spaces[id].flat
      ensures !missing ==> Gone(g, m, id, lo, v + 1)
    {
      missing := !HasTable(tasks[id].pgdir, v);
      if !missing {
        if Entry(tasks[id].pgdir, v).p {
          assert IsMapped(m, id, v);
          RemovedKeeps(m, id, v);
          CountBounded(m, At(m, id, v).frame);
          GoneStep(g, m, id, lo, v);
          RemovePage(id, v);
        } else {
          GoneSkip(g, m, id, lo, v, v + 1);
        }
      }
    }

    /** The loop body of deallocuvm: a missing table is stepped over in one go. */
    method DeallocStep(id: nat, a: nat, ghost oldsz: nat, ghost g: M, ghost lo: nat) returns (next: nat)
      requires Valid() && id in tasks && Cleared(g, m, id, lo, a, oldsz) && a < oldsz <= KERNBASE
      modifies this
      ensures Valid() && id in tasks
      ensures a < next && Cleared(g, m, id, lo, next, oldsz)
    {
      var v := a / PGSIZE;
      var missing := UnmapAt(id, v, g, lo);
      if missing {
        next := PgAddr(PDX(a) + 1, 0, 0);
        ClearedTable(g, m, id, lo, next, oldsz, v, a);
      } else {
        next := a + PGSIZE;
        ClearedNext(g, m, id, lo, next, oldsz, v);
      }
    }

    /** Unmap the user pages from newsz up to oldsz. */
    method DeallocUvm(id: nat, oldsz: nat, newsz: nat) returns (sz: nat)
      requires Valid() && id in tasks && oldsz <= KERNBASE
      modifies this
      ensures Valid() && id in tasks
      ensures sz == if newsz >= oldsz then oldsz else newsz
      ensures newsz >= oldsz ==> m == old(m)
      ensures newsz < oldsz ==> Gone(old(m), m, id, Pages(newsz), Pages(oldsz))
    {
      if newsz >= oldsz {
        return oldsz;
      }
      ghost var g := m;
      ghost var lo := Pages(newsz);
      ClearedStart(m, id, newsz, oldsz);
      var a := PgRoundUp(newsz);
      while a < oldsz
        invariant Valid() && id in tasks
        invariant Cleared(g, m, id, lo, a, oldsz)
        decreases oldsz - a
      {
        a := DeallocStep(id, a, oldsz, g, lo);
      }
      sz := newsz;
    }

    /** Forget the task; its frames stay with the kernel until freed. */
    method DropTask(id: nat)
      requires Tied() && id in tasks
      modifies this`tasks, this`m
      ensures Tied() && m == DropSpace(old(m), id) && tasks == old(tasks) - {id}
    {
      AbsAllDrop(tasks, id);
      tasks := tasks - {id};
      m := DropSpace(m, id);
    }

    /** Free the table pages and the directory of a space that is gone. */
    method FreeTables(pd: PgDir, ghost g: M, ghost id: nat)
      requires Valid() && Inv(g) && id in g.spaces && g.spaces[id].dir == pd.frame
      requires g.spaces[id].tables == TableFrames(pd) && Freeing(g, m, id, 0)
      modifies this
      ensures Valid() && Rest(g, m, id) && m.spaces == g.spaces - {id}
    {
      var i := 0;
      while i < NPDENTRIES
        invariant 0 <= i <= NPDENTRIES && Valid()
        invariant Freeing(g, m, id, i)
      {
        if i in pd.pde {
          FreeingStep(g, m, id, i, pd.pde[i].frame);
          Kfree(pd.pde[i].frame);
        } else {
          FreeingSkip(g, m, id, i);
        }
        i := i + 1;
      }
      FreeingEnd(g, m, id, pd.frame);
      Kfree(pd.frame);
    }

    method FreeVm(id: nat)
      requires Valid() && id in tasks
      modifies this
      ensures Valid()
      ensures Rest(old(m), m, id) && m.spaces == old(m).spaces - {id}
    {
      var sz := DeallocUvm(id, KERNBASE, 0);
      var pd := tasks[id].pgdir;
      ghost var g := m;
      GoneAll(old(m), m, id);
      DropSpaceKeeps(m, id);
      FreeingStart(m, id);
      DropTask(id);
      FreeTables(pd, g, id);
      RestTrans(old(m), g, m, id);
    }

    // ---- setupkvm ----

    method NewTask(id: nat, f: nat)
      requires Tied() && f < NFRAMES
      modifies this`tasks, this`m
      ensures Tied() && m == NewSpace(old(m), id, f) && id in tasks
    {
      var t := Task(PgDir(f, map[]), 0, false);
      AbsAllUpdate(tasks, id, t);
      assert Flat(t.pgdir) == map[] && TableFrames(t.pgdir) == map[];
      tasks := tasks[id := t];
      m := NewSpace(m, id, f);
    }

    /** A new address space with the kernel's mappings and no user pages. */
    method SetupKvm(id: nat, kmap: seq<Range>) returns (ok: bool)
      requires Valid() && KmapOk(kmap) && id !in tasks && id < NPROC
      modifies this
      ensures Valid()
      ensures ok ==> Starting(old(m), m, id, kmap, |kmap|)
      ensures ok ==> id in tasks
      ensures !ok ==> Rest(old(m), m, id) && m.spaces == old(m).spaces
      ensures !ok ==> |old(m).free| <= NPDENTRIES + 1
    {
      if free != [] {
        NewSpaceStarts(m, id, kmap);
      }
      var f := Kalloc();
      if f == 0 {
        return false;
      }
      FillPage(f, ZeroPage());
      NewTask(id, f);
      var j := 0;
      while j < |kmap|
        invariant 0 <= j <= |kmap| && Valid() && id in tasks
        invariant Starting(old(m), m, id, kmap, j)
      {
        ghost var g := m;
        var k := kmap[j];
        StartingRange(old(m), m, id, kmap, j);
        ok := MapKernelPages(id, k.v, k.pages, k.frame, k.w);
        if !ok {
          QuietRest(g, m, id);
          RestTrans(old(m), g, m, id);
          SetupStarved(old(m), m, id);
          ghost var h := m;
          FreeVm(id);
          RestTrans(old(m), h, m, id);
          RestGone(old(m), m, id);
          return;
        }
        StartingStep(old(m), g, m, id, kmap, j);
        j := j + 1;
      }
      ok := true;
    }

    // ---- allocuvm ----

    /** Store a user entry and count it. */
    method MapUserPage(id: nat, v: nat, e: Pte)
      requires Tied() && id in tasks && v < VPAGES && HasTable(tasks[id].pgdir, v)
      requires e.frame < NFRAMES && 0 <= m.count[e.frame] < SCHAR_MAX
      modifies this
      ensures Tied() && m == MapUser(old(m), id, v, e) && id in tasks
    {
      var f := e.frame;
      StorePte(id, v, e);
      var c := count[f] + 1;
      ghost var role := m.role[f := User];
      SetCount(f, c);
      SetRole(role);
      MapUserIs(old(m), m, id, v, e, f, c);
    }

    /** One more zeroed page. f is 0 when there was no frame; !ok with a frame
        means that there was none for its table. */
    method AllocPage(id: nat, v: nat, ghost g: M, ghost lo: nat) returns (f: nat, ok: bool)
      requires Valid() && id in tasks && lo <= v < UPAGES && !IsMapped(g, id, v)
      requires Grown(g, m, id, lo, v) && KernelKept(g, m)
      modifies this
      ensures Valid() && id in tasks
      ensures ok ==> Grown(g, m, id, lo, v + 1) && KernelKept(g, m)
      ensures !ok && f == 0 ==> m == old(m)
      ensures !ok && f != 0 ==> Reserved(old(m), m, f, ZeroPage())
      ensures !ok ==> m.free == []
    {
      ok := false;
      if free != [] {
        ReserveKeeps(m, ZeroPage());
      }
      f := Kalloc();
      if f == 0 {
        return;
      }
      FillPage(f, ZeroPage());
      ghost var a := m;
      ok := Walk(id, v);
      if ok {
        var e := Pte(true, true, true, false, f);
        GrownStep(g, old(m), a, m, id, lo, v, e, f);
        MapUserPage(id, v, e);
      }
    }

    /** allocuvm's two failure paths. */
    method AbandonAlloc(id: nat, oldsz: nat, newsz: nat, f: nat, ghost g: M, ghost m0: M, ghost x: nat)
      requires Valid() && Inv(g) && id in tasks && Pages(oldsz) < Pages(newsz) && newsz < KERNBASE
      requires Vacant(g, id, Pages(oldsz), Pages(newsz)) && x <= Pages(newsz)
      requires Grown(g, m0, id, Pages(oldsz), x) && KernelKept(g, m0)
      requires if f == 0 then m == m0 else Reserved(m0, m, f, ZeroPage())
      modifies this
      ensures Valid() && id in tasks && KernelKept(g, m)
      ensures Kept(g, m, id) && m.count == g.count
    {
      PagesRange(0, newsz);
      ghost var lo, hi := Pages(oldsz), Pages(newsz);
      var sz := DeallocUvm(id, newsz, oldsz);
      if f == 0 {
        AllocUndo(g, m0, m, id, lo, x, hi);
      } else {
        AllocUndoFrame(g, m0, old(m), m, id, lo, x, hi, f);
        Kfree(f);
      }
      KeptCounts(g, m, id);
    }

    /** allocuvm's loop; the addresses it steps through are those of the pages
        from Pages(oldsz) up to Pages(newsz) (see Paging.PageLoop). */
    method AllocPages(id: nat, oldsz: nat, newsz: nat) returns (ok: bool)
      requires Valid() && id in tasks && Vacant(m, id, Pages(oldsz), Pages(newsz)) && oldsz <= newsz < KERNBASE
      modifies this
      ensures Valid() && id in tasks && KernelKept(old(m), m)
      ensures ok ==> Grown(old(m), m, id, Pages(oldsz), Pages(newsz))
      ensures !ok ==> Kept(old(m), m, id) && m.count == old(m).count
      ensures !ok ==> |old(m).free| <= Pages(newsz) - Pages(oldsz) + NPDENTRIES + 1
    {
      ghost var g := m;
      var lo, hi := Pages(oldsz), Pages(newsz);
      GrownNone(m, id, lo);
      PagesRange(oldsz, newsz);
      var v := lo;
      while v < hi
        invariant Valid() && id in tasks && KernelKept(g, m)
        invariant lo <= v <= hi && Grown(g, m, id, lo, v)
      {
        ghost var m0 := m;
        var f;
        f, ok := AllocPage(id, v, g, lo);
        if !ok {
          GrowStarved(g, m0, m, id, lo, v, f);
          AbandonAlloc(id, oldsz, newsz, f, g, m0, v);
          return;
        }
        v := v + 1;
      }
      ok := true;
    }

    /** Grow space id from oldsz to newsz with zeroed pages; on failure nothing
        is left but page tables. */
    method AllocUvm(id: nat, oldsz: nat, newsz: nat) returns (sz: nat)
      requires Valid() && id in tasks && Vacant(m, id, Pages(oldsz), Pages(newsz))
      modifies this
      ensures Valid() && id in tasks && KernelKept(old(m), m)
      ensures newsz >= KERNBASE ==> sz == 0 && m == old(m)
      ensures newsz < KERNBASE && newsz < oldsz ==> sz == oldsz && m == old(m)
      ensures oldsz <= newsz < KERNBASE ==>
                || (sz == newsz && Grown(old(m), m, id, Pages(oldsz), Pages(newsz)))
                || (&& sz == 0 && Kept(old(m), m, id) && m.count == old(m).count
                    && |old(m).free| <= Pages(newsz) - Pages(oldsz) + NPDENTRIES + 1)
      ensures oldsz <= newsz < KERNBASE && sz == newsz ==> Zeroed(m, id, Pages(oldsz), Pages(newsz))
    {
      if newsz >= KERNBASE {
        return 0;
      }
      if newsz < oldsz {
        return oldsz;
      }
      var ok := AllocPages(id, oldsz, newsz);
      sz := if ok then newsz else 0;
      if ok {
        GrownZeroed(old(m), m, id, Pages(oldsz), Pages(newsz));
      }
    }

    // ---- copyuvmcow ----

    /** Map the parent's frame in the child too, mark the parent's entry
        copy-on-write, and count the new mapping. */
    method ShareEntry(p: nat, c: nat, v: nat, e: Pte, marked: Pte)
      requires Tied() && p in tasks && c in tasks && p != c && v < VPAGES
      requires HasTable(tasks[p].pgdir, v) && HasTable(tasks[c].pgdir, v)
      requires e.frame < NFRAMES && 0 <= m.count[e.frame] < SCHAR_MAX
      modifies this
      ensures Tied() && m == Reflag(MapUser(old(m), c, v, e), p, v, marked) && p in tasks && c in tasks
    {
      var f := e.frame;
      StorePte(c, v, e);
      ghost var spaces := m.spaces;
      StorePte(p, v, marked);
      var k := count[f] + 1;
      ghost var role := m.role[f := User];
      SetCount(f, k);
      SetRole(role);
      MapUserIs(old(m), M(m.free, m.count, m.mem, spaces, m.role), c, v, e, f, k);
    }

    /** One round of copyuvmcow's loop. */
    method SharePage(p: nat, c: nat, v: nat, ghost g: M) returns (ok: bool)
      requires Valid() && p in tasks && c in tasks && v < UPAGES && IsMapped(m, p, v) && Copied(g, m, p, c, v)
      modifies this
      ensures Valid() && p in tasks && c in tasks
      ensures Copied(g, m, p, c, if ok then v + 1 else v)
      ensures !ok ==> m.free == []
    {
      FlatEntry(tasks, p, v);
      var e := Entry(tasks[p].pgdir, v);
      var sealed := Pte(true, false, e.u, e.cow, e.frame);
      CopiedReflag(g, m, p, c, v, v, sealed);
      StorePte(p, v, sealed);
      ghost var m1 := m;
      ok := Walk(c, v);
      CopiedQuiet(g, m1, m, p, c, v);
      if ok {
        FlatEntry(tasks, p, v);
        ghost var r := MapUser(m, c, v, sealed);
        CopiedShare(g, m, r, p, c, v, sealed);
        var marked := Pte(true, false, e.u, true, e.frame);
        CopiedReflag(g, r, p, c, v + 1, v, marked);
        ShareEntry(p, c, v, sealed, marked);
      }
    }

    /** copyuvmcow's failure path. */
    method AbandonCopy(p: nat, c: nat, ghost g: M, ghost x: nat)
      requires Valid() && Inv(g) && c in tasks && Copied(g, m, p, c, x)
      modifies this
      ensures Valid()
      ensures Sealed(g, m, p) && m.count == g.count && m.role == g.role
    {
      FreeVm(c);
      CopyUndo(g, old(m), m, p, c, x);
      SealedRoles(g, m, p);
    }

    /** copyuvmcow's loop. */
    method SharePages(p: nat, c: nat, sz: nat, ghost g: M) returns (ok: bool)
      requires Valid() && Inv(g) && p in tasks && c in tasks && sz < KERNBASE && Copied(g, m, p, c, 0)
      requires forall v: nat :: v < Pages(sz) ==> IsMapped(g, p, v)
      modifies this
      ensures Valid()
      ensures ok ==> Copied(g, m, p, c, Pages(sz))
      ensures !ok ==> Sealed(g, m, p) && m.count == g.count && m.role == g.role
      ensures !ok ==> |g.free| <= NPDENTRIES + 1
    {
      PagesRange(0, sz);
      var hi := Pages(sz);
      var v := 0;
      while v < hi
        invariant Valid() && p in tasks && c in tasks
        invariant 0 <= v <= hi && Copied(g, m, p, c, v)
      {
        CopiedHas(g, m, p, c, v);
        ok := SharePage(p, c, v, g);
        if !ok {
          CopyStarved(g, m, p, c, v);
          AbandonCopy(p, c, g, v);
          return;
        }
        v := v + 1;
      }
      ok := true;
    }

    /** Give the new space c all pages of p, shared. On failure, for want of
        frames for page tables, c is gone, no frame has changed hands and no
        process sees a difference. */
    method CopyUvmCow(p: nat, c: nat, sz: nat, kmap: seq<Range>) returns (ok: bool)
      requires Valid() && KmapOk(kmap) && p in tasks && c !in tasks && c < NPROC && sz < KERNBASE
      requires forall v: nat :: v < Pages(sz) ==> IsMapped(m, p, v)
      modifies this
      ensures Valid()
      ensures ok ==> Copied(old(m), m, p, c, Pages(sz)) && p in tasks && c in tasks
      ensures !ok ==> Sealed(old(m), m, p)
      ensures !ok ==> m.count == old(m).count && m.role == old(m).role
      ensures !ok ==> |old(m).free| <= NPDENTRIES + 1
    {
      ghost var g := m;
      ok := SetupKvm(c, kmap);
      if ok {
        CopiedNone(g, m, p, c, kmap);
        ok := SharePages(p, c, sz, g);
      } else {
        SetupFailed(g, m, p, c);
      }
    }

    // ---- pagefault and user accesses ----

    method SetTask(id: nat, sz: nat, killed: bool)
      requires Tied() && id in tasks
      modifies this`tasks, this`m
      ensures Tied() && id in tasks && m == SetProc(old(m), id, sz, killed)
    {
      var t := tasks[id];
      var u := Task(t.pgdir, sz, killed);
      AbsAllUpdate(tasks, id, u);
      m := SetProc(m, id, sz, killed);
      tasks := tasks[id := u];
    }

    method Kill(id: nat)
      requires Valid() && id in tasks
      modifies this`tasks, this`m
      ensures Valid() && id in tasks && m == Doomed(old(m), id)
    {
      SetProcKeeps(m, id, m.spaces[id].sz, true);
      var sz := tasks[id].sz;
      SetTask(id, sz, true);
    }

    /** Point the entry at the new frame and move one count over to it. */
    method MoveEntry(id: nat, v: nat, e: Pte)
      requires Tied() && id in tasks && IsMapped(m, id, v) && e.frame < NFRAMES
      requires At(m, id, v).frame < NFRAMES && At(m, id, v).frame != e.frame && e.p
      requires 1 < m.count[At(m, id, v).frame] <= SCHAR_MAX && 0 <= m.count[e.frame] < SCHAR_MAX
      modifies this
      ensures Tied() && id in tasks && m == MapUser(UnmapUser(old(m), id, v), id, v, e)
    {
      FlatEntry(tasks, id, v);
      var pa := Entry(tasks[id].pgdir, v).frame;
      var f := e.frame;
      var less := count[pa] - 1;
      SetCount(pa, less);
      var more := count[f] + 1;
      SetCount(f, more);
      StorePte(id, v, e);
      ghost var role := m.role[f := User];
      SetRole(role);
      MoveEntryIs(old(m), m, id, v, e, pa, less, more);
    }

    /** Handle the fault that an access to page v has raised. A page with a
        single user becomes writable; a shared one is copied; an illegal access,
        or lack of memory for the copy, kills the process. */
    method PageFault(id: nat, v: nat) returns (out: Fault)
      requires Valid() && id in tasks && v < VPAGES
      requires !(Permits(tasks[id], v) && Entry(tasks[id].pgdir, v).w)
      modifies this
      ensures Valid() && id in tasks
      ensures out.Illegal? <==> !Open(old(m), id, v)
      ensures out.Resolved? ==> Same(old(m), m) && IsMapped(m, id, v) && At(m, id, v).u && At(m, id, v).w
      ensures !out.Resolved? ==> m == Doomed(old(m), id)
      ensures out.OutOfMemory? <==> Open(old(m), id, v) && Shared(old(m), id, v) && old(m).free == []
      ensures out.Resolved? ==> |m.free| == |old(m).free| - if Shared(old(m), id, v) then 1 else 0
    {
      PermitsOpen(tasks, m, id, v);
      if !Permits(tasks[id], v) {
        Kill(id);
        return Illegal;
      }
      var f := Entry(tasks[id].pgdir, v).frame;
      SharedCount(m, id, v);
      if count[f] == 1 {
        OpenPage(id, v, f);
        return Resolved;
      }
      out := CopyPage(id, v, f);
    }

    /** Let the only user of a page write to it. */
    method OpenPage(id: nat, v: nat, f: nat)
      requires Valid() && id in tasks && IsMapped(m, id, v) && At(m, id, v).u && f == At(m, id, v).frame
      requires f < NFRAMES && m.count[f] == 1
      modifies this`tasks, this`m
      ensures Valid() && id in tasks && Same(old(m), m) && IsMapped(m, id, v) && At(m, id, v).u && At(m, id, v).w
      ensures m.free == old(m).free
    {
      EntryAt(tasks, m, id, v);
      var sole := Pte(true, true, true, false, f);
      SoleUser(m, id, v, sole);
      StorePte(id, v, sole);
    }

    method CopyPage(id: nat, v: nat, pa: nat) returns (out: Fault)
      requires Valid() && id in tasks && IsMapped(m, id, v) && At(m, id, v).u && pa == At(m, id, v).frame
      requires 1 < m.count[pa] <= SCHAR_MAX
      modifies this
      ensures Valid() && id in tasks && !out.Illegal?
      ensures out.Resolved? ==> Same(old(m), m) && IsMapped(m, id, v) && At(m, id, v).u && At(m, id, v).w
      ensures out.OutOfMemory? ==> m == Doomed(old(m), id)
      ensures out.OutOfMemory? <==> old(m).free == []
      ensures out.Resolved? ==> |m.free| == |old(m).free| - 1
    {
      var data := mem[pa];
      if free != [] {
        CopyPlan(m, id, v, pa, free[0], Pte(true, true, true, false, free[0]), data);
      }
      var f := Kalloc();
      if f == 0 {
        Kill(id);
        return OutOfMemory;
      }
      FillPage(f, data);
      MoveEntry(id, v, Pte(true, true, true, false, f));
      out := Resolved;
    }

    /** A user load from byte o of page v. The processor faults unless the page
        is present and open to user code. */
    method UserRead(id: nat, v: nat, o: nat) returns (out: Out)
      requires Valid() && id in tasks && v < VPAGES && o < PGSIZE
      modifies this
      ensures Valid() && id in tasks
      ensures Open(old(m), id, v) ==> m == old(m) && out == Value(Look(old(m), id, v).data[o])
      ensures !Open(old(m), id, v) ==> m == Doomed(old(m), id) && out == Killed
    {
      PermitsOpen(tasks, m, id, v);
      if Permits(tasks[id], v) {
        var f := Entry(tasks[id].pgdir, v).frame;
        out := Value(mem[f][o]);
      } else {
        var r := PageFault(id, v);
        out := Killed;
      }
    }

    /** A user store, retried after the fault has been resolved. */
    method UserWrite(id: nat, v: nat, o: nat, b: Byte) returns (out: Out)
      requires Valid() && id in tasks && v < VPAGES && o < PGSIZE
      modifies this
      ensures Valid() && id in tasks
      ensures !Open(old(m), id, v) <==> out == Killed
      ensures out == Done || out == NoMemory || out == Killed
      ensures if out == Done then Stored(old(m), m, id, v, o, b) else m == Doomed(old(m), id)
      ensures out == NoMemory <==> Open(old(m), id, v) && Shared(old(m), id, v) && old(m).free == []
    {
      PermitsOpen(tasks, m, id, v);
      var ready := Permits(tasks[id], v) && Entry(tasks[id].pgdir, v).w;
      if !ready {
        var r := PageFault(id, v);
        if r.Illegal? {
          return Killed;
        }
        if r.OutOfMemory? {
          return NoMemory;
        }
      }
      StoreByte(id, v, o, b, old(m));
      out := Done;
    }

    method StoreByte(id: nat, v: nat, o: nat, b: Byte, ghost g: M)
      requires Valid() && id in tasks && IsMapped(m, id, v) && At(m, id, v).w && At(m, id, v).u && o < PGSIZE
      requires Same(g, m)
      modifies this`mem, this`m
      ensures Valid() && id in tasks && Stored(g, m, id, v, o, b)
    {
      EntryAt(tasks, m, id, v);
      var f := Entry(tasks[id].pgdir, v).frame;
      var data: Page := mem[f][o := b];
      StoreKeeps(g, m, id, v, o, b, data);
      FillPage(f, data);
    }

    // ---- inituvm and clearpteu ----

    /** The first process's page. The source checks neither allocation. */
    method InitUvm(id: nat, init: seq<Byte>)
      requires Valid() && id in tasks && !IsMapped(m, id, 0) && |init| < PGSIZE && |free| >= 2
      modifies this
      ensures Valid() && id in tasks && SameBut(old(m), m, id, 0) && OthersKept(old(m), m, id)
      ensures Look(m, id, 0) == Seen(Padded(init), true)
    {
      ReserveKeeps(m, ZeroPage());
      var f := Kalloc();
      FillPage(f, ZeroPage());
      ghost var a := m;
      var ok := Walk(id, 0);
      var e := Pte(true, true, true, false, f);
      ghost var n := m;
      InitPlan(old(m), a, n, MapUser(n, id, 0, e), id, e, f, Padded(init));
      MapUserPage(id, 0, e);
      FillPage(f, Padded(init));
    }

    /** Close page v to user code. */
    method ClearPteU(id: nat, v: nat)
      requires Valid() && id in tasks && IsMapped(m, id, v)
      modifies this`tasks, this`m
      ensures Valid() && id in tasks && SameBut(old(m), m, id, v)
      ensures Look(m, id, v) == Seen(Look(old(m), id, v).data, false)
    {
      EntryAt(tasks, m, id, v);
      var e := Entry(tasks[id].pgdir, v);
      var closed := Pte(true, e.w, false, e.cow, e.frame);
      ClosePlan(m, id, v, closed);
      StorePte(id, v, closed);
    }
  }
}
