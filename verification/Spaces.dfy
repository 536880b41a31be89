/** How the kernel's routines act on whole address spaces: the relations between
    states that their contracts speak of, and the link from two-level page
    tables to flat ones. */
module Spaces {
  import opened Paging
  import opened Frames

  datatype Task = Task(pgdir: PgDir, sz: nat, killed: bool)

  /** pg_refcount is an array of char. */
  const SCHAR_MAX: int := 127

  ghost function TableFrames(pd: PgDir): map<nat, nat> {
    map d | d in pd.pde :: pd.pde[d].frame
  }

  ghost function Abs(t: Task): Space {
    Space(t.pgdir.frame, TableFrames(t.pgdir), Flat(t.pgdir), t.sz, t.killed)
  }

  ghost function AbsAll(tasks: map<nat, Task>): (r: map<nat, Space>)
    ensures r.Keys == tasks.Keys && forall id :: id in tasks ==> r[id] == Abs(tasks[id])
  {
    map id | id in tasks :: Abs(tasks[id])
  }

  lemma AbsAllUpdate(tasks: map<nat, Task>, id: nat, t: Task)
    ensures AbsAll(tasks[id := t]) == AbsAll(tasks)[id := Abs(t)]
  {
  }

  lemma AbsAllDrop(tasks: map<nat, Task>, id: nat)
    ensures AbsAll(tasks - {id}) == AbsAll(tasks) - {id}
  {
  }

  /** The kernel's own data and the flat state agree. */
  ghost predicate Agree(free: seq<nat>, count: seq<int>, mem: seq<Page>, tasks: map<nat, Task>, m: M) {
    && free == m.free && count == m.count && mem == m.mem
    && m.spaces == AbsAll(tasks)
    && |m.count| == |m.mem| == |m.role| == NFRAMES
  }

  /** The kernel owns the same frames for itself in both states. */
  ghost predicate KernelKept(m: M, n: M) {
    && |m.role| == |n.role|
    && forall f :: 0 <= f < |m.role| ==> (n.role[f] == Kernel <==> m.role[f] == Kernel)
  }

  /** Every space but id is untouched. */
  ghost predicate OthersKept(m: M, n: M, id: nat) {
    n.spaces - {id} == m.spaces - {id}
  }

  /** Nothing changes but space id: no other space, none of the pages other
      processes see, none of the kernel's own frames. */
  ghost predicate Rest(m: M, n: M, id: nat) {
    && OthersKept(m, n, id)
    && KernelKept(m, n)
    && forall k, x :: k != id ==> Look(n, k, x) == Look(m, k, x)
  }

  lemma RestTrans(a: M, b: M, c: M, id: nat)
    requires Rest(a, b, id) && Rest(b, c, id)
    ensures Rest(a, c, id)
  {
  }

  /** As Rest, and no user entry, count or page changes at all: free frames
      become tables of space id, kernel entries are filled in. */
  ghost predicate Quiet(m: M, n: M, id: nat) {
    && AllEntries(m, n) && SameProcs(m, n)
    && n.mem == m.mem && n.count == m.count
    && KernelKept(m, n) && OthersKept(m, n, id)
    && id in m.spaces && id in n.spaces && n.spaces[id].dir == m.spaces[id].dir
    && (forall f :: 0 <= f < |m.role| && m.role[f] != Free ==> n.role[f] == m.role[f])
  }

  lemma QuietRefl(m: M, id: nat)
    requires id in m.spaces
    ensures Quiet(m, m, id)
  {
  }

  lemma QuietTrans(a: M, b: M, c: M, id: nat)
    requires Quiet(a, b, id) && Quiet(b, c, id)
    ensures Quiet(a, c, id)
  {
  }

  lemma QuietRest(m: M, n: M, id: nat)
    requires Quiet(m, n, id)
    ensures Rest(m, n, id) && Same(m, n)
  {
    LooksSame(m, n);
  }

  lemma AttachQuiet(m: M, id: nat, d: nat)
    requires Inv(m) && id in m.spaces && d < NPDENTRIES && d !in m.spaces[id].tables && m.free != []
    ensures Inv(Attach(Pop(m), id, d, m.free[0]))
    ensures Quiet(m, Attach(Pop(m), id, d, m.free[0]), id)
  {
    PopKeeps(m);
    AttachKeeps(Pop(m), id, d, m.free[0]);
    PopAttachQuiet(m, id, d);
  }

  lemma PopAttachQuiet(m: M, id: nat, d: nat)
    requires Sizes(m) && id in m.spaces && m.free != [] && m.free[0] < NFRAMES && m.role[m.free[0]] == Free
    ensures Quiet(m, Attach(Pop(m), id, d, m.free[0]), id)
  {
    AttachEntries(Pop(m), id, d, m.free[0]);
  }

  lemma KernelEntryQuiet(m: M, id: nat, v: nat, e: Pte)
    requires Inv(m) && id in m.spaces && UPAGES <= v
    ensures Inv(KernelEntry(m, id, v, e)) && Quiet(m, KernelEntry(m, id, v, e), id)
  {
    KernelEntryKeeps(m, id, v, e);
    SetPteEntries(m, KernelEntry(m, id, v, e), id, v, e);
  }

  /** n is m with kernel pages v, v+1, .. of space id mapped to f, f+1, .. */
  ghost predicate KernelMapped(m: M, n: M, id: nat, v: nat, pages: nat, f: nat, w: bool) {
    && Quiet(m, n, id)
    && (forall x: nat :: x in n.spaces[id].flat <==> x in m.spaces[id].flat || v <= x < v + pages)
    && (forall x: nat :: x in n.spaces[id].flat ==>
          n.spaces[id].flat[x] ==
          if v <= x < v + pages then Pte(true, w, false, false, f + x - v) else m.spaces[id].flat[x])
  }

  lemma KernelMappedNone(m: M, id: nat, v: nat, f: nat, w: bool)
    requires id in m.spaces
    ensures KernelMapped(m, m, id, v, 0, f, w)
  {
  }

  lemma KernelMappedStep(m: M, n: M, r: M, id: nat, v: nat, i: nat, f: nat, w: bool, x: nat, e: Pte)
    requires KernelMapped(m, n, id, v, i, f, w) && Quiet(n, r, id)
    requires x == v + i && e == Pte(true, w, false, false, f + i)
    requires r.spaces[id].flat == n.spaces[id].flat[x := e]
    ensures KernelMapped(m, r, id, v, i + 1, f, w)
  {
    QuietTrans(m, n, r, id);
  }

  // ---- Unmapping a range ----

  ghost function Cut(flat: map<nat, Pte>, lo: nat, hi: nat): map<nat, Pte> {
    map v | v in flat && !(lo <= v < hi) :: flat[v]
  }

  /** Space id has lost the user pages from lo up to hi and nothing else. */
  ghost predicate Gone(m: M, n: M, id: nat, lo: nat, hi: nat) {
    && Rest(m, n, id)
    && id in m.spaces && id in n.spaces
    && n.spaces[id] == (var s := m.spaces[id]; Space(s.dir, s.tables, Cut(s.flat, lo, hi), s.sz, s.killed))
    && forall x: nat :: !(lo <= x < hi) ==> Look(n, id, x) == Look(m, id, x)
  }

  lemma GoneNone(m: M, id: nat, lo: nat)
    requires id in m.spaces
    ensures Gone(m, m, id, lo, lo)
  {
    assert Cut(m.spaces[id].flat, lo, lo) == m.spaces[id].flat;
  }

  /** Pages without an entry are gone already. */
  lemma GoneSkip(m: M, n: M, id: nat, lo: nat, x: nat, y: nat)
    requires Gone(m, n, id, lo, x) && lo <= x <= y
    requires forall v: nat :: x <= v < y ==> v !in n.spaces[id].flat
    ensures Gone(m, n, id, lo, y)
  {
    var f := m.spaces[id].flat;
    assert forall v: nat :: x <= v < y && v in f ==> v in Cut(f, lo, x);
    assert Cut(f, lo, y) == Cut(f, lo, x);
  }

  /** Removing the next page: its entry, its count, and its frame if that was
      the last mapping. */
  function Removed(m: M, id: nat, v: nat): M
    requires |m.count| == |m.mem| == |m.role| == NFRAMES && IsMapped(m, id, v) && At(m, id, v).frame < NFRAMES
  {
    var n := UnmapUser(m, id, v);
    if m.count[At(m, id, v).frame] == 1 then Push(n, At(m, id, v).frame) else n
  }

  /** UnmapUser, field by field. */
  lemma UnmapUserIs(m: M, n: M, id: nat, v: nat, f: nat, c: int)
    requires |m.count| == |m.mem| == |m.role| == NFRAMES && IsMapped(m, id, v)
    requires f == At(m, id, v).frame && f < NFRAMES && c == m.count[f] - 1
    requires n.free == m.free && n.count == m.count[f := c] && n.mem == m.mem
    requires n.spaces == SetPte(m.spaces, id, v, NoPte)
    requires n.role == if c == 0 then m.role[f := Kernel] else m.role
    ensures n == UnmapUser(m, id, v)
  {
  }

  lemma RemovedKeeps(m: M, id: nat, v: nat)
    requires Inv(m) && IsMapped(m, id, v)
    ensures 0 < At(m, id, v).frame < NFRAMES && m.count[At(m, id, v).frame] >= 1
    ensures Inv(Removed(m, id, v))
    ensures m.count[At(m, id, v).frame] == 1 ==> UnmapUser(m, id, v).role[At(m, id, v).frame] == Kernel
  {
    UnmapUserCounts(m, id, v);
    UnmapUserKeeps(m, id, v);
    if m.count[At(m, id, v).frame] == 1 {
      PushKeeps(UnmapUser(m, id, v), At(m, id, v).frame);
    }
  }

  lemma RemovedShows(m: M, id: nat, v: nat)
    requires Inv(m) && IsMapped(m, id, v)
    ensures SameBut(m, Removed(m, id, v), id, v) && Look(Removed(m, id, v), id, v) == Absent
    ensures KernelKept(m, Removed(m, id, v))
  {
    UnmapUserCounts(m, id, v);
    UnmapUserKeeps(m, id, v);
    UnmapUserShows(m, id, v);
    if m.count[At(m, id, v).frame] == 1 {
      PushKeeps(UnmapUser(m, id, v), At(m, id, v).frame);
    }
  }

  lemma CutNext(flat: map<nat, Pte>, lo: nat, v: nat)
    requires lo <= v
    ensures Cut(flat, lo, v + 1) == Cut(flat, lo, v) - {v}
  {
  }

  lemma GoneStep(m: M, n: M, id: nat, lo: nat, v: nat)
    requires Gone(m, n, id, lo, v) && lo <= v && Inv(n) && IsMapped(n, id, v)
    ensures Gone(m, Removed(n, id, v), id, lo, v + 1)
  {
    var r := Removed(n, id, v);
    RemovedShows(n, id, v);
    CutNext(m.spaces[id].flat, lo, v);
    assert r.spaces - {id} == n.spaces - {id};
    GoneLooks(m, n, r, id, lo, v);
  }

  lemma GoneLooks(m: M, n: M, r: M, id: nat, lo: nat, v: nat)
    requires Gone(m, n, id, lo, v) && SameBut(n, r, id, v) && lo <= v
    ensures forall k, x :: k != id ==> Look(r, k, x) == Look(m, k, x)
    ensures forall x: nat :: !(lo <= x < v + 1) ==> Look(r, id, x) == Look(m, id, x)
  {
  }

  lemma AbsSetEntry(t: Task, v: nat, e: Pte)
    requires HasTable(t.pgdir, v) && v < VPAGES
    ensures var s := Abs(t);
            Abs(Task(SetEntry(t.pgdir, v, e), t.sz, t.killed)) ==
            Space(s.dir, s.tables, if e.p then s.flat[v := e] else s.flat - {v}, s.sz, s.killed)
  {
    SetEntryFlat(t.pgdir, v, e);
    assert TableFrames(SetEntry(t.pgdir, v, e)) == TableFrames(t.pgdir);
  }

  /** Storing a page-table entry is storing it in the flat map. */
  lemma AbsSetPte(tasks: map<nat, Task>, id: nat, v: nat, e: Pte)
    requires id in tasks && HasTable(tasks[id].pgdir, v) && v < VPAGES
    ensures var t := tasks[id];
            SetPte(AbsAll(tasks), id, v, e) ==
            AbsAll(tasks)[id := Abs(Task(SetEntry(t.pgdir, v, e), t.sz, t.killed))]
  {
    AbsSetEntry(tasks[id], v, e);
  }

  /** A page in the flat map has a table, which holds its entry. */
  lemma FlatEntry(tasks: map<nat, Task>, id: nat, v: nat)
    requires id in tasks && v in AbsAll(tasks)[id].flat
    ensures v < VPAGES && HasTable(tasks[id].pgdir, v)
    ensures Entry(tasks[id].pgdir, v) == AbsAll(tasks)[id].flat[v] && Entry(tasks[id].pgdir, v).p
  {
  }

  lemma AbsAddTable(t: Task, d: nat, f: nat)
    requires d !in t.pgdir.pde
    ensures var s := Abs(t);
            Abs(Task(AddTable(t.pgdir, d, f), t.sz, t.killed)) ==
            Space(s.dir, s.tables[d := f], s.flat, s.sz, s.killed)
  {
    AddTableFlat(t.pgdir, d, f);
    assert TableFrames(AddTable(t.pgdir, d, f)) == TableFrames(t.pgdir)[d := f];
  }

  /** The next directory entry after address a, as deallocuvm computes it. */
  lemma NextDir(a: nat)
    requires a % PGSIZE == 0 && a < KERNBASE
    ensures var n := PgAddr(PDX(a) + 1, 0, 0);
            && n % PGSIZE == 0 && a < n <= KERNBASE && a / PGSIZE < n / PGSIZE
            && forall v: nat :: a / PGSIZE <= v < n / PGSIZE ==> v / NPTENTRIES == (a / PGSIZE) / NPTENTRIES
  {
    var p := a / PGSIZE;
    var d := a / DIRSPAN;
    assert PDX(a) == d && d < 512;
    var n := (d + 1) * DIRSPAN;
    assert PgAddr(PDX(a) + 1, 0, 0) == n;
    assert n / PGSIZE == (d + 1) * NPTENTRIES && n % PGSIZE == 0;
    assert p / NPTENTRIES == d;
  }

  lemma RoundUpIsPages(sz: nat)
    requires sz < KERNBASE
    ensures PgRoundUp(sz) == Pages(sz) * PGSIZE && Pages(sz) <= UPAGES
  {
  }

  /** deallocuvm has come to page-aligned address a, from page lo on its way to
      the last page below oldsz. */
  ghost predicate Cleared(g: M, m: M, id: nat, lo: nat, a: nat, oldsz: nat) {
    && a % PGSIZE == 0 && lo <= a / PGSIZE
    && Gone(g, m, id, lo, if a < oldsz then a / PGSIZE else Pages(oldsz))
  }

  lemma ClearedStart(g: M, id: nat, newsz: nat, oldsz: nat)
    requires id in g.spaces && newsz < oldsz <= KERNBASE
    ensures Cleared(g, g, id, Pages(newsz), PgRoundUp(newsz), oldsz)
  {
    RoundUpIsPages(newsz);
    GoneNone(g, id, Pages(newsz));
  }

  /** One page further. */
  lemma ClearedNext(g: M, m: M, id: nat, lo: nat, a: nat, oldsz: nat, v: nat)
    requires Gone(g, m, id, lo, v + 1) && a == (v + 1) * PGSIZE && lo <= v && v * PGSIZE < oldsz
    ensures Cleared(g, m, id, lo, a, oldsz)
  {
  }

  /** No page that shares v's missing table has an entry, so the walk may go on
      with the next directory entry. */
  lemma ClearedTable(g: M, m: M, id: nat, lo: nat, a: nat, oldsz: nat, v: nat, b: nat)
    requires Gone(g, m, id, lo, v) && lo <= v && b % PGSIZE == 0 && v == b / PGSIZE && b < oldsz <= KERNBASE
    requires forall x: nat :: x / NPTENTRIES == v / NPTENTRIES ==> x !in m.spaces[id].flat
    requires a == PgAddr(PDX(b) + 1, 0, 0)
    ensures b + PGSIZE <= a && Cleared(g, m, id, lo, a, oldsz)
  {
    NextDir(b);
    GoneSkip(g, m, id, lo, v, if a < oldsz then a / PGSIZE else Pages(oldsz));
  }

  // ---- Destroying a space ----

  /** Space id is no more; its directory and tables are the kernel's to free. */
  function DropSpace(m: M, id: nat): (n: M)
    requires |m.role| == NFRAMES
    ensures |n.role| == NFRAMES
    ensures forall f :: 0 <= f < NFRAMES ==>
              n.role[f] == if m.role[f] == Dir(id) || (m.role[f].TableOf? && m.role[f].id == id) then Kernel else m.role[f]
    ensures n.spaces == m.spaces - {id} && n.free == m.free && n.count == m.count && n.mem == m.mem
  {
    M(m.free, m.count, m.mem, m.spaces - {id},
      seq(NFRAMES, f requires 0 <= f < NFRAMES =>
        if m.role[f] == Dir(id) || (m.role[f].TableOf? && m.role[f].id == id) then Kernel else m.role[f]))
  }

  ghost predicate NoUserPages(m: M, id: nat) {
    forall v :: !IsMapped(m, id, v)
  }

  lemma GoneAll(m: M, n: M, id: nat)
    requires Gone(m, n, id, Pages(0), Pages(KERNBASE))
    ensures NoUserPages(n, id) && n.spaces - {id} == m.spaces - {id}
  {
    assert Pages(KERNBASE) == UPAGES;
  }

  lemma DropSpaceKeeps(m: M, id: nat)
    requires Inv(m) && id in m.spaces && NoUserPages(m, id)
    ensures Inv(DropSpace(m, id))
  {
    var n := DropSpace(m, id);
    assert AllEntries(m, n);
    SameEntriesKeep(m, n);
    DropSpaceFrames(m, id);
  }

  lemma DropSpaceFrames(m: M, id: nat)
    requires Sizes(m) && FreeList(m) && Tables(m) && id in m.spaces
    ensures Sizes(DropSpace(m, id)) && FreeList(DropSpace(m, id)) && Tables(DropSpace(m, id))
  {
  }

  /** freevm has removed space id of m and freed its first i tables. */
  ghost predicate Freeing(m: M, n: M, id: nat, i: nat) {
    && |m.role| == |n.role| == NFRAMES
    && n.spaces == m.spaces - {id}
    && (forall k, x :: k != id ==> Look(n, k, x) == Look(m, k, x))
    && forall f :: 0 <= f < NFRAMES ==>
         (n.role[f] == Kernel <==>
            m.role[f] == Kernel || m.role[f] == Dir(id) || (m.role[f].TableOf? && m.role[f].id == id && m.role[f].d >= i))
  }

  lemma FreeingStart(m: M, id: nat)
    requires |m.role| == NFRAMES
    ensures Freeing(m, DropSpace(m, id), id, 0)
  {
  }

  /** Slot i has no table. */
  lemma FreeingSkip(m: M, n: M, id: nat, i: nat)
    requires Sizes(m) && Tables(m) && id in m.spaces && i !in m.spaces[id].tables && Freeing(m, n, id, i)
    ensures Freeing(m, n, id, i + 1)
  {
  }

  lemma FreeingStep(m: M, n: M, id: nat, i: nat, f: nat)
    requires Sizes(m) && Tables(m) && Inv(n) && id in m.spaces && i in m.spaces[id].tables
    requires f == m.spaces[id].tables[i] && Freeing(m, n, id, i)
    ensures 0 < f < NFRAMES && n.role[f] == Kernel
    ensures Inv(Push(n, f)) && Freeing(m, Push(n, f), id, i + 1)
  {
    assert m.role[f] == TableOf(id, i);
    PushKeeps(n, f);
  }

  lemma FreeingEnd(m: M, n: M, id: nat, f: nat)
    requires Sizes(m) && Tables(m) && Inv(n) && id in m.spaces
    requires f == m.spaces[id].dir && Freeing(m, n, id, NPDENTRIES)
    ensures 0 < f < NFRAMES && n.role[f] == Kernel
    ensures Inv(Push(n, f)) && Rest(m, Push(n, f), id) && Push(n, f).spaces == m.spaces - {id}
  {
    assert m.role[f] == Dir(id);
    PushKeeps(n, f);
    var r := Push(n, f);
    assert r.spaces - {id} == m.spaces - {id};
    forall g | 0 <= g < NFRAMES
      ensures r.role[g] == Kernel <==> m.role[g] == Kernel
    {
    }
  }

  // ---- Kernel mappings ----

  datatype Range = Range(v: nat, pages: nat, frame: nat, w: bool)

  ghost predicate InRange(r: Range, x: nat) {
    r.v <= x < r.v + r.pages
  }

  /** The kernel's mappings, all above KERNBASE and none overlapping. */
  ghost predicate KmapOk(kmap: seq<Range>) {
    && (forall j :: 0 <= j < |kmap| ==> UPAGES <= kmap[j].v && kmap[j].v + kmap[j].pages <= VPAGES)
    && (forall i, j, x: nat :: 0 <= i < j < |kmap| ==> !(InRange(kmap[i], x) && InRange(kmap[j], x)))
  }

  /** kmap of vm.c, for a kernel whose data starts at physical page `data`. */
  function Kmap(data: nat): seq<Range>
    requires 0x100 <= data <= NFRAMES
  {
    [ Range(0x8_0000, 0x100, 0, true),                             // I/O space
      Range(0x8_0100, data - 0x100, 0x100, false),                 // text and read-only data
      Range(0x8_0000 + data, NFRAMES - data, data, true),          // data and free memory
      Range(0xF_E000, 0x2000, 0xF_E000, true) ]                    // devices
  }

  lemma KmapIsOk(data: nat)
    requires 0x100 <= data <= NFRAMES
    ensures KmapOk(Kmap(data))
  {
  }

  /** Space id is new since m: it has no user pages yet, and of the kernel
      ranges only those before j. */
  ghost predicate Starting(m: M, n: M, id: nat, kmap: seq<Range>, j: nat) {
    && Rest(m, n, id)
    && id in n.spaces && NoUserPages(n, id) && n.spaces[id].sz == 0 && !n.spaces[id].killed
    && n.count == m.count
    && forall i, x: nat :: j <= i < |kmap| && InRange(kmap[i], x) ==> x !in n.spaces[id].flat
  }

  lemma NewSpaceStarts(m: M, id: nat, kmap: seq<Range>)
    requires Inv(m) && m.free != [] && id !in m.spaces && id < NPROC
    ensures var f := m.free[0];
            && 0 < f < NFRAMES && Inv(NewSpace(Fill(Pop(m), f, ZeroPage()), id, f))
            && Starting(m, NewSpace(Fill(Pop(m), f, ZeroPage()), id, f), id, kmap, 0)
  {
    var f := m.free[0];
    PopKeeps(m);
    FillKernelKeeps(Pop(m), f, ZeroPage());
    var n := Fill(Pop(m), f, ZeroPage());
    NewSpaceKeeps(n, id, f);
    NewSpaceRest(m, n, NewSpace(n, id, f), id, f, kmap);
  }

  lemma NewSpaceRest(m: M, n: M, r: M, id: nat, f: nat, kmap: seq<Range>)
    requires |m.role| == NFRAMES && f < NFRAMES && m.role[f] == Free && id !in m.spaces
    requires n.role == m.role[f := Kernel] && n.spaces == m.spaces && n.count == m.count
    requires r == NewSpace(n, id, f) && forall k, x :: Look(n, k, x) == Look(m, k, x)
    requires forall k, x :: Look(r, k, x) == Look(n, k, x)
    ensures Starting(m, r, id, kmap, 0)
  {
    assert r.spaces - {id} == m.spaces - {id};
  }

  lemma StartingRange(m: M, n: M, id: nat, kmap: seq<Range>, j: nat)
    requires KmapOk(kmap) && j < |kmap| && Starting(m, n, id, kmap, j)
    ensures UPAGES <= kmap[j].v && kmap[j].v + kmap[j].pages <= VPAGES
    ensures forall x: nat :: kmap[j].v <= x < kmap[j].v + kmap[j].pages ==> x !in n.spaces[id].flat
  {
    forall x: nat | kmap[j].v <= x < kmap[j].v + kmap[j].pages
      ensures x !in n.spaces[id].flat
    {
      assert InRange(kmap[j], x);
    }
  }

  /** A space that was not there before and is not there now. */
  lemma RestGone(m: M, n: M, id: nat)
    requires OthersKept(m, n, id) && id !in m.spaces && id !in n.spaces
    ensures n.spaces == m.spaces
  {
    assert n.spaces == n.spaces - {id};
    assert m.spaces == m.spaces - {id};
  }

  lemma StartingStep(m: M, n: M, r: M, id: nat, kmap: seq<Range>, j: nat)
    requires KmapOk(kmap) && j < |kmap| && Starting(m, n, id, kmap, j)
    requires KernelMapped(n, r, id, kmap[j].v, kmap[j].pages, kmap[j].frame, kmap[j].w)
    ensures Starting(m, r, id, kmap, j + 1)
  {
    QuietRest(n, r, id);
    RestTrans(m, n, r, id);
    forall i, x: nat | j + 1 <= i < |kmap| && InRange(kmap[i], x)
      ensures x !in r.spaces[id].flat
    {
      assert !InRange(kmap[j], x);
    }
  }
}
