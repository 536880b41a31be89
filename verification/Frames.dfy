/** Physical frames: who owns each one, how often each user frame is mapped,
    and the elementary changes the kernel makes to that. */
module Frames {
  import opened Paging

  const NFRAMES: nat := 0xE000   // PHYSTOP >> PGSHIFT
  const NPROC: nat := 64

  type Byte = x: int | 0 <= x < 256
  type Page = s: seq<Byte> | |s| == PGSIZE witness seq(PGSIZE, _ => 0)

  function ZeroPage(): Page {
    seq(PGSIZE, _ => 0)
  }

  /** What kfree fills a page with. */
  function JunkPage(): Page {
    seq(PGSIZE, _ => 1)
  }

  /** The one use a frame is put to. Kernel: the kernel image, kernel stacks,
      pipes and frames a routine has allocated and not yet placed. */
  datatype Role = Free | Kernel | Dir(id: nat) | TableOf(id: nat, d: nat) | User

  /** An address space, as the flat map its page tables stand for, with the
      frames of its directory and of its tables, and its process state. */
  datatype Space = Space(dir: nat, tables: map<nat, nat>, flat: map<nat, Pte>, sz: nat, killed: bool)

  datatype M = M(
    free: seq<nat>,            // kmem.freelist, first to be allocated first
    count: seq<int>,           // pg_refcount
    mem: seq<Page>,            // what each frame holds
    spaces: map<nat, Space>,   // by process-table slot
    role: seq<Role>
  )

  predicate Maps(spaces: map<nat, Space>, id: nat, v: nat, f: nat) {
    id in spaces && v in spaces[id].flat && spaces[id].flat[v].frame == f
  }

  /** The present user entries that map frame f. */
  ghost function Users(spaces: map<nat, Space>, f: nat): set<(nat, nat)> {
    set id, v | id in spaces && 0 <= v < UPAGES && Maps(spaces, id, v, f) :: (id, v)
  }

  predicate IsMapped(m: M, id: nat, v: nat) {
    id in m.spaces && v < UPAGES && v in m.spaces[id].flat
  }

  function At(m: M, id: nat, v: nat): Pte
    requires IsMapped(m, id, v)
  {
    m.spaces[id].flat[v]
  }

  // ---- The invariant ----

  ghost predicate Sizes(m: M) {
    && |m.count| == |m.mem| == |m.role| == NFRAMES
    && m.role[0] == Kernel
    && forall id :: id in m.spaces ==> id < NPROC
  }

  ghost predicate FreeList(m: M)
    requires Sizes(m)
  {
    && (forall i :: 0 <= i < |m.free| ==> m.free[i] < NFRAMES && m.role[m.free[i]] == Free)
    && (forall i, j :: 0 <= i < j < |m.free| ==> m.free[i] != m.free[j])
    && (forall f :: 0 <= f < NFRAMES && m.role[f] == Free ==> f in m.free)
  }

  /** Directories and tables sit in frames that serve nothing else. */
  ghost predicate Tables(m: M)
    requires Sizes(m)
  {
    && (forall id :: id in m.spaces ==> m.spaces[id].dir < NFRAMES && m.role[m.spaces[id].dir] == Dir(id))
    && (forall id, d :: id in m.spaces && d in m.spaces[id].tables ==>
          && d < NPDENTRIES
          && m.spaces[id].tables[d] < NFRAMES
          && m.role[m.spaces[id].tables[d]] == TableOf(id, d))
    && (forall f :: 0 <= f < NFRAMES && m.role[f].Dir? ==>
          m.role[f].id in m.spaces && m.spaces[m.role[f].id].dir == f)
    && (forall f :: 0 <= f < NFRAMES && m.role[f].TableOf? ==>
          && m.role[f].id in m.spaces
          && m.role[f].d in m.spaces[m.role[f].id].tables
          && m.spaces[m.role[f].id].tables[m.role[f].d] == f)
  }

  /** Only user frames are mapped, and writable only when mapped once. */
  ghost predicate Mappings(m: M)
    requires Sizes(m)
  {
    forall id, v :: IsMapped(m, id, v) ==>
      && At(m, id, v).frame < NFRAMES
      && m.role[At(m, id, v).frame] == User
      && (At(m, id, v).w ==> m.count[At(m, id, v).frame] == 1)
  }

  /** No address space maps a frame twice. */
  ghost predicate Once(m: M) {
    forall id, v, x :: IsMapped(m, id, v) && IsMapped(m, id, x) && v != x ==> At(m, id, v).frame != At(m, id, x).frame
  }

  /** pg_refcount is the number of present user entries for each frame. */
  ghost predicate Counts(m: M)
    requires Sizes(m)
  {
    forall f :: 0 <= f < NFRAMES ==>
      m.count[f] == |Users(m.spaces, f)| && (m.role[f] == User <==> m.count[f] > 0)
  }

  ghost predicate Inv(m: M) {
    Sizes(m) && FreeList(m) && Tables(m) && Mappings(m) && Once(m) && Counts(m)
  }

  // ---- What processes can see ----

  /** A page as its process sees it: its bytes and whether user code may touch it. */
  datatype Seen = Absent | Seen(data: Page, user: bool)

  function Look(m: M, id: nat, v: nat): Seen {
    if IsMapped(m, id, v) && At(m, id, v).frame < |m.mem| then Seen(m.mem[At(m, id, v).frame], At(m, id, v).u)
    else Absent
  }

  ghost predicate SameProcs(m: M, n: M) {
    && n.spaces.Keys == m.spaces.Keys
    && forall k :: k in m.spaces ==> n.spaces[k].sz == m.spaces[k].sz && n.spaces[k].killed == m.spaces[k].killed
  }

  /** m and n have the same processes and show the same pages, (id, v) apart. */
  ghost predicate SameBut(m: M, n: M, id: nat, v: nat) {
    SameProcs(m, n) && forall k, x :: k != id || x != v ==> Look(n, k, x) == Look(m, k, x)
  }

  ghost predicate Same(m: M, n: M) {
    SameProcs(m, n) && forall k, x :: Look(n, k, x) == Look(m, k, x)
  }

  // ---- Counting mappings ----

  /** m and n have the same page-table entries, page v of space id apart. */
  ghost predicate SameEntries(m: M, n: M, id: nat, v: nat) {
    forall k: nat, x: nat :: x < UPAGES && (k != id || x != v) ==>
      IsMapped(n, k, x) == IsMapped(m, k, x) && (IsMapped(m, k, x) ==> At(n, k, x) == At(m, k, x))
  }

  ghost predicate AllEntries(m: M, n: M) {
    forall k: nat, x: nat :: x < UPAGES ==>
      IsMapped(n, k, x) == IsMapped(m, k, x) && (IsMapped(m, k, x) ==> At(n, k, x) == At(m, k, x))
  }

  /** Rewriting the entry of page v in space id moves (id, v) in or out of the
      users of each frame and leaves the rest. */
  lemma UsersAfter(m: M, n: M, id: nat, v: nat, f: nat)
    requires SameEntries(m, n, id, v) && v < UPAGES
    ensures Users(n.spaces, f) ==
              Users(m.spaces, f) - {(id, v)} + (if Maps(n.spaces, id, v, f) then {(id, v)} else {})
  {
    forall k: nat, x: nat | x < UPAGES && (k, x) != (id, v)
      ensures Maps(n.spaces, k, x, f) == Maps(m.spaces, k, x, f)
    {
      assert IsMapped(n, k, x) == IsMapped(m, k, x);
    }
  }

  lemma UsersSame(m: M, n: M, f: nat)
    requires AllEntries(m, n)
    ensures Users(n.spaces, f) == Users(m.spaces, f)
  {
    forall k: nat, x: nat | x < UPAGES
      ensures Maps(n.spaces, k, x, f) == Maps(m.spaces, k, x, f)
    {
      assert IsMapped(n, k, x) == IsMapped(m, k, x);
    }
  }

  /** A frame mapped at most once per address space has at most one user for
      each process slot, so a signed char holds its count. */
  lemma CountBounded(m: M, f: nat)
    requires Inv(m) && f < NFRAMES
    ensures 0 <= m.count[f] <= |m.spaces| <= NPROC
  {
    var users := Users(m.spaces, f);
    forall p, q | p in users && q in users && p.0 == q.0
      ensures p == q
    {
      assert IsMapped(m, p.0, p.1) && IsMapped(m, q.0, q.1);
    }
    Project(users);
    var ids := set p | p in users :: p.0;
    assert ids <= m.spaces.Keys;
    Smaller(ids, m.spaces.Keys);
    Slots(m.spaces.Keys, NPROC);
  }

  lemma {:induction false} Project(s: set<(nat, nat)>)
    requires forall p, q :: p in s && q in s && p.0 == q.0 ==> p == q
    ensures |s| == |set p | p in s :: p.0|
    decreases |s|
  {
    if s != {} {
      var p :| p in s;
      var t := s - {p};
      Project(t);
      assert (set q | q in s :: q.0) == (set q | q in t :: q.0) + {p.0};
      assert p.0 !in set q | q in t :: q.0;
    }
  }

  lemma {:induction false} Smaller<T>(a: set<T>, b: set<T>)
    requires a <= b
    ensures |a| <= |b|
    decreases |a|
  {
    if a != {} {
      var x :| x in a;
      Smaller(a - {x}, b - {x});
    }
  }

  lemma {:induction false} Slots(s: set<nat>, n: nat)
    requires forall x :: x in s ==> x < n
    ensures |s| <= n
    decreases n
  {
    if n == 0 {
      assert s == {};
    } else {
      Slots(s - {n - 1}, n - 1);
    }
  }

  lemma Single<T>(s: set<T>, x: T)
    requires |s| == 1 && x in s
    ensures s == {x}
  {
    assert |s - {x}| == 0;
  }

  // ---- kalloc and kfree ----

  function Pop(m: M): M
    requires m.free != [] && m.free[0] < |m.role|
  {
    M(m.free[1..], m.count, m.mem, m.spaces, m.role[m.free[0] := Kernel])
  }

  lemma PopFree(m: M)
    requires Sizes(m) && FreeList(m) && m.free != []
    ensures Sizes(Pop(m)) && FreeList(Pop(m))
    ensures 0 < m.free[0] < NFRAMES && m.role[m.free[0]] == Free
  {
    assert m.free == [m.free[0]] + Pop(m).free;
  }

  lemma PopKeeps(m: M)
    requires Inv(m) && m.free != []
    ensures Inv(Pop(m)) && Same(m, Pop(m))
    ensures 0 < m.free[0] < NFRAMES && m.role[m.free[0]] == Free
  {
    var n := Pop(m);
    PopFree(m);
    TablesSame(m, n);
    assert AllEntries(m, n);
    SameEntriesKeep(m, n);
    LooksSame(m, n);
  }

  lemma UsersAllSame(m: M, n: M)
    requires AllEntries(m, n)
    ensures forall f :: Users(n.spaces, f) == Users(m.spaces, f)
  {
    forall f ensures Users(n.spaces, f) == Users(m.spaces, f) {
      UsersSame(m, n, f);
    }
  }

  function Push(m: M, f: nat): M
    requires f < |m.role| && f < |m.mem|
  {
    M([f] + m.free, m.count, m.mem[f := JunkPage()], m.spaces, m.role[f := Free])
  }

  lemma PushFree(m: M, f: nat)
    requires Sizes(m) && FreeList(m) && 0 < f < NFRAMES && m.role[f] == Kernel
    ensures Sizes(Push(m, f)) && FreeList(Push(m, f))
  {
    assert forall g :: g in m.free ==> g in Push(m, f).free;
  }

  lemma PushKeeps(m: M, f: nat)
    requires Inv(m) && 0 < f < NFRAMES && m.role[f] == Kernel
    ensures Inv(Push(m, f)) && Same(m, Push(m, f))
  {
    var n := Push(m, f);
    PushFree(m, f);
    TablesSame(m, n);
    assert AllEntries(m, n);
    SameEntriesKeep(m, n);
  }

  // ---- Page directories ----

  function NewSpace(m: M, id: nat, f: nat): M
    requires f < |m.role|
  {
    M(m.free, m.count, m.mem, m.spaces[id := Space(f, map[], map[], 0, false)], m.role[f := Dir(id)])
  }

  lemma NewSpaceKeeps(m: M, id: nat, f: nat)
    requires Inv(m) && id !in m.spaces && id < NPROC && 0 < f < NFRAMES && m.role[f] == Kernel
    ensures Inv(NewSpace(m, id, f))
    ensures forall k, x :: Look(NewSpace(m, id, f), k, x) == Look(m, k, x)
  {
    var n := NewSpace(m, id, f);
    NewSpaceTables(m, id, f);
    assert AllEntries(m, n);
    SameEntriesKeep(m, n);
    LooksSame(m, n);
  }

  lemma NewSpaceTables(m: M, id: nat, f: nat)
    requires Sizes(m) && Tables(m) && FreeList(m)
    requires id !in m.spaces && id < NPROC && 0 < f < NFRAMES && m.role[f] == Kernel
    ensures Sizes(NewSpace(m, id, f)) && Tables(NewSpace(m, id, f)) && FreeList(NewSpace(m, id, f))
  {
  }

  function Attach(m: M, id: nat, d: nat, f: nat): M
    requires id in m.spaces && f < |m.role|
  {
    var s := m.spaces[id];
    M(m.free, m.count, m.mem,
      m.spaces[id := Space(s.dir, s.tables[d := f], s.flat, s.sz, s.killed)],
      m.role[f := TableOf(id, d)])
  }

  lemma AttachTables(m: M, id: nat, d: nat, f: nat)
    requires Sizes(m) && Tables(m) && id in m.spaces && d < NPDENTRIES && d !in m.spaces[id].tables
    requires 0 < f < NFRAMES && m.role[f] == Kernel
    ensures Sizes(Attach(m, id, d, f)) && Tables(Attach(m, id, d, f))
  {
    var n := Attach(m, id, d, f);
    forall k, x | k in n.spaces && x in n.spaces[k].tables
      ensures x < NPDENTRIES && n.spaces[k].tables[x] < NFRAMES && n.role[n.spaces[k].tables[x]] == TableOf(k, x)
    {
      AttachEntry(m, n, id, d, f, k, x);
    }
    forall g | 0 <= g < NFRAMES && n.role[g].TableOf?
      ensures n.role[g].id in n.spaces && n.role[g].d in n.spaces[n.role[g].id].tables
              && n.spaces[n.role[g].id].tables[n.role[g].d] == g
    {
      AttachFrame(m, n, id, d, f, g);
    }
  }

  lemma AttachEntry(m: M, n: M, id: nat, d: nat, f: nat, k: nat, x: nat)
    requires Sizes(m) && Tables(m) && id in m.spaces && d < NPDENTRIES && f < NFRAMES && m.role[f] == Kernel
    requires n == Attach(m, id, d, f) && k in n.spaces && x in n.spaces[k].tables
    ensures x < NPDENTRIES && n.spaces[k].tables[x] < NFRAMES && n.role[n.spaces[k].tables[x]] == TableOf(k, x)
  {
  }

  lemma AttachFrame(m: M, n: M, id: nat, d: nat, f: nat, g: nat)
    requires Sizes(m) && Tables(m) && id in m.spaces && d !in m.spaces[id].tables && f < NFRAMES
    requires n == Attach(m, id, d, f) && g < NFRAMES && n.role[g].TableOf?
    ensures n.role[g].id in n.spaces && n.role[g].d in n.spaces[n.role[g].id].tables
    ensures n.spaces[n.role[g].id].tables[n.role[g].d] == g
  {
  }

  lemma AttachKeeps(m: M, id: nat, d: nat, f: nat)
    requires Inv(m) && id in m.spaces && d < NPDENTRIES && d !in m.spaces[id].tables
    requires 0 < f < NFRAMES && m.role[f] == Kernel
    ensures Inv(Attach(m, id, d, f)) && Same(m, Attach(m, id, d, f))
  {
    AttachTables(m, id, d, f);
    AttachEntries(m, id, d, f);
    SameEntriesKeep(m, Attach(m, id, d, f));
  }

  lemma AttachEntries(m: M, id: nat, d: nat, f: nat)
    requires id in m.spaces && f < |m.role|
    ensures AllEntries(m, Attach(m, id, d, f)) && Same(m, Attach(m, id, d, f))
  {
    EntriesSame(m, Attach(m, id, d, f));
    LooksSame(m, Attach(m, id, d, f));
  }

  /** With the same entries, frames may pass between free, kernel and table use. */
  lemma SameEntriesKeep(m: M, n: M)
    requires Sizes(m) && Sizes(n) && Mappings(m) && Once(m) && Counts(m)
    requires AllEntries(m, n)
    requires n.count == m.count
    requires forall f :: 0 <= f < NFRAMES ==> (n.role[f] == User <==> m.role[f] == User)
    ensures Mappings(n) && Once(n) && Counts(n)
  {
    UsersAllSame(m, n);
  }

  lemma LooksSame(m: M, n: M)
    requires AllEntries(m, n)
    requires n.mem == m.mem
    ensures forall k, x :: Look(n, k, x) == Look(m, k, x)
  {
  }

  lemma LooksSameBut(m: M, n: M, id: nat, v: nat)
    requires SameEntries(m, n, id, v) && n.mem == m.mem
    ensures forall k, x :: k != id || x != v ==> Look(n, k, x) == Look(m, k, x)
  {
  }

  /** Spaces with the same flat maps have the same entries. */
  lemma EntriesSame(m: M, n: M)
    requires n.spaces.Keys == m.spaces.Keys
    requires forall k :: k in m.spaces ==> n.spaces[k].flat == m.spaces[k].flat
    ensures AllEntries(m, n)
  {
  }

  // ---- Page-table entries ----

  function SetPte(spaces: map<nat, Space>, id: nat, v: nat, e: Pte): map<nat, Space>
    requires id in spaces
  {
    var s := spaces[id];
    spaces[id := Space(s.dir, s.tables, if e.p then s.flat[v := e] else s.flat - {v}, s.sz, s.killed)]
  }

  /** The entries above KERNBASE map kernel memory and are not counted. */
  function KernelEntry(m: M, id: nat, v: nat, e: Pte): M
    requires id in m.spaces
  {
    M(m.free, m.count, m.mem, SetPte(m.spaces, id, v, e), m.role)
  }

  /** One entry changes; the tables and everything else stay. */
  lemma SetPteEntries(m: M, n: M, id: nat, v: nat, e: Pte)
    requires id in m.spaces && n.spaces == SetPte(m.spaces, id, v, e)
    ensures SameEntries(m, n, id, v) && SameProcs(m, n)
    ensures IsMapped(n, id, v) == (v < UPAGES && e.p)
    ensures IsMapped(n, id, v) ==> At(n, id, v) == e
  {
  }

  lemma FreeSame(m: M, n: M)
    requires Sizes(m) && Sizes(n) && FreeList(m) && n.free == m.free
    requires forall f :: 0 <= f < NFRAMES ==> (n.role[f] == Free <==> m.role[f] == Free)
    ensures FreeList(n)
  {
  }

  /** Tables() depends on the spaces only through their table frames. */
  lemma TablesSame(m: M, n: M)
    requires Sizes(m) && Sizes(n) && Tables(m)
    requires n.spaces.Keys == m.spaces.Keys
    requires forall k :: k in m.spaces ==> n.spaces[k].dir == m.spaces[k].dir && n.spaces[k].tables == m.spaces[k].tables
    requires forall f :: 0 <= f < NFRAMES && n.role[f] != m.role[f] ==>
               !(m.role[f].Dir? || m.role[f].TableOf? || n.role[f].Dir? || n.role[f].TableOf?)
    ensures Tables(n)
  {
  }

  lemma KernelEntryKeeps(m: M, id: nat, v: nat, e: Pte)
    requires Inv(m) && id in m.spaces && UPAGES <= v
    ensures Inv(KernelEntry(m, id, v, e)) && Same(m, KernelEntry(m, id, v, e))
  {
    var n := KernelEntry(m, id, v, e);
    SetPteEntries(m, n, id, v, e);
    TablesSame(m, n);
    FreeSame(m, n);
    UsersAllSame(m, n);
  }

  /** Store entry e for page v and count the new mapping. */
  function MapUser(m: M, id: nat, v: nat, e: Pte): M
    requires id in m.spaces && e.frame < |m.count| && e.frame < |m.role|
  {
    M(m.free, m.count[e.frame := m.count[e.frame] + 1], m.mem,
      SetPte(m.spaces, id, v, e), m.role[e.frame := User])
  }

  /** The frame is new, or it is shared and nobody may write to it. */
  ghost predicate Mappable(m: M, id: nat, v: nat, e: Pte)
    requires Sizes(m)
  {
    && id in m.spaces && v < UPAGES && !IsMapped(m, id, v)
    && e.p && 0 < e.frame < NFRAMES
    && (m.role[e.frame] == Kernel
        || (m.role[e.frame] == User && !e.w
            && (forall k, x :: IsMapped(m, k, x) && At(m, k, x).frame == e.frame ==> !At(m, k, x).w && k != id)))
  }

  lemma MapUserCount(m: M, n: M, id: nat, v: nat, e: Pte, f: nat)
    requires SameEntries(m, n, id, v) && v < UPAGES && !IsMapped(m, id, v)
    requires IsMapped(n, id, v) && At(n, id, v) == e
    ensures |Users(n.spaces, f)| == |Users(m.spaces, f)| + if f == e.frame then 1 else 0
  {
    UsersAfter(m, n, id, v, f);
    assert (id, v) !in Users(m.spaces, f);
  }

  lemma MapUserCounts(m: M, n: M, id: nat, v: nat, e: Pte)
    requires Sizes(m) && Counts(m) && Mappable(m, id, v, e) && Sizes(n) && SameEntries(m, n, id, v)
    requires IsMapped(n, id, v) && At(n, id, v) == e
    requires n.count == m.count[e.frame := m.count[e.frame] + 1] && n.role == m.role[e.frame := User]
    ensures Counts(n)
  {
    forall f | 0 <= f < NFRAMES
      ensures n.count[f] == |Users(n.spaces, f)| && (n.role[f] == User <==> n.count[f] > 0)
    {
      MapUserCount(m, n, id, v, e, f);
    }
  }

  lemma MapUserMappings(m: M, n: M, id: nat, v: nat, e: Pte)
    requires Sizes(m) && Mappings(m) && Once(m) && Counts(m) && Mappable(m, id, v, e)
    requires Sizes(n) && SameEntries(m, n, id, v) && IsMapped(n, id, v) && At(n, id, v) == e
    requires n.count == m.count[e.frame := m.count[e.frame] + 1] && n.role == m.role[e.frame := User]
    ensures Mappings(n) && Once(n)
  {
  }

  lemma MapUserKeeps(m: M, id: nat, v: nat, e: Pte)
    requires Inv(m) && Mappable(m, id, v, e)
    ensures Inv(MapUser(m, id, v, e))
  {
    var n := MapUser(m, id, v, e);
    SetPteEntries(m, n, id, v, e);
    MapUserTables(m, n, id, v, e);
    MapUserCounts(m, n, id, v, e);
    MapUserMappings(m, n, id, v, e);
  }

  lemma MapUserTables(m: M, n: M, id: nat, v: nat, e: Pte)
    requires Sizes(m) && FreeList(m) && Tables(m) && Mappable(m, id, v, e) && n == MapUser(m, id, v, e)
    ensures Sizes(n) && FreeList(n) && Tables(n)
  {
    TablesSame(m, n);
    FreeSame(m, n);
  }

  lemma MapUserShows(m: M, id: nat, v: nat, e: Pte)
    requires Sizes(m) && id in m.spaces && v < UPAGES && e.p && e.frame < NFRAMES
    ensures SameBut(m, MapUser(m, id, v, e), id, v)
    ensures Look(MapUser(m, id, v, e), id, v) == Seen(m.mem[e.frame], e.u)
  {
    var n := MapUser(m, id, v, e);
    SetPteEntries(m, n, id, v, e);
    LooksSameBut(m, n, id, v);
  }

  /** Clear the entry and drop the mapping from the count; a frame that loses
      its last mapping is left to the kernel, which frees it. */
  function UnmapUser(m: M, id: nat, v: nat): M
    requires IsMapped(m, id, v) && At(m, id, v).frame < |m.count| && At(m, id, v).frame < |m.role|
  {
    var f := At(m, id, v).frame;
    M(m.free, m.count[f := m.count[f] - 1], m.mem,
      SetPte(m.spaces, id, v, NoPte),
      if m.count[f] == 1 then m.role[f := Kernel] else m.role)
  }

  lemma UnmapUserCount(m: M, n: M, id: nat, v: nat, f: nat)
    requires IsMapped(m, id, v) && SameEntries(m, n, id, v) && !IsMapped(n, id, v)
    ensures |Users(n.spaces, f)| == |Users(m.spaces, f)| - if f == At(m, id, v).frame then 1 else 0
    ensures f == At(m, id, v).frame ==> |Users(m.spaces, f)| >= 1
  {
    UsersAfter(m, n, id, v, f);
    assert Maps(m.spaces, id, v, f) == (f == At(m, id, v).frame);
    assert (id, v) in Users(m.spaces, f) <==> f == At(m, id, v).frame;
  }

  lemma UnmapUserCounts(m: M, id: nat, v: nat)
    requires Sizes(m) && Counts(m) && IsMapped(m, id, v)
    requires At(m, id, v).frame < NFRAMES && m.role[At(m, id, v).frame] == User
    ensures Sizes(UnmapUser(m, id, v)) && Counts(UnmapUser(m, id, v))
    ensures m.count[At(m, id, v).frame] >= 1
  {
    var n := UnmapUser(m, id, v);
    SetPteEntries(m, n, id, v, NoPte);
    forall f | 0 <= f < NFRAMES
      ensures n.count[f] == |Users(n.spaces, f)| && (n.role[f] == User <==> n.count[f] > 0)
    {
      UnmapUserCount(m, n, id, v, f);
    }
  }

  /** A frame with count one has no other user. */
  lemma OnlyUser(m: M, id: nat, v: nat, k: nat, x: nat)
    requires Inv(m) && IsMapped(m, id, v) && m.count[At(m, id, v).frame] == 1
    requires IsMapped(m, k, x) && At(m, k, x).frame == At(m, id, v).frame
    ensures k == id && x == v
  {
    var f := At(m, id, v).frame;
    assert (id, v) in Users(m.spaces, f) && (k, x) in Users(m.spaces, f);
    Single(Users(m.spaces, f), (id, v));
  }

  lemma WritableOnce(m: M, id: nat, v: nat, k: nat, x: nat)
    requires Inv(m) && IsMapped(m, id, v) && IsMapped(m, k, x) && At(m, k, x).w
    requires At(m, k, x).frame == At(m, id, v).frame
    ensures k == id && x == v
  {
    OnlyUser(m, k, x, id, v);
  }

  lemma UnmapUserMappings(m: M, n: M, id: nat, v: nat)
    requires Inv(m) && IsMapped(m, id, v) && Sizes(n) && SameEntries(m, n, id, v) && !IsMapped(n, id, v)
    requires var f := At(m, id, v).frame;
             && n.count == m.count[f := m.count[f] - 1]
             && n.role == if m.count[f] == 1 then m.role[f := Kernel] else m.role
    ensures Mappings(n) && Once(n)
  {
    forall k, x | IsMapped(n, k, x)
      ensures At(n, k, x).frame < NFRAMES && n.role[At(n, k, x).frame] == User
      ensures At(n, k, x).w ==> n.count[At(n, k, x).frame] == 1
    {
      assert IsMapped(m, k, x) && At(n, k, x) == At(m, k, x);
      if At(m, k, x).frame == At(m, id, v).frame {
        if m.count[At(m, id, v).frame] == 1 {
          OnlyUser(m, id, v, k, x);
        }
        if At(m, k, x).w {
          WritableOnce(m, id, v, k, x);
        }
      }
    }
  }

  lemma UnmapUserKeeps(m: M, id: nat, v: nat)
    requires Inv(m) && IsMapped(m, id, v)
    ensures Inv(UnmapUser(m, id, v))
  {
    var n := UnmapUser(m, id, v);
    SetPteEntries(m, n, id, v, NoPte);
    UnmapUserCounts(m, id, v);
    UnmapUserMappings(m, n, id, v);
    UnmapUserFrames(m, id, v);
  }

  lemma UnmapUserFrames(m: M, id: nat, v: nat)
    requires Sizes(m) && Tables(m) && FreeList(m) && IsMapped(m, id, v)
    requires At(m, id, v).frame < NFRAMES && m.role[At(m, id, v).frame] == User
    ensures Sizes(UnmapUser(m, id, v)) && Tables(UnmapUser(m, id, v)) && FreeList(UnmapUser(m, id, v))
  {
    TablesSame(m, UnmapUser(m, id, v));
    FreeSame(m, UnmapUser(m, id, v));
  }

  lemma UnmapUserShows(m: M, id: nat, v: nat)
    requires IsMapped(m, id, v) && At(m, id, v).frame < |m.count| && At(m, id, v).frame < |m.role|
    ensures SameBut(m, UnmapUser(m, id, v), id, v)
    ensures Look(UnmapUser(m, id, v), id, v) == Absent
  {
    var n := UnmapUser(m, id, v);
    SetPteEntries(m, n, id, v, NoPte);
    LooksSameBut(m, n, id, v);
  }

  /** Rewrite an entry's flags only. */
  function Reflag(m: M, id: nat, v: nat, e: Pte): M
    requires id in m.spaces
  {
    M(m.free, m.count, m.mem, SetPte(m.spaces, id, v, e), m.role)
  }

  lemma ReflagKeeps(m: M, id: nat, v: nat, e: Pte)
    requires Inv(m) && IsMapped(m, id, v)
    requires e.p && e.frame == At(m, id, v).frame && (e.w ==> m.count[e.frame] == 1)
    ensures Inv(Reflag(m, id, v, e)) && SameBut(m, Reflag(m, id, v, e), id, v)
    ensures Look(Reflag(m, id, v, e), id, v) == Seen(m.mem[e.frame], e.u)
  {
    var n := Reflag(m, id, v, e);
    SetPteEntries(m, n, id, v, e);
    TablesSame(m, n);
    FreeSame(m, n);
    ReflagCounts(m, n, id, v, e);
    ReflagMappings(m, n, id, v, e);
    LooksSameBut(m, n, id, v);
  }

  lemma ReflagMappings(m: M, n: M, id: nat, v: nat, e: Pte)
    requires Sizes(m) && Mappings(m) && Once(m) && Sizes(n) && SameEntries(m, n, id, v)
    requires IsMapped(m, id, v) && IsMapped(n, id, v) && At(n, id, v) == e
    requires e.frame == At(m, id, v).frame && (e.w ==> m.count[e.frame] == 1)
    requires n.count == m.count && n.role == m.role
    ensures Mappings(n) && Once(n)
  {
  }

  lemma ReflagCounts(m: M, n: M, id: nat, v: nat, e: Pte)
    requires Sizes(m) && Counts(m) && Sizes(n) && SameEntries(m, n, id, v)
    requires IsMapped(m, id, v) && IsMapped(n, id, v) && At(n, id, v) == e
    requires e.frame == At(m, id, v).frame
    requires n.count == m.count && n.role == m.role
    ensures Counts(n)
  {
    forall f ensures Users(n.spaces, f) == Users(m.spaces, f) {
      UsersAfter(m, n, id, v, f);
      assert Maps(m.spaces, id, v, f) == Maps(n.spaces, id, v, f);
    }
  }

  // ---- Memory ----

  function Fill(m: M, f: nat, data: Page): M
    requires f < |m.mem|
  {
    M(m.free, m.count, m.mem[f := data], m.spaces, m.role)
  }

  /** Store into a frame that only page v of space id maps. */
  lemma FillUserKeeps(m: M, id: nat, v: nat, data: Page)
    requires Inv(m) && IsMapped(m, id, v) && m.count[At(m, id, v).frame] == 1
    ensures Inv(Fill(m, At(m, id, v).frame, data)) && SameBut(m, Fill(m, At(m, id, v).frame, data), id, v)
    ensures Look(Fill(m, At(m, id, v).frame, data), id, v) == Seen(data, At(m, id, v).u)
  {
    var g := At(m, id, v).frame;
    var n := Fill(m, g, data);
    UsersAllSame(m, n);
    forall k, x | k != id || x != v
      ensures Look(n, k, x) == Look(m, k, x)
    {
      if IsMapped(m, k, x) && At(m, k, x).frame == g {
        OnlyUser(m, id, v, k, x);
      }
    }
  }

  /** Store into a frame that no process maps. */
  lemma FillKernelShows(m: M, n: M, f: nat, data: Page)
    requires Sizes(m) && Mappings(m) && f < NFRAMES && m.role[f] != User && n == Fill(m, f, data)
    ensures Same(m, n)
  {
    forall k, x
      ensures Look(n, k, x) == Look(m, k, x)
    {
      assert IsMapped(m, k, x) ==> At(m, k, x).frame != f;
    }
  }

  lemma FillKernelKeeps(m: M, f: nat, data: Page)
    requires Inv(m) && f < NFRAMES && m.role[f] != User
    ensures Inv(Fill(m, f, data)) && Same(m, Fill(m, f, data))
  {
    var n := Fill(m, f, data);
    FillKernelShows(m, n, f, data);
    assert AllEntries(m, n);
    SameEntriesKeep(m, n);
  }
}
