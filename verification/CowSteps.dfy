/** What holds while allocuvm, copyuvmcow and pagefault run, when they succeed
    and when they run out of memory. */
module CowStates {
  import opened Paging
  import opened Frames
  import opened Spaces

  /** Every user entry, and everything any process sees, is as before; the
      kernel may keep page tables it has added to space id. */
  ghost predicate Kept(g: M, m: M, id: nat) {
    OthersKept(g, m, id) && AllEntries(g, m) && Same(g, m)
  }

  /** Space id has gained zeroed, writable pages from lo up to hi. */
  ghost predicate Grown(g: M, m: M, id: nat, lo: nat, hi: nat) {
    && OthersKept(g, m, id) && id in g.spaces && id in m.spaces
    && m.spaces[id].sz == g.spaces[id].sz && m.spaces[id].killed == g.spaces[id].killed
    && (forall k, x: nat :: k != id || !(lo <= x < hi) ==> Look(m, k, x) == Look(g, k, x))
    && (forall x: nat :: lo <= x < hi ==> Look(m, id, x) == Seen(ZeroPage(), true))
    && (forall x: nat :: x < UPAGES && !(lo <= x < hi) ==>
          IsMapped(m, id, x) == IsMapped(g, id, x) && (IsMapped(g, id, x) ==> At(m, id, x) == At(g, id, x)))
  }

  /** Pages lo to hi belong to user code, and every byte of them is 0. */
  ghost predicate Zeroed(m: M, id: nat, lo: nat, hi: nat) {
    forall x: nat, o: nat :: lo <= x < hi && o < PGSIZE ==>
      Look(m, id, x).Seen? && Look(m, id, x).user && Look(m, id, x).data[o] == 0
  }

  ghost predicate Vacant(g: M, id: nat, lo: nat, hi: nat) {
    forall x: nat :: lo <= x < hi ==> !IsMapped(g, id, x)
  }

  /** a is m with frame f allocated, filled with data and still the kernel's. */
  ghost predicate Reserved(m: M, a: M, f: nat, data: Page) {
    && |m.role| == |a.role| == |a.mem| == NFRAMES && 0 < f < NFRAMES
    && m.role[f] == Free && a.role == m.role[f := Kernel] && a.mem[f] == data
    && a.spaces == m.spaces && a.count == m.count && Same(m, a)
  }

  /** Space p maps the same frames at the same pages, with the same user bits. */
  ghost predicate SameMappings(g: M, m: M, p: nat) {
    forall y: nat :: y < UPAGES ==>
      && IsMapped(m, p, y) == IsMapped(g, p, y)
      && (IsMapped(g, p, y) ==> At(m, p, y).frame == At(g, p, y).frame && At(m, p, y).u == At(g, p, y).u)
  }

  ghost predicate SameFrames(g: M, m: M, p: nat) {
    && p in g.spaces && p in m.spaces
    && m.spaces[p].dir == g.spaces[p].dir && m.spaces[p].tables == g.spaces[p].tables
    && m.spaces[p].sz == g.spaces[p].sz && m.spaces[p].killed == g.spaces[p].killed
  }

  /** Only write permissions and copy-on-write marks of space p differ. */
  ghost predicate Sealed(g: M, m: M, p: nat) {
    OthersKept(g, m, p) && KernelKept(g, m) && Same(g, m) && SameMappings(g, m, p) && SameFrames(g, m, p)
  }

  /** The new space c shares the first x pages of p, read-only. */
  ghost predicate Shares(m: M, p: nat, c: nat, x: nat) {
    forall y: nat :: y < UPAGES ==>
      && (IsMapped(m, c, y) <==> y < x)
      && (y < x ==> IsMapped(m, p, y) && At(m, c, y).frame == At(m, p, y).frame && At(m, c, y).u == At(m, p, y).u)
  }

  /** copyuvmcow has shared the first x pages of p with the new space c. */
  ghost predicate Copied(g: M, m: M, p: nat, c: nat, x: nat) {
    && p != c && c !in g.spaces && c in m.spaces && m.spaces[c].sz == 0 && !m.spaces[c].killed
    && m.spaces - {p, c} == g.spaces - {p, c} && KernelKept(g, m)
    && SameFrames(g, m, p) && SameMappings(g, m, p) && Shares(m, p, c, x)
    && (forall k, y: nat :: k != c ==> Look(m, k, y) == Look(g, k, y))
  }

  /** User code of process id may touch page v. */
  ghost predicate Open(m: M, id: nat, v: nat) {
    Look(m, id, v).Seen? && Look(m, id, v).user
  }

  /** The frame of page v has other users. */
  ghost predicate Shared(m: M, id: nat, v: nat) {
    IsMapped(m, id, v) && At(m, id, v).frame < |m.count| && m.count[At(m, id, v).frame] > 1
  }

  /** What the processor and pagefault look up in the tables before letting
      user code touch page v. */
  predicate Permits(t: Task, v: nat) {
    v < UPAGES && HasTable(t.pgdir, v) && Entry(t.pgdir, v).p && Entry(t.pgdir, v).u
  }

  /** A page that starts with the given bytes and is zero after them. */
  function Padded(init: seq<Byte>): (r: Page)
    requires |init| <= PGSIZE
  {
    init + seq(PGSIZE - |init|, _ => 0)
  }

  /** Before any frame has been freed: all memory is the kernel's. */
  function Bare(): M {
    M([], seq(NFRAMES, _ => 0), seq(NFRAMES, _ => JunkPage()), map[], seq(NFRAMES, _ => Kernel))
  }

  /** Process id has been killed. */
  function Doomed(m: M, id: nat): M
    requires id in m.spaces
  {
    SetProc(m, id, m.spaces[id].sz, true)
  }

  /** Byte o of page v of process id is now b, and that is all anyone can see. */
  ghost predicate Stored(m: M, n: M, id: nat, v: nat, o: nat, b: Byte) {
    && SameBut(m, n, id, v) && Look(m, id, v).Seen? && o < PGSIZE
    && Look(n, id, v) == Seen(Look(m, id, v).data[o := b], Look(m, id, v).user)
  }

  /** Process id gets size sz and, if so, is marked killed. */
  function SetProc(m: M, id: nat, sz: nat, killed: bool): M
    requires id in m.spaces
  {
    var s := m.spaces[id];
    M(m.free, m.count, m.mem, m.spaces[id := Space(s.dir, s.tables, s.flat, sz, killed)], m.role)
  }
}

module CowSteps {
  import opened Paging
  import opened Frames
  import opened Spaces
  import opened CowStates

  lemma GrownZeroed(g: M, m: M, id: nat, lo: nat, hi: nat)
    requires Grown(g, m, id, lo, hi)
    ensures Zeroed(m, id, lo, hi)
  {
  }

  lemma MapUserIs(m: M, n: M, id: nat, v: nat, e: Pte, f: nat, c: int)
    requires |m.count| == |m.mem| == |m.role| == NFRAMES && id in m.spaces
    requires f == e.frame && f < NFRAMES && c == m.count[f] + 1
    requires n.free == m.free && n.count == m.count[f := c] && n.mem == m.mem
    requires n.spaces == SetPte(m.spaces, id, v, e) && n.role == m.role[f := User]
    ensures n == MapUser(m, id, v, e)
  {
  }

  lemma ReserveKeeps(m: M, data: Page)
    requires Inv(m) && m.free != []
    ensures 0 < m.free[0] < NFRAMES
    ensures Inv(Fill(Pop(m), m.free[0], data)) && Reserved(m, Fill(Pop(m), m.free[0], data), m.free[0], data)
  {
    PopKeeps(m);
    FillKernelKeeps(Pop(m), m.free[0], data);
  }

  // ---- allocuvm ----

  lemma GrownNone(g: M, id: nat, lo: nat)
    requires id in g.spaces
    ensures Grown(g, g, id, lo, lo)
  {
  }

  lemma GrownReserved(g: M, m: M, a: M, id: nat, lo: nat, v: nat, f: nat, data: Page)
    requires Grown(g, m, id, lo, v) && Reserved(m, a, f, data)
    ensures Grown(g, a, id, lo, v)
  {
  }

  lemma GrownQuiet(g: M, m: M, n: M, id: nat, lo: nat, v: nat)
    requires Grown(g, m, id, lo, v) && Quiet(m, n, id)
    ensures Grown(g, n, id, lo, v)
  {
    QuietRest(m, n, id);
  }

  /** Mapping one page more. */
  lemma GrownMap(g: M, n: M, r: M, id: nat, lo: nat, v: nat)
    requires Grown(g, n, id, lo, v) && lo <= v
    requires SameBut(n, r, id, v) && SameEntries(n, r, id, v) && Look(r, id, v) == Seen(ZeroPage(), true)
    requires OthersKept(n, r, id)
    ensures Grown(g, r, id, lo, v + 1)
  {
  }

  lemma FreshMappable(n: M, id: nat, v: nat, e: Pte)
    requires Sizes(n) && Counts(n) && id in n.spaces && v < UPAGES && !IsMapped(n, id, v)
    requires 0 < e.frame < NFRAMES && n.role[e.frame] == Kernel && e.p
    ensures Mappable(n, id, v, e) && n.count[e.frame] == 0
  {
    assert n.count[e.frame] == |Users(n.spaces, e.frame)|;
  }

  /** Mapping a page changes its own entry and what is seen there. */
  lemma MapShows(n: M, r: M, id: nat, v: nat, e: Pte)
    requires Sizes(n) && id in n.spaces && v < UPAGES && e.p && e.frame < NFRAMES && r == MapUser(n, id, v, e)
    ensures SameBut(n, r, id, v) && SameEntries(n, r, id, v) && OthersKept(n, r, id)
    ensures IsMapped(r, id, v) && At(r, id, v) == e && Look(r, id, v) == Seen(n.mem[e.frame], e.u)
    ensures r.role == n.role[e.frame := User]
  {
    MapUserShows(n, id, v, e);
    SetPteEntries(n, r, id, v, e);
    assert r.spaces - {id} == n.spaces - {id};
  }

  lemma MapFresh(n: M, r: M, id: nat, v: nat, e: Pte)
    requires Inv(n) && id in n.spaces && v < UPAGES && !IsMapped(n, id, v)
    requires 0 < e.frame < NFRAMES && n.role[e.frame] == Kernel && e.p && r == MapUser(n, id, v, e)
    ensures n.count[e.frame] == 0 && Inv(r)
    ensures SameBut(n, r, id, v) && SameEntries(n, r, id, v) && OthersKept(n, r, id)
    ensures IsMapped(r, id, v) && At(r, id, v) == e && Look(r, id, v) == Seen(n.mem[e.frame], e.u)
    ensures r.role == n.role[e.frame := User]
  {
    FreshMappable(n, id, v, e);
    MapUserKeeps(n, id, v, e);
    MapShows(n, r, id, v, e);
  }

  lemma GrownVacant(g: M, n: M, id: nat, lo: nat, v: nat)
    requires Grown(g, n, id, lo, v) && v < UPAGES && !IsMapped(g, id, v)
    ensures !IsMapped(n, id, v)
  {
  }

  /** The kernel's own frames: f came from the free list and goes to user id. */
  lemma KernelKeptMap(g: M, m: M, a: M, n: M, r: M, f: nat)
    requires KernelKept(g, m) && |m.role| == NFRAMES && f < NFRAMES && m.role[f] == Free
    requires a.role == m.role[f := Kernel] && KernelKept(a, n) && r.role == n.role[f := User]
    ensures KernelKept(g, r)
  {
  }

  /** The same, when f goes back. */
  lemma KernelKeptUndo(g: M, m: M, a: M, n: M, r: M, f: nat)
    requires KernelKept(g, m) && |m.role| == NFRAMES && f < NFRAMES && m.role[f] == Free
    requires a.role == m.role[f := Kernel] && KernelKept(a, n) && r.role == n.role[f := Free]
    ensures KernelKept(g, r)
  {
  }

  /** One page more: m, then a with the frame allocated, then n after the walk. */
  lemma GrownStep(g: M, m: M, a: M, n: M, id: nat, lo: nat, v: nat, e: Pte, f: nat)
    requires Grown(g, m, id, lo, v) && KernelKept(g, m) && lo <= v < UPAGES && !IsMapped(g, id, v)
    requires Reserved(m, a, f, ZeroPage()) && Quiet(a, n, id) && Inv(n)
    requires e == Pte(true, true, true, false, f)
    ensures f < |n.count| && n.count[f] == 0 && Inv(MapUser(n, id, v, e))
    ensures Grown(g, MapUser(n, id, v, e), id, lo, v + 1) && KernelKept(g, MapUser(n, id, v, e))
  {
    GrownReserved(g, m, a, id, lo, v, f, ZeroPage());
    GrownQuiet(g, a, n, id, lo, v);
    GrownVacant(g, n, id, lo, v);
    var r := MapUser(n, id, v, e);
    MapFresh(n, r, id, v, e);
    GrownMap(g, n, r, id, lo, v);
    KernelKeptMap(g, m, a, n, r, f);
  }

  /** Unmapping the pages added so far restores every entry. */
  lemma AllocUndo(g: M, m: M, n: M, id: nat, lo: nat, x: nat, hi: nat)
    requires Grown(g, m, id, lo, x) && x <= hi <= UPAGES && Vacant(g, id, lo, hi) && Gone(m, n, id, lo, hi)
    ensures Kept(g, n, id)
  {
    UndoEntries(g, m, n, id, lo, x, hi);
    OthersEntries(g, n, id);
    UndoLooks(g, m, n, id, lo, x, hi);
  }

  lemma UndoEntries(g: M, m: M, n: M, id: nat, lo: nat, x: nat, hi: nat)
    requires Grown(g, m, id, lo, x) && x <= hi <= UPAGES && Vacant(g, id, lo, hi) && Gone(m, n, id, lo, hi)
    ensures forall y: nat :: y < UPAGES ==>
              IsMapped(n, id, y) == IsMapped(g, id, y) && (IsMapped(g, id, y) ==> At(n, id, y) == At(g, id, y))
  {
  }

  lemma UndoLooks(g: M, m: M, n: M, id: nat, lo: nat, x: nat, hi: nat)
    requires Grown(g, m, id, lo, x) && x <= hi <= UPAGES && Vacant(g, id, lo, hi) && Gone(m, n, id, lo, hi)
    ensures Same(g, n)
  {
    forall k: nat
      ensures k in g.spaces <==> k in n.spaces
      ensures k in g.spaces ==> n.spaces[k].sz == g.spaces[k].sz && n.spaces[k].killed == g.spaces[k].killed
    {
      if k != id {
        SpacesAgree(g, n, id, k);
      }
    }
    assert n.spaces.Keys == g.spaces.Keys;
  }

  lemma OthersEntries(g: M, n: M, id: nat)
    requires OthersKept(g, n, id)
    requires forall y: nat :: y < UPAGES ==>
               IsMapped(n, id, y) == IsMapped(g, id, y) && (IsMapped(g, id, y) ==> At(n, id, y) == At(g, id, y))
    ensures AllEntries(g, n)
  {
    forall k: nat, y: nat | y < UPAGES
      ensures IsMapped(n, k, y) == IsMapped(g, k, y) && (IsMapped(g, k, y) ==> At(n, k, y) == At(g, k, y))
    {
      if k != id {
        SpacesAgree(g, n, id, k);
      }
    }
  }

  lemma SpacesAgree(g: M, n: M, id: nat, k: nat)
    requires OthersKept(g, n, id) && k != id
    ensures k in g.spaces <==> k in n.spaces
    ensures k in g.spaces ==> n.spaces[k] == g.spaces[k]
  {
    assert k in g.spaces <==> k in g.spaces - {id};
    assert k in n.spaces <==> k in n.spaces - {id};
    if k in g.spaces {
      assert (n.spaces - {id})[k] == (g.spaces - {id})[k];
    }
  }

  /** Out of table pages: the pages go, then the frame that had no table. */
  lemma AllocUndoFrame(g: M, m: M, a: M, n: M, id: nat, lo: nat, x: nat, hi: nat, f: nat)
    requires Grown(g, m, id, lo, x) && KernelKept(g, m) && x <= hi <= UPAGES && Vacant(g, id, lo, hi)
    requires Reserved(m, a, f, ZeroPage()) && Gone(a, n, id, lo, hi) && Inv(n)
    ensures Inv(Push(n, f)) && Kept(g, Push(n, f), id) && KernelKept(g, Push(n, f))
  {
    GrownReserved(g, m, a, id, lo, x, f, ZeroPage());
    AllocUndo(g, a, n, id, lo, x, hi);
    assert n.role[f] == Kernel;
    PushKeeps(n, f);
    KernelKeptUndo(g, m, a, n, Push(n, f), f);
    KeptSame(g, n, Push(n, f), id);
  }

  lemma KeptSame(g: M, n: M, r: M, id: nat)
    requires Kept(g, n, id) && r.spaces == n.spaces && Same(n, r)
    ensures Kept(g, r, id)
  {
  }

  // ---- copyuvmcow ----

  lemma CopiedNone(g: M, m: M, p: nat, c: nat, kmap: seq<Range>)
    requires p in g.spaces && c !in g.spaces && Starting(g, m, c, kmap, |kmap|)
    ensures Copied(g, m, p, c, 0)
  {
    SpacesAgree(g, m, c, p);
    assert m.spaces - {p, c} == (m.spaces - {c}) - {p};
    assert g.spaces - {p, c} == (g.spaces - {c}) - {p};
  }

  lemma CopiedHas(g: M, m: M, p: nat, c: nat, v: nat)
    requires Copied(g, m, p, c, v) && IsMapped(g, p, v)
    ensures IsMapped(m, p, v)
  {
  }

  /** Changing the flags of the parent's entry shows nothing. */
  lemma CopiedReflag(g: M, m: M, p: nat, c: nat, x: nat, v: nat, e: Pte)
    requires Inv(m) && Copied(g, m, p, c, x) && IsMapped(m, p, v)
    requires e.p && !e.w && e.frame == At(m, p, v).frame && e.u == At(m, p, v).u
    ensures Inv(Reflag(m, p, v, e)) && Copied(g, Reflag(m, p, v, e), p, c, x)
    ensures IsMapped(Reflag(m, p, v, e), p, v) && At(Reflag(m, p, v, e), p, v) == e
  {
    var n := Reflag(m, p, v, e);
    ReflagKeeps(m, p, v, e);
    SetPteEntries(m, n, p, v, e);
    CopiedSameFrames(g, m, n, p, c, x, v);
  }

  lemma CopiedSameFrames(g: M, m: M, n: M, p: nat, c: nat, x: nat, v: nat)
    requires Copied(g, m, p, c, x) && SameEntries(m, n, p, v) && SameBut(m, n, p, v) && Look(n, p, v) == Look(m, p, v)
    requires IsMapped(m, p, v) && IsMapped(n, p, v)
    requires At(n, p, v).frame == At(m, p, v).frame && At(n, p, v).u == At(m, p, v).u
    requires n.role == m.role && OthersKept(m, n, p) && SameFrames(m, n, p)
    ensures Copied(g, n, p, c, x)
  {
    SpacesAgree(m, n, p, c);
    assert n.spaces - {p, c} == (n.spaces - {p}) - {c};
    assert m.spaces - {p, c} == (m.spaces - {p}) - {c};
  }

  lemma CopiedQuiet(g: M, m: M, n: M, p: nat, c: nat, x: nat)
    requires Copied(g, m, p, c, x) && Quiet(m, n, c)
    ensures Copied(g, n, p, c, x)
  {
    QuietRest(m, n, c);
    SpacesAgree(m, n, c, p);
    assert n.spaces - {p, c} == (n.spaces - {c}) - {p};
    assert m.spaces - {p, c} == (m.spaces - {c}) - {p};
  }

  /** The frame the parent can no longer write to may be mapped by the child. */
  lemma Shareable(m: M, p: nat, c: nat, v: nat, e: Pte)
    requires Inv(m) && p != c && c in m.spaces && Shares(m, p, c, v) && v < UPAGES
    requires IsMapped(m, p, v) && At(m, p, v) == e && !e.w && e.p
    ensures Mappable(m, c, v, e) && 0 < m.count[e.frame] < SCHAR_MAX
  {
    CountBounded(m, e.frame);
    forall k: nat, y: nat | IsMapped(m, k, y) && At(m, k, y).frame == e.frame
      ensures !At(m, k, y).w && k != c
    {
      if At(m, k, y).w {
        WritableOnce(m, p, v, k, y);
      }
    }
  }

  lemma CopiedMap(g: M, n: M, r: M, p: nat, c: nat, v: nat, e: Pte)
    requires Copied(g, n, p, c, v) && v < UPAGES && IsMapped(n, p, v) && At(n, p, v) == e
    requires SameEntries(n, r, c, v) && SameBut(n, r, c, v) && OthersKept(n, r, c) && KernelKept(n, r)
    requires IsMapped(r, c, v) && At(r, c, v) == e
    ensures Copied(g, r, p, c, v + 1)
  {
    SpacesAgree(n, r, c, p);
    assert r.spaces - {p, c} == (r.spaces - {c}) - {p};
    assert n.spaces - {p, c} == (n.spaces - {c}) - {p};
  }

  /** The child maps the frame too, and it is counted. */
  lemma CopiedShare(g: M, n: M, r: M, p: nat, c: nat, v: nat, e: Pte)
    requires Inv(n) && Copied(g, n, p, c, v) && v < UPAGES && IsMapped(n, p, v) && At(n, p, v) == e && !e.w && e.p
    requires e.frame < NFRAMES && r == MapUser(n, c, v, e)
    ensures 0 < n.count[e.frame] < SCHAR_MAX
    ensures Inv(r) && Copied(g, r, p, c, v + 1) && IsMapped(r, p, v) && At(r, p, v) == e
  {
    Shareable(n, p, c, v, e);
    MapUserKeeps(n, c, v, e);
    MapShows(n, r, c, v, e);
    assert n.role[e.frame] == User && r.role == n.role;
    CopiedMap(g, n, r, p, c, v, e);
  }

  /** Giving up: freeing the child leaves only the parent's write permissions
      changed. */
  lemma CopyUndo(g: M, m: M, n: M, p: nat, c: nat, x: nat)
    requires Copied(g, m, p, c, x) && Rest(m, n, c) && n.spaces == m.spaces - {c}
    ensures Sealed(g, n, p)
  {
    assert g.spaces == g.spaces - {c};
    assert n.spaces - {p} == m.spaces - {p, c};
    assert g.spaces - {p} == g.spaces - {p, c};
    forall k: nat
      ensures k in g.spaces <==> k in n.spaces
      ensures k in g.spaces ==> n.spaces[k].sz == g.spaces[k].sz && n.spaces[k].killed == g.spaces[k].killed
    {
      if k != p {
        SpacesAgree(g, n, p, k);
      }
    }
    assert n.spaces.Keys == g.spaces.Keys;
    assert SameMappings(m, n, p);
  }

  // ---- Failure restores counts and frames ----

  /** Equal mappings have equal counts. */
  lemma SealedCounts(g: M, n: M, p: nat)
    requires Inv(g) && Inv(n) && Sealed(g, n, p)
    ensures n.count == g.count
  {
    forall f | 0 <= f < NFRAMES
      ensures n.count[f] == g.count[f]
    {
      forall k: nat, y: nat | y < UPAGES
        ensures Maps(n.spaces, k, y, f) == Maps(g.spaces, k, y, f)
      {
        assert IsMapped(n, k, y) == (k in n.spaces && y in n.spaces[k].flat);
        assert IsMapped(g, k, y) == (k in g.spaces && y in g.spaces[k].flat);
        if k != p {
          SpacesAgree(g, n, p, k);
        }
      }
      assert Users(n.spaces, f) == Users(g.spaces, f);
    }
  }

  lemma KeptCounts(g: M, n: M, id: nat)
    requires Inv(g) && Inv(n) && Kept(g, n, id)
    ensures n.count == g.count
  {
    forall f | 0 <= f < NFRAMES
      ensures n.count[f] == g.count[f]
    {
      UsersSame(g, n, f);
    }
  }

  /** A failed fork leaks nothing: every frame is in the use it was in. */
  lemma SealedRoles(g: M, n: M, p: nat)
    requires Inv(g) && Inv(n) && Sealed(g, n, p)
    ensures n.count == g.count && n.role == g.role && forall f: nat :: f in n.free <==> f in g.free
  {
    SealedCounts(g, n, p);
    forall k: nat
      ensures k in g.spaces <==> k in n.spaces
      ensures k in g.spaces ==> n.spaces[k].dir == g.spaces[k].dir && n.spaces[k].tables == g.spaces[k].tables
    {
      if k != p {
        SpacesAgree(g, n, p, k);
      }
    }
    RolesDetermined(g, n);
  }

  lemma SetupFailed(g: M, n: M, p: nat, c: nat)
    requires Inv(g) && Inv(n) && Rest(g, n, c) && n.spaces == g.spaces && p in g.spaces && c !in g.spaces
    ensures Sealed(g, n, p) && n.count == g.count && n.role == g.role
  {
    assert Sealed(g, n, p);
    SealedRoles(g, n, p);
  }

  lemma RolesDetermined(g: M, n: M)
    requires Inv(g) && Inv(n) && KernelKept(g, n) && n.count == g.count
    requires forall k :: k in g.spaces <==> k in n.spaces
    requires forall k :: k in g.spaces ==> n.spaces[k].dir == g.spaces[k].dir && n.spaces[k].tables == g.spaces[k].tables
    ensures n.role == g.role && forall f: nat :: f in n.free <==> f in g.free
  {
    forall f | 0 <= f < NFRAMES
      ensures n.role[f] == g.role[f]
    {
    }
  }

  // ---- pagefault ----

  /** Dropping one of several mappings leaves the frame in use. */
  lemma UnmapShared(a: M, n: M, id: nat, v: nat)
    requires Inv(a) && IsMapped(a, id, v) && a.count[At(a, id, v).frame] > 1 && n == UnmapUser(a, id, v)
    ensures Inv(n) && SameBut(a, n, id, v) && n.role == a.role && n.mem == a.mem
    ensures id in n.spaces && !IsMapped(n, id, v)
  {
    UnmapUserKeeps(a, id, v);
    UnmapUserShows(a, id, v);
    SetPteEntries(a, n, id, v, NoPte);
  }

  lemma SameAgain(m: M, a: M, n: M, r: M, id: nat, v: nat)
    requires Same(m, a) && SameBut(a, n, id, v) && SameBut(n, r, id, v) && Look(r, id, v) == Look(m, id, v)
    ensures Same(m, r)
  {
  }

  /** The private copy: one user fewer for the shared frame, one for the new. */
  lemma BreakSharing(m: M, a: M, n: M, r: M, id: nat, v: nat, e: Pte, f: nat, data: Page)
    requires Inv(a) && IsMapped(a, id, v) && Look(m, id, v) == Seen(data, true) && Reserved(m, a, f, data)
    requires a.count[At(a, id, v).frame] > 1
    requires e == Pte(true, true, true, false, f) && n == UnmapUser(a, id, v) && r == MapUser(n, id, v, e)
    ensures n.count[f] == 0 && Inv(r) && Same(m, r) && IsMapped(r, id, v) && At(r, id, v) == e
  {
    UnmapShared(a, n, id, v);
    MapFresh(n, r, id, v, e);
    SameAgain(m, a, n, r, id, v);
  }

  /** pagefault's plan for a shared page: allocate, copy, move the entry over. */
  function CopyOf(m: M, f: nat, data: Page): M
    requires m.free != [] && m.free[0] < |m.role| && f < |m.mem|
  {
    Fill(Pop(m), f, data)
  }

  lemma CopyPlan(m: M, id: nat, v: nat, pa: nat, f: nat, e: Pte, data: Page)
    requires Inv(m) && m.free != [] && f == m.free[0] && IsMapped(m, id, v) && At(m, id, v).u
    requires pa == At(m, id, v).frame && m.count[pa] > 1 && data == m.mem[pa] && e == Pte(true, true, true, false, f)
    ensures 0 < f < NFRAMES && f != pa && m.count[f] == 0
    ensures var r := MapUser(UnmapUser(CopyOf(m, f, data), id, v), id, v, e);
            Inv(r) && Same(m, r) && IsMapped(r, id, v) && At(r, id, v) == e
  {
    ReserveKeeps(m, data);
    var a := CopyOf(m, f, data);
    var n := UnmapUser(a, id, v);
    BreakSharing(m, a, n, MapUser(n, id, v, e), id, v, e, f, data);
  }

  // ---- Booting ----

  lemma BareKeeps()
    ensures Inv(Bare())
  {
    var m := Bare();
    forall f: nat
      ensures Users(m.spaces, f) == {}
    {
    }
  }

  lemma InitPlan(m: M, a: M, n: M, r: M, id: nat, e: Pte, f: nat, data: Page)
    requires id in m.spaces && !IsMapped(m, id, 0) && Reserved(m, a, f, ZeroPage()) && Quiet(a, n, id) && Inv(n)
    requires e == Pte(true, true, true, false, f) && f < |n.count| && r == MapUser(n, id, 0, e)
    ensures n.count[f] == 0 && Inv(r) && Inv(Fill(r, f, data)) && SameBut(m, Fill(r, f, data), id, 0)
    ensures Look(Fill(r, f, data), id, 0) == Seen(data, true) && OthersKept(m, Fill(r, f, data), id)
  {
    QuietRest(a, n, id);
    assert n.role[f] == Kernel && !IsMapped(n, id, 0);
    MapFresh(n, r, id, 0, e);
    assert r.count[f] == 1;
    FillUserKeeps(r, id, 0, data);
  }

  // ---- Process state ----

  lemma SetProcKeeps(m: M, id: nat, sz: nat, killed: bool)
    requires Inv(m) && id in m.spaces
    ensures Inv(SetProc(m, id, sz, killed)) && AllEntries(m, SetProc(m, id, sz, killed))
    ensures forall k, x :: Look(SetProc(m, id, sz, killed), k, x) == Look(m, k, x)
  {
    var n := SetProc(m, id, sz, killed);
    EntriesSame(m, n);
    TablesSame(m, n);
    FreeSame(m, n);
    SameEntriesKeep(m, n);
    LooksSame(m, n);
  }

  // ---- Accesses ----

  lemma EntryAt(tasks: map<nat, Task>, m: M, id: nat, v: nat)
    requires m.spaces == AbsAll(tasks) && IsMapped(m, id, v)
    ensures id in tasks && v < VPAGES && HasTable(tasks[id].pgdir, v) && Entry(tasks[id].pgdir, v) == At(m, id, v)
    ensures At(m, id, v).p
  {
    FlatEntry(tasks, id, v);
  }

  lemma ClosePlan(m: M, id: nat, v: nat, e: Pte)
    requires Inv(m) && IsMapped(m, id, v) && e == Pte(true, At(m, id, v).w, false, At(m, id, v).cow, At(m, id, v).frame)
    ensures Inv(Reflag(m, id, v, e)) && SameBut(m, Reflag(m, id, v, e), id, v)
    ensures Look(Reflag(m, id, v, e), id, v) == Seen(Look(m, id, v).data, false)
  {
    ReflagKeeps(m, id, v, e);
  }

  /** The tables permit what the process can see. */
  lemma PermitsOpen(tasks: map<nat, Task>, m: M, id: nat, v: nat)
    requires Inv(m) && m.spaces == AbsAll(tasks) && id in tasks && v < VPAGES
    ensures Permits(tasks[id], v) <==> Open(m, id, v)
    ensures Open(m, id, v) <==> IsMapped(m, id, v) && At(m, id, v).u
    ensures Permits(tasks[id], v) ==>
              var e := Entry(tasks[id].pgdir, v);
              e.frame < |m.mem| && At(m, id, v) == e && Look(m, id, v) == Seen(m.mem[e.frame], true)
  {
  }

  lemma SharedCount(m: M, id: nat, v: nat)
    requires Inv(m) && IsMapped(m, id, v)
    ensures At(m, id, v).frame < NFRAMES && 1 <= m.count[At(m, id, v).frame] <= SCHAR_MAX
    ensures Shared(m, id, v) <==> m.count[At(m, id, v).frame] != 1
    ensures At(m, id, v).w ==> !Shared(m, id, v)
  {
    CountBounded(m, At(m, id, v).frame);
  }

  /** The last user of a page may write to it again. */
  lemma SoleUser(m: M, id: nat, v: nat, e: Pte)
    requires Inv(m) && IsMapped(m, id, v) && At(m, id, v).u && m.count[At(m, id, v).frame] == 1
    requires e == Pte(true, true, true, false, At(m, id, v).frame)
    ensures Inv(Reflag(m, id, v, e)) && Same(m, Reflag(m, id, v, e))
    ensures IsMapped(Reflag(m, id, v, e), id, v) && At(Reflag(m, id, v, e), id, v) == e
  {
    ReflagKeeps(m, id, v, e);
    SetPteEntries(m, Reflag(m, id, v, e), id, v, e);
  }

  lemma MoveEntryIs(m: M, n: M, id: nat, v: nat, e: Pte, pa: nat, less: int, more: int)
    requires |m.count| == |m.mem| == |m.role| == NFRAMES && IsMapped(m, id, v) && e.p
    requires pa == At(m, id, v).frame && pa < NFRAMES && e.frame < NFRAMES && pa != e.frame && m.count[pa] > 1
    requires less == m.count[pa] - 1 && more == m.count[e.frame] + 1
    requires n.free == m.free && n.count == m.count[pa := less][e.frame := more] && n.mem == m.mem
    requires n.spaces == SetPte(m.spaces, id, v, e) && n.role == m.role[e.frame := User]
    ensures n == MapUser(UnmapUser(m, id, v), id, v, e)
  {
    var a, b := m.spaces, SetPte(m.spaces, id, v, NoPte);
    assert (a[id].flat - {v})[v := e] == a[id].flat[v := e];
    assert SetPte(b, id, v, e) == SetPte(a, id, v, e);
  }

  /** A store through a writable entry reaches nobody else. */
  lemma StoreKeeps(g: M, m: M, id: nat, v: nat, o: nat, b: Byte, data: Page)
    requires Inv(m) && Same(g, m) && IsMapped(m, id, v) && At(m, id, v).w && At(m, id, v).u && o < PGSIZE
    requires data == m.mem[At(m, id, v).frame][o := b]
    ensures Inv(Fill(m, At(m, id, v).frame, data)) && Stored(g, Fill(m, At(m, id, v).frame, data), id, v, o, b)
  {
    FillUserKeeps(m, id, v, data);
  }
}
