/** Two-level page tables for 32-bit paging, and the flat map they stand for. */
module Paging {
  import opened Params

  const PGSIZE: nat := 4096
  const NPDENTRIES: nat := 1024
  const NPTENTRIES: nat := 1024
  const DIRSPAN: nat := 0x40_0000        // bytes mapped by one directory entry
  const KERNBASE: nat := 0x8000_0000
  const UPAGES: nat := 0x8_0000          // pages below KERNBASE
  const VPAGES: nat := 0x10_0000         // pages of the whole address space

  // ---- Addresses ----

  function PDX(va: nat): nat {
    va / DIRSPAN % NPDENTRIES
  }

  function PTX(va: nat): nat {
    va / PGSIZE % NPTENTRIES
  }

  function PgAddr(d: nat, t: nat, o: nat): nat {
    (d * DIRSPAN + t * PGSIZE + o) % WORD
  }

  function PgRoundUp(sz: nat): nat {
    (sz + PGSIZE - 1) / PGSIZE * PGSIZE % WORD
  }

  /** The number of pages that cover sz bytes. */
  function Pages(sz: nat): nat {
    (sz + PGSIZE - 1) / PGSIZE
  }

  lemma PagesRange(a: nat, b: nat)
    requires a <= b < KERNBASE
    ensures Pages(a) <= Pages(b) <= UPAGES
  {
  }

  /** A loop over addresses from PGROUNDUP(a) below b in steps of PGSIZE visits
      the pages from Pages(a) up to Pages(b). */
  lemma PageLoop(a: nat, b: nat)
    requires a <= b < KERNBASE
    ensures PgRoundUp(a) == Pages(a) * PGSIZE && Pages(a) <= Pages(b) <= UPAGES
    ensures forall v: nat :: Pages(a) <= v < Pages(b) <==> PgRoundUp(a) <= v * PGSIZE < b
  {
  }

  /** The directory index, table index and offset determine the address ... */
  lemma SplitJoin(va: nat)
    requires va < WORD
    ensures PDX(va) < NPDENTRIES && PTX(va) < NPTENTRIES
    ensures PgAddr(PDX(va), PTX(va), va % PGSIZE) == va
  {
  }

  /** ... and every such triple is the split of exactly one address. */
  lemma JoinSplit(d: nat, t: nat, o: nat)
    requires d < NPDENTRIES && t < NPTENTRIES && o < PGSIZE
    ensures var va := PgAddr(d, t, o);
            va < WORD && PDX(va) == d && PTX(va) == t && va % PGSIZE == o
  {
    var va := d * DIRSPAN + t * PGSIZE + o;
    assert va < WORD;
    assert va / PGSIZE == d * NPTENTRIES + t;
    assert va / DIRSPAN == d;
  }

  // ---- Page tables ----

  /** A page-table entry: the frame number and the flags the kernel uses. */
  datatype Pte = Pte(p: bool, w: bool, u: bool, cow: bool, frame: nat)

  const NoPte := Pte(false, false, false, false, 0)

  type Entries = s: seq<Pte> | |s| == NPTENTRIES witness seq(NPTENTRIES, _ => NoPte)

  function NoEntries(): Entries {
    seq(NPTENTRIES, _ => NoPte)
  }

  datatype Table = Table(frame: nat, pte: Entries)

  /** A page directory in its own frame; `pde` has the present entries. */
  datatype PgDir = PgDir(frame: nat, pde: map<nat, Table>)

  /** The entry for page v; a missing table holds no present entries. */
  function Entry(pd: PgDir, v: nat): Pte {
    if v / NPTENTRIES in pd.pde then pd.pde[v / NPTENTRIES].pte[v % NPTENTRIES] else NoPte
  }

  /** The flat partial map from page numbers to entries. */
  ghost function Flat(pd: PgDir): map<nat, Pte> {
    map v: nat | v < VPAGES && Entry(pd, v).p :: Entry(pd, v)
  }

  predicate HasTable(pd: PgDir, v: nat) {
    v / NPTENTRIES in pd.pde
  }

  function SetEntry(pd: PgDir, v: nat, e: Pte): (r: PgDir)
    requires HasTable(pd, v)
    ensures Entry(r, v) == e
    ensures forall x: nat :: x != v ==> Entry(r, x) == Entry(pd, x)
    ensures r.frame == pd.frame && r.pde.Keys == pd.pde.Keys
    ensures forall d :: d in pd.pde ==> r.pde[d].frame == pd.pde[d].frame
  {
    var t := pd.pde[v / NPTENTRIES];
    PgDir(pd.frame, pd.pde[v / NPTENTRIES := Table(t.frame, t.pte[v % NPTENTRIES := e])])
  }

  /** walkpgdir with alloc: a zeroed table page for directory slot d. */
  function AddTable(pd: PgDir, d: nat, frame: nat): (r: PgDir)
    requires d !in pd.pde
    ensures forall x: nat :: Entry(r, x) == Entry(pd, x)
    ensures r.frame == pd.frame && r.pde.Keys == pd.pde.Keys + {d}
    ensures r.pde[d].frame == frame
    ensures forall k :: k in pd.pde ==> r.pde[k].frame == pd.pde[k].frame
  {
    PgDir(pd.frame, pd.pde[d := Table(frame, NoEntries())])
  }

  /** Updating one entry is updating the flat map at one page. */
  lemma SetEntryFlat(pd: PgDir, v: nat, e: Pte)
    requires HasTable(pd, v) && v < VPAGES
    ensures Flat(SetEntry(pd, v, e)) == if e.p then Flat(pd)[v := e] else Flat(pd) - {v}
  {
  }

  lemma AddTableFlat(pd: PgDir, d: nat, frame: nat)
    requires d !in pd.pde
    ensures Flat(AddTable(pd, d, frame)) == Flat(pd)
  {
  }
}
