/** In-memory inodes and their reference counts, as values. */
module InodeState {
  import opened FsState
  import opened FsTrunc
  import opened Directory
  import D = DirFormat

  const NINODE: nat := 50
  const ROOTINO: nat := 1
  const T_DIR: nat := 1

  /** An entry of the inode cache. */
  datatype Handle = Handle(inum: nat, ref: nat, valid: bool)

  /** Types and link counts; an inode that is not listed is free. */
  type Kinds = map<nat, nat>

  function Kind(kinds: Kinds, i: nat): nat {
    if i in kinds then kinds[i] else 0
  }

  function Links(nlinks: map<nat, nat>, i: nat): nat {
    if i in nlinks then nlinks[i] else 0
  }

  predicate Caches(h: Handle, i: nat) {
    h.ref > 0 && h.inum == i
  }

  /** No inode has two entries. */
  ghost predicate Single(hs: seq<Handle>) {
    forall j, k :: 0 <= j < |hs| && 0 <= k < |hs| && hs[j].ref > 0 && Caches(hs[k], hs[j].inum) ==> j == k
  }

  ghost predicate Loaded(hs: seq<Handle>, kinds: Kinds) {
    forall k :: 0 <= k < |hs| && hs[k].ref > 0 && hs[k].valid ==> Kind(kinds, hs[k].inum) != 0
  }

  ghost predicate Held(hs: seq<Handle>, i: nat) {
    exists k :: 0 <= k < |hs| && Caches(hs[k], i) && hs[k].valid
  }

  /** An allocated inode without links is in use. */
  ghost predicate Kept(hs: seq<Handle>, kinds: Kinds, nlinks: map<nat, nat>) {
    forall i: nat :: Kind(kinds, i) != 0 && Links(nlinks, i) == 0 ==> Held(hs, i)
  }

  ghost predicate Typed(f: F, kinds: Kinds) {
    forall i: nat :: Kind(kinds, i) != 0 ==> i in f.ino && (Kind(kinds, i) == T_DIR ==> IsDir(f, i))
  }

  ghost predicate Counts(hs: seq<Handle>, kinds: Kinds, nlinks: map<nat, nat>) {
    Single(hs) && Loaded(hs, kinds) && Kept(hs, kinds, nlinks)
  }

  ghost predicate Sound(f: F, hs: seq<Handle>, kinds: Kinds, nlinks: map<nat, nat>) {
    |hs| == NINODE && Whole(f) && Typed(f, kinds) && Counts(hs, kinds, nlinks)
  }

  // ---- Steps ----

  ghost predicate Absent(hs: seq<Handle>, i: nat) {
    forall k :: 0 <= k < |hs| ==> !Caches(hs[k], i)
  }

  function Got(hs: seq<Handle>, k: nat, i: nat): seq<Handle>
    requires k < |hs|
  {
    hs[k := Handle(i, hs[k].ref + 1, hs[k].ref > 0 && hs[k].valid)]
  }

  function Put(hs: seq<Handle>, k: nat): seq<Handle>
    requires k < |hs| && hs[k].ref > 0
  {
    hs[k := Handle(hs[k].inum, hs[k].ref - 1, hs[k].valid)]
  }

  function Load(hs: seq<Handle>, k: nat): seq<Handle>
    requires k < |hs|
  {
    hs[k := Handle(hs[k].inum, hs[k].ref, true)]
  }

  function Dropped(hs: seq<Handle>, k: nat): seq<Handle>
    requires k < |hs|
  {
    hs[k := Handle(hs[k].inum, 0, false)]
  }

  /** An entry that iget may return. */
  ghost predicate Fits(hs: seq<Handle>, k: nat, i: nat) {
    k < |hs| && (Caches(hs[k], i) || (hs[k].ref == 0 && Absent(hs, i)))
  }

  lemma StillHeld(hs: seq<Handle>, gs: seq<Handle>, i: nat)
    requires |gs| == |hs| && Held(hs, i)
    requires forall k :: 0 <= k < |hs| && Caches(hs[k], i) && hs[k].valid ==> Caches(gs[k], i) && gs[k].valid
    ensures Held(gs, i)
  {
  }

  lemma GotKeeps(hs: seq<Handle>, gs: seq<Handle>, k: nat, i: nat, kinds: Kinds, nlinks: map<nat, nat>)
    requires Counts(hs, kinds, nlinks) && Fits(hs, k, i) && gs == Got(hs, k, i)
    ensures Counts(gs, kinds, nlinks)
  {
    forall j: nat | Kind(kinds, j) != 0 && Links(nlinks, j) == 0
      ensures Held(gs, j)
    {
      StillHeld(hs, gs, j);
    }
  }

  lemma LoadKeeps(hs: seq<Handle>, gs: seq<Handle>, k: nat, kinds: Kinds, nlinks: map<nat, nat>)
    requires Counts(hs, kinds, nlinks) && k < |hs| && Kind(kinds, hs[k].inum) != 0 && gs == Load(hs, k)
    ensures Counts(gs, kinds, nlinks)
  {
    forall j: nat | Kind(kinds, j) != 0 && Links(nlinks, j) == 0
      ensures Held(gs, j)
    {
      StillHeld(hs, gs, j);
    }
  }

  /** iput frees the inode of entry k. */
  predicate Frees(hs: seq<Handle>, k: nat, nlinks: map<nat, nat>)
    requires k < |hs|
  {
    hs[k].valid && Links(nlinks, hs[k].inum) == 0 && hs[k].ref == 1
  }

  lemma PutKeeps(hs: seq<Handle>, gs: seq<Handle>, k: nat, kinds: Kinds, nlinks: map<nat, nat>)
    requires Counts(hs, kinds, nlinks) && k < |hs| && hs[k].ref > 0 && !Frees(hs, k, nlinks) && gs == Put(hs, k)
    ensures Counts(gs, kinds, nlinks)
  {
    forall j: nat | Kind(kinds, j) != 0 && Links(nlinks, j) == 0
      ensures Held(gs, j)
    {
      StillHeld(hs, gs, j);
    }
  }

  lemma DroppedKeeps(hs: seq<Handle>, gs: seq<Handle>, k: nat, kinds: Kinds, nlinks: map<nat, nat>)
    requires Counts(hs, kinds, nlinks) && k < |hs| && hs[k].ref > 0 && gs == Dropped(hs, k)
    ensures Counts(gs, kinds[hs[k].inum := 0], nlinks)
  {
    var after := kinds[hs[k].inum := 0];
    forall j: nat | Kind(after, j) != 0 && Links(nlinks, j) == 0
      ensures Held(gs, j)
    {
      StillHeld(hs, gs, j);
    }
  }

  /** Truncating one inode leaves the other directories as they are. */
  lemma TypedTruncated(f: F, g: F, i: nat, kinds: Kinds)
    requires Typed(f, kinds) && Truncated(f, g, i)
    ensures Typed(g, kinds[i := 0])
  {
    forall j: nat | Kind(kinds[i := 0], j) != 0
      ensures j in g.ino && (Kind(kinds, j) == T_DIR ==> IsDir(g, j))
    {
      if Kind(kinds, j) == T_DIR {
        SameContents(f, g, j);
      }
    }
  }

  /** So does entering a name in one of them. */
  lemma TypedLinked(f: F, g: F, kinds: Kinds, i: nat)
    requires Typed(f, kinds) && g.ino.Keys == f.ino.Keys && IsDir(g, i)
    requires forall k: nat :: k != i && IsDir(f, k) ==> IsDir(g, k)
    ensures Typed(g, kinds)
  {
  }

  // ---- Borrowed references ----

  /** gs has, over hs, the references m, and an entry in use keeps its inode. */
  ghost predicate Borrowed(hs: seq<Handle>, gs: seq<Handle>, m: multiset<nat>) {
    && |gs| == |hs|
    && (forall k: nat :: k < |hs| ==> gs[k].ref == hs[k].ref + m[k])
    && (forall k: nat :: k < |hs| && hs[k].ref > 0 ==> gs[k].inum == hs[k].inum)
  }

  lemma BorrowGot(hs: seq<Handle>, gs: seq<Handle>, ks: seq<Handle>, m: multiset<nat>, k: nat, i: nat)
    requires Borrowed(hs, gs, m) && Fits(gs, k, i) && ks == Got(gs, k, i)
    ensures Borrowed(hs, ks, m + multiset{k})
  {
  }

  lemma BorrowLoad(hs: seq<Handle>, gs: seq<Handle>, ks: seq<Handle>, m: multiset<nat>, k: nat)
    requires Borrowed(hs, gs, m) && k < |gs| && ks == Load(gs, k)
    ensures Borrowed(hs, ks, m)
  {
  }

  lemma BorrowPut(hs: seq<Handle>, gs: seq<Handle>, ks: seq<Handle>, m: multiset<nat>, k: nat)
    requires Borrowed(hs, gs, m + multiset{k}) && k < |gs| && gs[k].ref > 0 && ks == Put(gs, k)
    ensures Borrowed(hs, ks, m)
  {
  }

  /** Giving back a borrowed reference frees nothing: an inode without links had
      another reference to start with. */
  lemma BorrowedStays(hs: seq<Handle>, gs: seq<Handle>, m: multiset<nat>, k: nat, kinds: Kinds, nlinks: map<nat, nat>)
    requires Kept(hs, kinds, nlinks) && Counts(gs, kinds, nlinks) && Borrowed(hs, gs, m) && k < |gs| && m[k] > 0
    ensures !Frees(gs, k, nlinks)
  {
    var i := gs[k].inum;
    if gs[k].valid && Links(nlinks, i) == 0 {
      assert Kind(kinds, i) != 0;
      assert Held(hs, i);
      var j: nat :| j < |hs| && Caches(hs[j], i) && hs[j].valid;
      assert gs[j].ref == hs[j].ref + m[j];
      assert Caches(gs[j], i);
      assert j == k;
    }
  }

  ghost predicate AtMostOneFree(hs: seq<Handle>) {
    forall j, k :: 0 <= j < |hs| && 0 <= k < |hs| && hs[j].ref == 0 && hs[k].ref == 0 ==> j == k
  }

  /** A full table with one reference borrowed had at most one free entry. */
  lemma FullBut(hs: seq<Handle>, gs: seq<Handle>, k: nat)
    requires Borrowed(hs, gs, multiset{k}) && forall j :: 0 <= j < |gs| ==> gs[j].ref > 0
    ensures AtMostOneFree(hs)
  {
    forall j: nat | j < |hs| && hs[j].ref == 0
      ensures j == k
    {
      assert gs[j].ref == hs[j].ref + multiset{k}[j];
    }
  }

  // ---- Walking a path ----

  /** NoType is ilock's panic on a free inode. */
  datatype Outcome = Found(inum: nat) | Nothing | NoType

  /** The inode, if it is a directory. */
  ghost function AsDir(kinds: Kinds, o: Outcome): Outcome {
    if !o.Found? then o
    else if Kind(kinds, o.inum) == 0 then NoType
    else if Kind(kinds, o.inum) != T_DIR then Nothing
    else o
  }

  /** The entry with the name in a directory. */
  ghost function Child(f: F, kinds: Kinds, o: Outcome, name: D.Name): Outcome {
    var d := AsDir(kinds, o);
    if !d.Found? || d.inum !in f.ino then d
    else if D.Key(name) in D.MapOf(Dir(f, d.inum)) then Found(D.MapOf(Dir(f, d.inum))[D.Key(name)])
    else Nothing
  }

  /** The fold of the directories' maps over the components. */
  ghost function Walk(f: F, kinds: Kinds, i: nat, cs: seq<D.Name>): Outcome {
    if cs == [] then Found(i) else Child(f, kinds, Walk(f, kinds, i, cs[..|cs| - 1]), cs[|cs| - 1])
  }

  /** What namex is to find. */
  ghost function Target(f: F, kinds: Kinds, i: nat, cs: seq<D.Name>, parent: bool): Outcome {
    if !parent then Walk(f, kinds, i, cs)
    else if cs == [] then Nothing
    else AsDir(kinds, Walk(f, kinds, i, cs[..|cs| - 1]))
  }

  /** The child of a path's parent under its last name is what the path names. */
  lemma ParentChild(f: F, kinds: Kinds, i: nat, cs: seq<D.Name>)
    requires cs != []
    ensures Child(f, kinds, Target(f, kinds, i, cs, true), cs[|cs| - 1]) == Target(f, kinds, i, cs, false)
  {
  }

  lemma WalkNext(f: F, kinds: Kinds, i: nat, cs: seq<D.Name>, c: D.Name)
    ensures Walk(f, kinds, i, cs + [c]) == Child(f, kinds, Walk(f, kinds, i, cs), c)
  {
    assert (cs + [c])[..|cs|] == cs;
  }

  /** A walk that fails stays failed. */
  lemma {:induction false} WalkStuck(f: F, kinds: Kinds, i: nat, cs: seq<D.Name>, n: nat)
    requires n <= |cs| && !Walk(f, kinds, i, cs[..n]).Found?
    ensures Walk(f, kinds, i, cs) == Walk(f, kinds, i, cs[..n])
    decreases |cs|
  {
    if n < |cs| {
      assert cs[..|cs| - 1][..n] == cs[..n];
      WalkStuck(f, kinds, i, cs[..|cs| - 1], n);
    } else {
      assert cs[..n] == cs;
    }
  }

  /** The next step of namex fails: so does the whole walk. */
  lemma Stops(f: F, kinds: Kinds, i: nat, cs: seq<D.Name>, n: nat, parent: bool)
    requires n < |cs| && (parent ==> n + 1 < |cs|)
    requires !Walk(f, kinds, i, cs[..n + 1]).Found?
    ensures Target(f, kinds, i, cs, parent) == Walk(f, kinds, i, cs[..n + 1])
  {
    WalkStuck(f, kinds, i, cs, n + 1);
    if parent {
      assert cs[..|cs| - 1][..n + 1] == cs[..n + 1];
      WalkStuck(f, kinds, i, cs[..|cs| - 1], n + 1);
    }
  }

  lemma ChildOf(f: F, kinds: Kinds, i: nat, name: D.Name)
    requires Typed(f, kinds) && Kind(kinds, i) == T_DIR
    ensures IsDir(f, i)
    ensures Child(f, kinds, Found(i), name) ==
            var d := D.MapOf(Dir(f, i)); if D.Key(name) in d then Found(d[D.Key(name)]) else Nothing
  {
  }

  /** One turn of namex's loop at inode i. */
  ghost function Turn(f: F, kinds: Kinds, i: nat, name: D.Name, stop: bool): Outcome {
    if stop then AsDir(kinds, Found(i)) else Child(f, kinds, Found(i), name)
  }

  /** n components lead to inode i. */
  ghost predicate Walked(f: F, kinds: Kinds, start: nat, cs: seq<D.Name>, n: nat, i: nat) {
    n <= |cs| && Walk(f, kinds, start, cs[..n]) == Found(i)
  }

  lemma TurnEnds(f: F, kinds: Kinds, start: nat, cs: seq<D.Name>, n: nat, parent: bool, i: nat, name: D.Name)
    requires Walked(f, kinds, start, cs, n, i) && n < |cs| && D.Key(name) == D.Key(cs[n])
    ensures var stop := parent && n + 1 == |cs|; var o := Turn(f, kinds, i, name, stop);
            if stop || !o.Found? then Target(f, kinds, start, cs, parent) == o
            else Walked(f, kinds, start, cs, n + 1, o.inum)
  {
    if !(parent && n + 1 == |cs|) {
      assert cs[..n + 1] == cs[..n] + [cs[n]];
      WalkNext(f, kinds, start, cs[..n], cs[n]);
      if !Child(f, kinds, Found(i), name).Found? {
        Stops(f, kinds, start, cs, n, parent);
      }
    }
  }

  /** No component left. */
  lemma WalkEnds(f: F, kinds: Kinds, start: nat, cs: seq<D.Name>, i: nat)
    requires Walked(f, kinds, start, cs, |cs|, i)
    ensures Target(f, kinds, start, cs, false) == Found(i)
  {
    assert cs[..|cs|] == cs;
  }

  /** At: a reference to the inode of a cache entry. Full is iget's panic for want
      of entries, Untyped ilock's on a free inode. */
  datatype Ref = At(k: nat) | None | Untyped | Full

  /** The result stands for the outcome. */
  ghost predicate Yields(r: Ref, gs: seq<Handle>, o: Outcome) {
    match r
    case At(k) => k < |gs| && o == Found(gs[k].inum)
    case None => o == Nothing
    case Untyped => o == NoType
    case Full => true
  }

  /** A reference is taken on what is returned and on nothing else. */
  ghost predicate Takes(r: Ref, hs: seq<Handle>, gs: seq<Handle>) {
    match r
    case At(k) => Borrowed(hs, gs, multiset{k})
    case None => Borrowed(hs, gs, multiset{})
    case Untyped => true
    case Full => AtMostOneFree(hs)
  }
}

/** The inode cache and path lookup. */
module PathName {
  import opened FsFormat
  import opened FsTrunc
  import opened FileSystem
  import opened Directory
  import opened InodeState
  import P = PathFormat
  import D = DirFormat

  class Inodes {
    const fs: Fs
    const table: array<Handle>
    var kinds: Kinds
    var nlinks: map<nat, nat>

    ghost predicate Valid()
      reads this, fs, table
    {
      Sound(fs.State(), table[..], kinds, nlinks)
    }

    /** An empty cache over a file system without orphans. */
    constructor (fs: Fs, kinds: Kinds, nlinks: map<nat, nat>)
      requires fs.Valid() && Typed(fs.State(), kinds)
      requires forall i: nat :: Kind(kinds, i) != 0 ==> Links(nlinks, i) > 0
      ensures Valid() && fresh(table) && this.fs == fs && this.kinds == kinds && this.nlinks == nlinks
      ensures forall k :: 0 <= k < NINODE ==> table[k].ref == 0
    {
      this.fs := fs;
      table := new Handle[NINODE](_ => Handle(0, 0, false));
      this.kinds := kinds;
      this.nlinks := nlinks;
    }

    /** An entry for inode i with one more reference, or -1 if i is not cached and
        no entry is free. */
    method Iget(i: nat) returns (k: int)
      requires Valid()
      modifies table
      ensures Valid() && k < NINODE
      ensures k < 0 <==> Absent(old(table[..]), i) && forall j :: 0 <= j < NINODE ==> old(table[j]).ref > 0
      ensures k < 0 ==> table[..] == old(table[..])
      ensures k >= 0 ==> Fits(old(table[..]), k, i) && table[..] == Got(old(table[..]), k, i)
      ensures k >= 0 && Absent(old(table[..]), i) ==> forall j :: 0 <= j < k ==> old(table[j]).ref > 0
      ensures k >= 0 ==> table[k] == if old(table[k]).ref > 0 then Handle(i, old(table[k]).ref + 1, old(table[k]).valid)
                                     else Handle(i, 1, false)
      ensures forall j :: 0 <= j < NINODE && j != k ==> table[j] == old(table[j])
    {
      ghost var hs := table[..];
      k := 0;
      var empty := -1;
      while k < table.Length
        invariant 0 <= k <= NINODE && table[..] == hs && -1 <= empty < k
        invariant forall j :: 0 <= j < k ==> !Caches(hs[j], i)
        invariant if empty >= 0 then hs[empty].ref == 0 else forall j :: 0 <= j < k ==> hs[j].ref > 0
        invariant forall j :: 0 <= j < empty ==> hs[j].ref > 0
      {
        if table[k].ref > 0 && table[k].inum == i {
          table[k] := Handle(i, table[k].ref + 1, table[k].valid);
          assert table[..] == Got(hs, k, i);
          GotKeeps(hs, table[..], k, i, kinds, nlinks);
          return;
        }
        if empty < 0 && table[k].ref == 0 {
          empty := k;
        }
        k := k + 1;
      }
      if empty < 0 {
        return -1;
      }
      k := empty;
      table[k] := Handle(i, 1, false);
      assert table[..] == Got(hs, k, i);
      GotKeeps(hs, table[..], k, i, kinds, nlinks);
    }

    method Idup(k: nat)
      requires Valid() && k < NINODE && table[k].ref > 0
      modifies table
      ensures Valid() && table[..] == Got(old(table[..]), k, old(table[k]).inum)
    {
      ghost var hs := table[..];
      table[k] := Handle(table[k].inum, table[k].ref + 1, table[k].valid);
      assert table[..] == Got(hs, k, hs[k].inum);
      GotKeeps(hs, table[..], k, hs[k].inum, kinds, nlinks);
    }

    /** Read the inode in, if need be; false is the panic on a free inode. */
    method Ilock(k: nat) returns (ok: bool)
      requires Valid() && k < NINODE && table[k].ref > 0
      modifies table
      ensures ok <==> Kind(kinds, old(table[k]).inum) != 0
      ensures ok ==> Valid() && table[..] == Load(old(table[..]), k)
      ensures ok ==> table[k] == Handle(old(table[k]).inum, old(table[k]).ref, true)
    {
      ghost var hs := table[..];
      ok := true;
      if !table[k].valid {
        table[k] := Handle(table[k].inum, table[k].ref, true);
        ok := Kind(kinds, table[k].inum) != 0;
      }
      assert table[..] == Load(hs, k);
      if ok {
        LoadKeeps(hs, table[..], k, kinds, nlinks);
      }
    }

    /** Give back a reference; the last one to an inode without links frees it. */
    method Iput(k: nat)
      requires Valid() && k < NINODE && table[k].ref > 0
      modifies this`kinds, table, fs
      ensures Valid()
      ensures !Frees(old(table[..]), k, nlinks) ==>
                && table[..] == Put(old(table[..]), k)
                && kinds == old(kinds) && fs.State() == old(fs.State())
      ensures Frees(old(table[..]), k, nlinks) ==>
                && table[..] == Dropped(old(table[..]), k)
                && kinds == old(kinds)[old(table[k]).inum := 0]
                && Truncated(old(fs.State()), fs.State(), old(table[k]).inum)
      ensures table[k] == if old(table[k]).valid && old(table[k]).ref == 1 && Links(nlinks, old(table[k]).inum) == 0
                          then Handle(old(table[k]).inum, 0, false)
                          else Handle(old(table[k]).inum, old(table[k]).ref - 1, old(table[k]).valid)
      ensures forall j :: 0 <= j < NINODE && j != k ==> table[j] == old(table[j])
      ensures Kind(kinds, old(table[k]).inum) == 0 <==>
                || Kind(old(kinds), old(table[k]).inum) == 0
                || (old(table[k]).valid && old(table[k]).ref == 1 && Links(nlinks, old(table[k]).inum) == 0)
    {
      ghost var hs := table[..];
      var i := table[k].inum;
      if table[k].valid && Links(nlinks, i) == 0 && table[k].ref == 1 {
        assert Kind(kinds, hs[k].inum) != 0;
        ghost var f := fs.State();
        fs.Itrunc(i);
        TypedTruncated(f, fs.State(), i, kinds);
        DroppedKeeps(hs, Dropped(hs, k), k, kinds, nlinks);
        kinds := kinds[i := 0];
        table[k] := Handle(i, 0, false);
        assert table[..] == Dropped(hs, k);
      } else {
        table[k] := Handle(i, table[k].ref - 1, table[k].valid);
        assert table[..] == Put(hs, k);
        PutKeeps(hs, table[..], k, kinds, nlinks);
      }
    }

    // ---- namex ----

    /** Give back a borrowed reference. */
    method Return(k: nat, ghost hs: seq<Handle>, ghost m: multiset<nat>)
      requires Valid() && k < NINODE && Kept(hs, kinds, nlinks) && Borrowed(hs, table[..], m + multiset{k})
      modifies this`kinds, table, fs
      ensures Valid() && fs.State() == old(fs.State()) && kinds == old(kinds)
      ensures Borrowed(hs, table[..], m)
      ensures forall j :: 0 <= j < NINODE ==> table[j].inum == old(table[j]).inum
    {
      ghost var gs := table[..];
      assert gs[k].ref == hs[k].ref + (m + multiset{k})[k];
      BorrowedStays(hs, gs, m + multiset{k}, k, kinds, nlinks);
      Iput(k);
      BorrowPut(hs, gs, table[..], m, k);
    }

    /** The root for an absolute path, the working directory for any other. */
    method Start(s: P.Path, cwd: nat) returns (k: int)
      requires Valid() && cwd < NINODE && table[cwd].ref > 0
      modifies table
      ensures Valid() && k < NINODE
      ensures k < 0 ==> forall j :: 0 <= j < NINODE ==> old(table[j]).ref > 0
      ensures k >= 0 ==> Borrowed(old(table[..]), table[..], multiset{k as nat})
      ensures k >= 0 ==> table[k].inum == (if s != [] && s[0] == P.SLASH then ROOTINO else old(table[cwd]).inum)
    {
      ghost var hs := table[..];
      assert Borrowed(hs, hs, multiset{});
      if s != [] && s[0] == P.SLASH {
        k := Iget(ROOTINO);
        if k >= 0 {
          BorrowGot(hs, hs, table[..], multiset{}, k, ROOTINO);
        }
      } else {
        k := cwd;
        Idup(cwd);
        BorrowGot(hs, hs, table[..], multiset{}, cwd, hs[cwd].inum);
      }
    }

    /** dirlookup: a new reference to the named inode. */
    method Lookup(ip: nat, name: D.Name) returns (r: Ref)
      requires Valid() && ip < NINODE && table[ip].ref > 0 && Kind(kinds, table[ip].inum) == T_DIR
      modifies table, fs
      ensures Valid() && fs.State() == old(fs.State()) && !r.Untyped?
      ensures !r.At? ==> table[..] == old(table[..])
      ensures r.Full? ==> forall j :: 0 <= j < NINODE ==> table[j].ref > 0
      ensures r.None? ==> Child(fs.State(), kinds, Found(old(table[ip]).inum), name) == Nothing
      ensures r.At? ==> r.k < NINODE && Fits(old(table[..]), r.k, table[r.k].inum)
      ensures r.At? ==> table[..] == Got(old(table[..]), r.k, table[r.k].inum)
      ensures r.At? ==> Child(fs.State(), kinds, Found(old(table[ip]).inum), name) == Found(table[r.k].inum)
    {
      ChildOf(fs.State(), kinds, table[ip].inum, name);
      var e := Dirlookup(fs, table[ip].inum, name);
      if e.Missing? {
        return None;
      }
      var next := Iget(e.inum);
      r := if next < 0 then Full else At(next);
    }

    /** dirlink once the name is known to be new. */
    method EnterName(i: nat, name: D.Name, inum: nat) returns (r: Link, ghost slot: nat)
      requires Valid() && Kind(kinds, i) == T_DIR && inum % 0x1_0000 != 0
      requires Child(fs.State(), kinds, Found(i), name) == Nothing
      modifies fs
      ensures !r.Exists? && (r.Linked? ==> Valid() && Child(fs.State(), kinds, Found(i), name) == Found(inum % 0x1_0000))
      ensures i in old(fs.State()).ino && FirstFree(Dir(old(fs.State()), i), slot)
      ensures (exists j :: 0 <= j < |Dir(old(fs.State()), i)| && Dir(old(fs.State()), i)[j].inum == 0) ==> r.Linked?
      ensures r.Linked? ==> i in fs.State().ino && Entered(Dir(old(fs.State()), i), Dir(fs.State(), i), slot, name, inum % 0x1_0000)
    {
      ghost var f := fs.State();
      ChildOf(f, kinds, i, name);
      r, slot := AddEntry(fs, i, name, inum);
      if r.Linked? {
        TypedLinked(f, fs.State(), kinds, i);
        ChildOf(fs.State(), kinds, i, name);
      }
    }

    /** dirlink, with the reference that its dirlookup takes and iput gives back;
        full stands for iget's panic. */
    method AddLink(ip: nat, name: D.Name, inum: nat) returns (r: Link, full: bool, ghost slot: nat)
      requires Valid() && ip < NINODE && table[ip].ref > 0 && Kind(kinds, table[ip].inum) == T_DIR
      requires inum % 0x1_0000 != 0
      modifies this`kinds, table, fs
      ensures full ==> forall j :: 0 <= j < NINODE ==> old(table[j]).ref > 0
      ensures !full && !r.LinkPanic? ==> Valid() && kinds == old(kinds) && Borrowed(old(table[..]), table[..], multiset{})
      ensures !full ==> (r.Exists? <==> Child(old(fs.State()), old(kinds), Found(old(table[ip]).inum), name) != Nothing)
      ensures !full && r.Linked? ==>
                Child(fs.State(), kinds, Found(old(table[ip]).inum), name) == Found(inum % 0x1_0000)
      ensures !full && !r.Exists? ==>
                var i, f := old(table[ip]).inum, old(fs.State());
                && i in f.ino && FirstFree(Dir(f, i), slot)
                && ((exists j :: 0 <= j < |Dir(f, i)| && Dir(f, i)[j].inum == 0) ==> r.Linked?)
                && (r.Linked? ==> i in fs.State().ino && Entered(Dir(f, i), Dir(fs.State(), i), slot, name, inum % 0x1_0000))
    {
      ghost var hs := table[..];
      assert Borrowed(hs, hs, multiset{});
      var i := table[ip].inum;
      var e := Lookup(ip, name);
      full, slot := e.Full?, 0;
      if e.Full? {
        r := LinkPanic;
      } else if e.At? {
        BorrowGot(hs, hs, table[..], multiset{}, e.k, table[e.k].inum);
        Return(e.k, hs, multiset{});
        r := Exists;
      } else {
        r, slot := EnterName(i, name, inum);
      }
    }

    /** One component: the entry for its inode, in exchange for that of ip. */
    method Descend(ip: nat, name: D.Name, ghost hs: seq<Handle>) returns (r: Ref)
      requires Valid() && ip < NINODE && Kept(hs, kinds, nlinks) && Borrowed(hs, table[..], multiset{ip})
      requires table[ip].ref > 0 && Kind(kinds, table[ip].inum) == T_DIR
      modifies this`kinds, table, fs
      ensures Valid() && fs.State() == old(fs.State()) && kinds == old(kinds) && !r.Untyped?
      ensures r.Full? ==> AtMostOneFree(hs)
      ensures r.At? ==> r.k < NINODE && Borrowed(hs, table[..], multiset{r.k})
      ensures r.None? ==> Borrowed(hs, table[..], multiset{})
      ensures r.None? ==> Child(fs.State(), kinds, Found(old(table[ip]).inum), name) == Nothing
      ensures r.At? ==> Child(fs.State(), kinds, Found(old(table[ip]).inum), name) == Found(table[r.k].inum)
    {
      ghost var gs := table[..];
      r := Lookup(ip, name);
      if r.Full? {
        FullBut(hs, gs, ip);
      } else if r.None? {
        Return(ip, hs, multiset{});
      } else {
        BorrowGot(hs, gs, table[..], multiset{ip}, r.k, table[r.k].inum);
        Return(ip, hs, multiset{r.k});
      }
    }

    /** A turn of namex's loop, a borrowed reference to ip in hand. */
    method Hop(ip: nat, name: D.Name, stop: bool, ghost hs: seq<Handle>) returns (r: Ref)
      requires Valid() && ip < NINODE && Kept(hs, kinds, nlinks) && Borrowed(hs, table[..], multiset{ip})
      modifies this`kinds, table, fs
      ensures fs.State() == old(fs.State()) && kinds == old(kinds)
      ensures !r.Untyped? ==> Valid()
      ensures Takes(r, hs, table[..])
      ensures Yields(r, table[..], Turn(fs.State(), kinds, old(table[ip]).inum, name, stop))
    {
      ghost var gs := table[..];
      assert gs[ip].ref == hs[ip].ref + multiset{ip}[ip];
      var ok := Ilock(ip);
      if !ok {
        return Untyped;
      }
      BorrowLoad(hs, gs, table[..], multiset{ip}, ip);
      if Kind(kinds, table[ip].inum) != T_DIR {
        Return(ip, hs, multiset{});
        return None;
      }
      if stop {
        return At(ip);
      }
      r := Descend(ip, name, hs);
    }

    /** The turn of the n-th component of a path that has led to ip so far: the
        last turn, or one component further. */
    method Advance(ip: nat, name: D.Name, parent: bool, stop: bool,
                   ghost hs: seq<Handle>, ghost start: nat, ghost cs: seq<D.Name>, ghost n: nat) returns (r: Ref)
      requires Valid() && ip < NINODE && Kept(hs, kinds, nlinks) && Borrowed(hs, table[..], multiset{ip})
      requires Walked(fs.State(), kinds, start, cs, n, table[ip].inum) && n < |cs| && D.Key(name) == D.Key(cs[n])
      requires stop <==> parent && n + 1 == |cs|
      modifies this`kinds, table, fs
      ensures fs.State() == old(fs.State()) && kinds == old(kinds)
      ensures !r.Untyped? ==> Valid()
      ensures Takes(r, hs, table[..]) && (r.At? ==> r.k < NINODE)
      ensures if stop || !r.At? then Yields(r, table[..], Target(fs.State(), kinds, start, cs, parent))
              else Walked(fs.State(), kinds, start, cs, n + 1, table[r.k].inum)
    {
      TurnEnds(fs.State(), kinds, start, cs, n, parent, table[ip].inum, name);
      r := Hop(ip, name, stop, hs);
    }

    /** namex's loop. Out of components, done is false and the result is the
        inode reached. */
    method Follow(s: P.Path, parent: bool, name: array<Byte>, first: nat, ghost hs: seq<Handle>, ghost cs: seq<P.Path>)
      returns (r: Ref, done: bool)
      requires Valid() && name.Length == D.DIRSIZ && first < NINODE && P.Rest(s, 0, cs, 0)
      requires Kept(hs, kinds, nlinks) && Borrowed(hs, table[..], multiset{first})
      modifies this`kinds, table, fs, name
      ensures fs.State() == old(fs.State()) && kinds == old(kinds)
      ensures !r.Untyped? ==> Valid()
      ensures Takes(r, hs, table[..]) && (!done ==> r.At?)
      ensures Yields(r, table[..], Target(fs.State(), kinds, old(table[first]).inum, cs, done && parent))
      ensures !done && parent ==> cs == []
      ensures r.At? && done ==> parent && cs != [] && D.Key(name[..]) == D.Key(cs[|cs| - 1])
    {
      ghost var f := fs.State();
      ghost var start := table[first].inum;
      r := At(first);
      ghost var n := 0;
      var next := P.NextElem(s, 0, name, cs, n);
      while next >= 0
        invariant r.At? && r.k < NINODE && -1 <= next <= |s| && P.Ahead(s, next, cs, n, name[..])
        invariant Valid() && fs.State() == f && kinds == old(kinds) && Takes(r, hs, table[..])
        invariant Walked(f, kinds, start, cs, n, table[r.k].inum)
        invariant parent && n == |cs| ==> n == 0
        decreases |cs| - n
      {
        var stop := parent && next == |s|;
        r := Advance(r.k, name[..], parent, stop, hs, start, cs, n);
        if stop || !r.At? {
          return r, true;
        }
        n := n + 1;
        next := P.NextElem(s, next, name, cs, n);
      }
      done := false;
      WalkEnds(f, kinds, start, cs, table[r.k].inum);
    }

    /** The inode the path names, or its parent and the last name; the reference
        taken is the only change to the counts. */
    method Namex(s: P.Path, parent: bool, name: array<Byte>, cwd: nat) returns (r: Ref)
      requires Valid() && name.Length == D.DIRSIZ && cwd < NINODE && table[cwd].ref > 0
      modifies this`kinds, table, fs, name
      ensures fs.State() == old(fs.State()) && kinds == old(kinds)
      ensures !r.Untyped? ==> Valid()
      ensures Takes(r, old(table[..]), table[..])
      ensures var start := if s != [] && s[0] == P.SLASH then ROOTINO else old(table[cwd]).inum;
              Yields(r, table[..], Target(fs.State(), kinds, start, P.Comps(s), parent))
      ensures r.At? && parent ==> P.Comps(s) != [] && D.Key(name[..]) == D.Key(P.Comps(s)[|P.Comps(s)| - 1])
    {
      ghost var hs := table[..];
      var first := Start(s, cwd);
      if first < 0 {
        return Full;
      }
      P.WholePath(s);
      var done;
      r, done := Follow(s, parent, name, first, hs, P.Comps(s));
      if !done && parent {
        Return(r.k, hs, multiset{});
        r := None;
      }
    }
  }
}
