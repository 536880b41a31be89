/** dirlookup and dirlink over readi and writei. */
module Directory {
  import opened FsFormat
  import opened FsState
  import opened FsBytes
  import opened FileSystem
  import D = DirFormat

  /** An entry found at byte offset 16 * slot. */
  datatype Found = Entry(inum: nat, slot: nat) | Missing

  datatype Link = Linked | Exists | LinkPanic

  /** Inode i is a directory's: whole entries, no holes, no name twice. */
  ghost predicate IsDir(f: F, i: nat) {
    i in f.ino && NoHoles(f, i) && f.ino[i].size % D.DSIZE == 0 && D.Unique(D.Entries(Contents(f, i)))
  }

  ghost function Dir(f: F, i: nat): seq<D.Dirent>
    requires i in f.ino
  {
    D.Entries(Contents(f, i))
  }

  lemma SizeBound(fs: Fs, i: nat)
    requires fs.Valid() && i in fs.inodes
    ensures fs.inodes[i].size <= MAXFILE * BSIZE
  {
  }

  /** One entry, read through readi. */
  method ReadEntry(fs: Fs, i: nat, k: nat) returns (d: D.Dirent)
    requires fs.Valid() && IsDir(fs.State(), i) && k < |Dir(fs.State(), i)|
    modifies fs
    ensures fs.Valid() && fs.State() == old(fs.State()) && d == Dir(old(fs.State()), i)[k]
  {
    SizeBound(fs, i);
    ghost var c := Contents(fs.State(), i);
    assert 16 * k + 16 <= |c|;
    var r := fs.Readi(i, 16 * k, 16);
    d := D.Decode(r.value);
  }

  /** A used entry with the given name. */
  method IsNamed(d: D.Dirent, name: D.Name) returns (r: bool)
    ensures r <==> D.Names(d, D.Key(name))
  {
    r := false;
    if d.inum != 0 {
      var cmp := D.Strncmp(name, d.name, D.DIRSIZ);
      r := cmp == 0;
    }
  }

  /** dirlookup's loop: the entry with the name, or the number of entries. */
  method FindName(fs: Fs, i: nat, name: D.Name) returns (k: nat, inum: nat)
    requires fs.Valid() && IsDir(fs.State(), i)
    modifies fs
    ensures fs.Valid() && fs.State() == old(fs.State()) && D.Unnamed(Dir(fs.State(), i), D.Key(name), k)
    ensures k < |Dir(fs.State(), i)| ==> D.Names(Dir(fs.State(), i)[k], D.Key(name)) && inum == Dir(fs.State(), i)[k].inum
  {
    ghost var f := fs.State();
    ghost var es := Dir(f, i);
    ghost var key := D.Key(name);
    var n := fs.inodes[i].size / 16;
    k, inum := 0, 0;
    while k < n
      invariant 0 <= k <= n && fs.Valid() && fs.State() == f && D.Unnamed(es, key, k)
    {
      var d := ReadEntry(fs, i, k);
      var same := IsNamed(d, name);
      if same {
        return k, d.inum;
      }
      D.UnnamedNext(es, key, k);
      k := k + 1;
    }
  }

  lemma FoundInMap(es: seq<D.Dirent>, key: D.Name, k: nat)
    requires D.Unique(es) && D.Unnamed(es, key, k) && (k < |es| ==> D.Names(es[k], key))
    ensures k == |es| <==> key !in D.MapOf(es)
    ensures k < |es| ==> D.MapOf(es)[key] == es[k].inum && es[k].inum != 0
  {
    D.MapHas(es, key);
    if k < |es| {
      D.MapAt(es, k);
    }
  }

  /** The inode number and place of a name. */
  method Dirlookup(fs: Fs, i: nat, name: D.Name) returns (r: Found)
    requires fs.Valid() && IsDir(fs.State(), i)
    modifies fs
    ensures fs.Valid() && fs.State() == old(fs.State())
    ensures r.Missing? <==> D.Key(name) !in D.MapOf(Dir(fs.State(), i))
    ensures r.Entry? ==> D.MapOf(Dir(fs.State(), i))[D.Key(name)] == r.inum && r.inum != 0
    ensures r.Entry? ==> r.slot < |Dir(fs.State(), i)| && D.Names(Dir(fs.State(), i)[r.slot], D.Key(name))
  {
    ghost var es := Dir(fs.State(), i);
    var k, inum := FindName(fs, i, name);
    FoundInMap(es, D.Key(name), k);
    var n := fs.inodes[i].size / 16;
    r := if k < n then Entry(inum, k) else Missing;
  }

  /** The first free entry, or the end. */
  method FreeSlot(fs: Fs, i: nat) returns (k: nat)
    requires fs.Valid() && IsDir(fs.State(), i)
    modifies fs
    ensures fs.Valid() && fs.State() == old(fs.State())
    ensures k <= |Dir(fs.State(), i)| && (k < |Dir(fs.State(), i)| ==> Dir(fs.State(), i)[k].inum == 0)
    ensures forall j :: 0 <= j < k ==> Dir(fs.State(), i)[j].inum != 0
  {
    ghost var f := fs.State();
    var n := fs.inodes[i].size / 16;
    k := 0;
    while k < n
      invariant 0 <= k <= n && fs.Valid() && fs.State() == f
      invariant forall j :: 0 <= j < k ==> Dir(f, i)[j].inum != 0
    {
      var d := ReadEntry(fs, i, k);
      if d.inum == 0 {
        break;
      }
      k := k + 1;
    }
  }

  /** The new contents of the directory. */
  lemma LinkContents(c: seq<Byte>, e: seq<Byte>, k: nat, d: D.Dirent)
    requires |c| % D.DSIZE == 0 && 16 * k <= |c| && D.Fits(d) && e == Splice(c, 16 * k, D.Encode(d))
    ensures |e| % D.DSIZE == 0
    ensures D.Entries(e) == D.Entries(c)[..k] + [d] + (if k < |D.Entries(c)| then D.Entries(c)[k + 1..] else [])
  {
    D.EntrySplice(c, k, d);
  }

  /** Slot k of es is the first that is free, or the end if none is. */
  ghost predicate FirstFree(es: seq<D.Dirent>, k: nat) {
    && k <= |es| && (k < |es| ==> es[k].inum == 0)
    && forall j :: 0 <= j < k ==> es[j].inum != 0
  }

  /** Slot k holds the name and the number; every other entry is as in es. */
  ghost predicate Entered(es: seq<D.Dirent>, fs: seq<D.Dirent>, k: nat, name: D.Name, inum: nat) {
    && |fs| == (if k < |es| then |es| else |es| + 1) && k < |fs|
    && fs[k].inum == inum && D.Key(fs[k].name) == D.Key(name)
    && forall j :: 0 <= j < |es| && j != k ==> fs[j] == es[j]
  }

  lemma LinkEntered(f: F, g: F, i: nat, k: nat, d: D.Dirent, name: D.Name)
    requires IsDir(f, i) && D.Fits(d) && k <= |Dir(f, i)| && D.Key(d.name) == D.Key(name)
    requires i in g.ino && 16 * k <= f.ino[i].size && WriteOk(f, g, i, 16 * k, D.Encode(d))
    ensures Entered(Dir(f, i), Dir(g, i), k, name, d.inum) && g.ino[i].size == 16 * |Dir(g, i)|
  {
    LinkContents(Contents(f, i), Contents(g, i), k, d);
    SpliceEntered(Dir(f, i), Dir(g, i), k, d, name);
    assert g.ino[i].size == |Contents(g, i)|;
  }

  lemma SpliceEntered(es: seq<D.Dirent>, fs: seq<D.Dirent>, k: nat, d: D.Dirent, name: D.Name)
    requires k <= |es| && D.Key(d.name) == D.Key(name)
    requires fs == es[..k] + [d] + (if k < |es| then es[k + 1..] else [])
    ensures Entered(es, fs, k, name, d.inum)
  {
  }

  lemma LinkBytes(f: F, g: F, i: nat, k: nat, d: D.Dirent)
    requires IsDir(f, i) && D.Fits(d) && d.inum != 0
    requires k <= |Dir(f, i)| && (k < |Dir(f, i)| ==> Dir(f, i)[k].inum == 0)
    requires i in g.ino && 16 * k <= f.ino[i].size && WriteOk(f, g, i, 16 * k, D.Encode(d))
    requires D.Key(d.name) !in D.MapOf(Dir(f, i))
    ensures IsDir(g, i) && D.MapOf(Dir(g, i)) == D.MapOf(Dir(f, i))[D.Key(d.name) := d.inum]
  {
    LinkContents(Contents(f, i), Contents(g, i), k, d);
    D.LinkMap(Dir(f, i), Dir(g, i), k, d);
  }

  /** The other directories are as before. */
  lemma OtherDirs(f: F, g: F, i: nat, off: nat, src: seq<Byte>, k: nat)
    requires WriteOk(f, g, i, off, src) && k != i && IsDir(f, k)
    ensures IsDir(g, k)
  {
    assert Contents(g, k) == Contents(f, k);
    assert g.ino[k].size == |Contents(g, k)| == f.ino[k].size;
  }

  /** dirlink once the name is known to be new: the 16-bit field keeps inum
      modulo 2^16. */
  method AddEntry(fs: Fs, i: nat, name: D.Name, inum: nat) returns (r: Link, ghost slot: nat)
    requires fs.Valid() && IsDir(fs.State(), i) && D.Key(name) !in D.MapOf(Dir(fs.State(), i))
    modifies fs
    ensures fs.Valid() && !r.Exists? && FirstFree(Dir(old(fs.State()), i), slot)
    ensures (exists j :: 0 <= j < |Dir(old(fs.State()), i)| && Dir(old(fs.State()), i)[j].inum == 0) ==> r.Linked?
    ensures r.LinkPanic? ==> NoFree(fs.State()) || 16 * |Dir(old(fs.State()), i)| + 16 > MAXFILE * BSIZE
    ensures r.Linked? ==> i in fs.inodes && Entered(Dir(old(fs.State()), i), Dir(fs.State(), i), slot, name, inum % 0x1_0000)
    ensures r.Linked? ==> fs.inodes[i].size == 16 * |Dir(fs.State(), i)|
    ensures r.Linked? ==> i in fs.inodes && fs.inodes.Keys == old(fs.inodes).Keys
    ensures r.Linked? ==> forall k :: k in fs.inodes && k != i ==> Contents(fs.State(), k) == Contents(old(fs.State()), k)
    ensures r.Linked? ==> forall k: nat :: k != i && IsDir(old(fs.State()), k) ==> IsDir(fs.State(), k)
    ensures r.Linked? && inum % 0x1_0000 != 0 ==>
              && IsDir(fs.State(), i)
              && D.MapOf(Dir(fs.State(), i)) == D.MapOf(Dir(old(fs.State()), i))[D.Key(name) := inum % 0x1_0000]
  {
    var k := FreeSlot(fs, i);
    SizeBound(fs, i);
    var field := D.Strncpy(name, D.DIRSIZ);
    D.KeyOfPad(name);
    var d := D.Dirent(inum % 0x1_0000, field);
    ghost var f := fs.State();
    var w := fs.Writei(i, 16 * k, D.Encode(d));
    slot := k;
    if !w.Done? {
      r := LinkPanic;
      return;
    }
    LinkEntered(f, fs.State(), i, k, d, name);
    if d.inum != 0 {
      LinkBytes(f, fs.State(), i, k, d);
    }
    forall x: nat | x != i && IsDir(f, x)
      ensures IsDir(fs.State(), x)
    {
      OtherDirs(f, fs.State(), i, 16 * k, D.Encode(d), x);
    }
    r := Linked;
  }

  /** Enter (name, inum), unless the name is there. */
  method Dirlink(fs: Fs, i: nat, name: D.Name, inum: nat) returns (r: Link, ghost slot: nat)
    requires fs.Valid() && IsDir(fs.State(), i)
    modifies fs
    ensures fs.Valid()
    ensures r.Exists? <==> D.Key(name) in D.MapOf(Dir(old(fs.State()), i))
    ensures r.Exists? ==> fs.State() == old(fs.State())
    ensures !r.Exists? ==> FirstFree(Dir(old(fs.State()), i), slot)
    ensures !r.Exists? && (exists j :: 0 <= j < |Dir(old(fs.State()), i)| && Dir(old(fs.State()), i)[j].inum == 0) ==> r.Linked?
    ensures r.Linked? ==> i in fs.inodes && Entered(Dir(old(fs.State()), i), Dir(fs.State(), i), slot, name, inum % 0x1_0000)
    ensures r.Linked? ==> fs.inodes[i].size == 16 * |Dir(fs.State(), i)|
    ensures r.LinkPanic? ==> NoFree(fs.State()) || 16 * |Dir(old(fs.State()), i)| + 16 > MAXFILE * BSIZE
    ensures r.Linked? ==> i in fs.inodes && fs.inodes.Keys == old(fs.inodes).Keys
    ensures r.Linked? ==> forall k :: k in fs.inodes && k != i ==> Contents(fs.State(), k) == Contents(old(fs.State()), k)
    ensures r.Linked? && inum % 0x1_0000 != 0 ==>
              && IsDir(fs.State(), i)
              && D.MapOf(Dir(fs.State(), i)) == D.MapOf(Dir(old(fs.State()), i))[D.Key(name) := inum % 0x1_0000]
  {
    var there := Dirlookup(fs, i, name);
    if there.Entry? {
      r, slot := Exists, 0;
      return;
    }
    r, slot := AddEntry(fs, i, name, inum);
  }
}
