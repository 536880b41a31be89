/** The file system's block and byte layers: fs.c's allocator, block map,
    truncation and byte-level reads and writes, over buffers seen as the blocks
    they cache. */
module FileSystem {
  import opened Params
  import opened FsFormat
  import opened FsState
  import opened FsSteps
  import opened FsBytes
  import opened FsTrunc

  /** Bad is a return of -1; Panic is balloc's panic for want of blocks. */
  datatype Result<T> = Done(value: T) | Bad | Panic

  class Fs {
    const sb: Super
    var disk: seq<Blk>
    var inodes: map<nat, Inode>
    ghost var role: seq<Role>

    ghost function State(): F
      reads this
    {
      F(sb, disk, inodes, role)
    }

    ghost predicate Valid()
      reads this
    {
      Whole(State())
    }

    /** An empty file system: bits are set for the first nmeta blocks only. */
    constructor (sb: Super, nmeta: nat, inums: set<nat>)
      requires SuperOk(sb) && sb.bmapstart + sb.size / BPB < nmeta <= sb.size
      ensures Valid() && this.sb == sb && inodes.Keys == inums
      ensures forall b :: 0 <= b < sb.size ==> role[b] == if b < nmeta then Meta else Free
    {
      var f := Full(sb, nmeta, inums);
      this.sb := sb;
      disk := f.disk;
      inodes := f.ino;
      role := f.role;
      new;
      FullKeeps(sb, nmeta, inums);
      FreeData(nmeta);
    }

    method FreeData(nmeta: nat)
      requires Inv(State()) && sb.bmapstart + sb.size / BPB < nmeta <= sb.size
      requires forall x :: 0 <= x < sb.size ==> role[x] == if x < nmeta then Meta else Loose
      modifies this`disk, this`role
      ensures Inv(State()) && forall x :: 0 <= x < sb.size ==> role[x] == if x < nmeta then Meta else Free
    {
      var b := nmeta;
      while b < sb.size
        invariant nmeta <= b <= sb.size && Inv(State())
        invariant forall x :: 0 <= x < sb.size ==> role[x] == if x < nmeta then Meta else if x < b then Free else Loose
      {
        ghost var f := State();
        BBlockIn(f, b);
        assert Bit(f, b);
        DropKeeps(f, b);
        var ok := Bfree(b);
        role := role[b := Free];
        assert State() == Drop(f, b);
        b := b + 1;
      }
    }

    // ---- balloc and bfree ----

    method InUse(base: nat, bi: nat) returns (used: bool)
      requires Valid() && Aligned(base) && bi < BPB && base + bi < sb.size
      ensures used <==> role[base + bi] != Free
    {
      var b := base + bi;
      BBlockIn(State(), b);
      BitPlace(base, bi);
      assert Bit(State(), b) <==> role[b] != Free;
      var bp := disk[BBlock(base, sb.bmapstart)];
      used := Test(bp[bi / 8], bi % 8);
    }

    /** Set the bit, write the bitmap block, zero the data block. */
    method MarkUsed(base: nat, bi: nat, b: nat)
      requires Valid() && Aligned(base) && bi < BPB && b == base + bi && b < sb.size && BBlock(b, sb.bmapstart) < |disk|
      modifies this`disk, this`role
      ensures State() == Take(old(State()), b)
    {
      BitPlace(base, bi);
      var bp := disk[BBlock(base, sb.bmapstart)];
      ByteFit(bp[bi / 8], bi % 8);
      disk := disk[BBlock(base, sb.bmapstart) := bp[bi / 8 := Set(bp[bi / 8], bi % 8)]];
      disk := disk[b := ZeroBlk()];
      role := role[b := Loose];
    }

    /** The first free block of one bitmap block. */
    method ScanBlock(base: nat) returns (bi: nat)
      requires Valid() && Aligned(base) && base < sb.size
      ensures bi <= BPB
      ensures forall x: nat :: base <= x < base + bi && x < sb.size ==> role[x] != Free
      ensures bi < BPB && base + bi < sb.size ==> role[base + bi] == Free
    {
      bi := 0;
      while bi < BPB && base + bi < sb.size
        invariant 0 <= bi <= BPB
        invariant forall x: nat :: base <= x < base + bi && x < sb.size ==> role[x] != Free
      {
        var used := InUse(base, bi);
        if !used {
          return;
        }
        bi := bi + 1;
      }
    }

    /** The first free block, zeroed and marked in use; 0 if there is none. */
    method Balloc() returns (b: nat)
      requires Valid()
      modifies this`disk, this`role
      ensures b == 0 ==> State() == old(State()) && NoFree(State())
      ensures b != 0 ==> b < sb.size && old(role)[b] == Free && forall x: nat :: x < b ==> old(role)[x] != Free
      ensures b != 0 ==> BBlock(b, sb.bmapstart) < |old(disk)| && State() == Take(old(State()), b)
    {
      var base := 0;
      while base < sb.size
        invariant Aligned(base) && unchanged(this)
        invariant forall x: nat :: x < base && x < sb.size ==> role[x] != Free
      {
        var bi := ScanBlock(base);
        b := base + bi;
        if bi < BPB && b < sb.size {
          BBlockIn(State(), b);
          TakeKeeps(State(), b);
          MarkUsed(base, bi, b);
          return;
        }
        NextAligned(base);
        base := base + BPB;
      }
      b := 0;
    }

    /** Clear the bit of a block; false stands for the "freeing free block" panic. */
    method Bfree(b: nat) returns (ok: bool)
      requires b < sb.size && BBlock(b, sb.bmapstart) < |disk|
      modifies this`disk
      ensures ok <==> Bit(old(State()), b)
      ensures disk == if ok then FlipBit(old(disk), sb, b, false) else old(disk)
    {
      var bp := disk[BBlock(b, sb.bmapstart)];
      var bi := b % BPB;
      BitPlace(b / BPB * BPB, bi);
      ok := Test(bp[bi / 8], bi % 8);
      if ok {
        ByteFit(bp[bi / 8], bi % 8);
        disk := disk[BBlock(b, sb.bmapstart) := bp[bi / 8 := Clear(bp[bi / 8], bi % 8)]];
      }
    }

    // ---- bmap ----

    method SetAddr(i: nat, n: nat, b: nat)
      requires i in inodes && n <= NDIRECT
      modifies this`inodes
      ensures inodes == WithAddr(old(State()), i, n, b)
    {
      inodes := inodes[i := Inode(inodes[i].addrs[n := b], inodes[i].size)];
    }

    method BmapDirect(i: nat, n: nat) returns (addr: nat)
      requires Valid() && i in inodes && n < NDIRECT
      modifies this
      ensures Valid() && i in inodes && SameFiles(old(State()), State()) && SlotsKept(old(State()), State())
      ensures addr != 0 ==> Slot(State(), i, n) == addr
      ensures Slot(old(State()), i, n) != 0 ==> State() == old(State()) && addr == Slot(State(), i, n)
      ensures addr == 0 ==> NoFree(State())
    {
      addr := inodes[i].addrs[n];
      if addr == 0 {
        addr := Balloc();
        if addr != 0 {
          TakeKeeps(old(State()), addr);
          PlaceDirectKeeps(State(), i, n, addr);
          ghost var f := State();
          SetAddr(i, n, addr);
          role := role[addr := Data(i, n)];
          assert State() == PlaceDirect(f, i, n, addr);
        }
      }
    }

    /** The indirect block, allocated if necessary. */
    method BmapIndirect(i: nat) returns (addr: nat)
      requires Valid() && i in inodes
      modifies this
      ensures Valid() && i in inodes && SameFiles(old(State()), State()) && SlotsKept(old(State()), State())
      ensures addr != 0 ==> HasInd(State(), i) && IndOf(State(), i) == addr
      ensures HasInd(old(State()), i) ==> State() == old(State()) && addr != 0
      ensures addr == 0 ==> NoFree(State())
    {
      addr := inodes[i].addrs[NDIRECT];
      if addr == 0 {
        addr := Balloc();
        if addr != 0 {
          TakeKeeps(old(State()), addr);
          PlaceIndKeeps(State(), i, addr);
          ghost var f := State();
          SetAddr(i, NDIRECT, addr);
          role := role[addr := Ind(i)];
          assert State() == PlaceInd(f, i, addr);
        }
      }
    }

    method BmapEntry(i: nat, j: nat, ind: nat) returns (addr: nat)
      requires Valid() && HasInd(State(), i) && IndOf(State(), i) == ind && j < NINDIRECT
      modifies this
      ensures Valid() && i in inodes && SameFiles(old(State()), State()) && SlotsKept(old(State()), State())
      ensures addr != 0 ==> Slot(State(), i, NDIRECT + j) == addr
      ensures Slot(old(State()), i, NDIRECT + j) != 0 ==> State() == old(State()) && addr == Slot(State(), i, NDIRECT + j)
      ensures addr == 0 ==> NoFree(State())
    {
      var bp := disk[ind];
      addr := Word(bp, j);
      if addr == 0 {
        addr := Balloc();
        if addr != 0 {
          TakeKeeps(old(State()), addr);
          ghost var f := State();
          IndKept(old(State()), addr, i);
          PlaceEntryKeeps(f, i, j, addr);
          disk := disk[ind := PutWord(bp, j, addr)];
          role := role[addr := Data(i, NDIRECT + j)];
          assert State() == PlaceEntry(f, i, j, addr);
        }
      }
    }

    /** The address of block n of inode i, allocating it if necessary; 0 stands
        for balloc's panic. Nobody's files change. */
    method Bmap(i: nat, n: nat) returns (addr: nat)
      requires Valid() && i in inodes && n < MAXFILE
      modifies this
      ensures Valid() && i in inodes && SameFiles(old(State()), State()) && SlotsKept(old(State()), State())
      ensures addr != 0 ==> Slot(State(), i, n) == addr
      ensures Slot(old(State()), i, n) != 0 ==> State() == old(State()) && addr == Slot(State(), i, n)
      ensures addr == 0 ==> NoFree(State())
    {
      if n < NDIRECT {
        addr := BmapDirect(i, n);
        return;
      }
      var ind := BmapIndirect(i);
      if ind == 0 {
        return 0;
      }
      var j := n - NDIRECT;
      assert NDIRECT + j == n;
      addr := BmapEntry(i, j, ind);
    }

    // ---- itrunc ----

    method TruncDirect(i: nat)
      requires Valid() && i in inodes
      modifies this
      ensures Valid() && DirectGone(old(State()), State(), i, NDIRECT) && i in inodes
    {
      ghost var f := State();
      var d := 0;
      while d < NDIRECT
        invariant 0 <= d <= NDIRECT && Valid() && i in inodes && DirectGone(f, State(), i, d)
      {
        ghost var g := State();
        var b := inodes[i].addrs[d];
        if b != 0 {
          DirectStep(f, g, i, d, b);
          var ok := Bfree(b);
          assert ok;
          SetAddr(i, d, 0);
          role := role[b := Free];
          assert State() == F(g.sb, FlipBit(g.disk, g.sb, b, false), WithAddr(g, i, d, 0), g.role[b := Free]);
        } else {
          DirectSkip(f, g, i, d);
        }
        d := d + 1;
      }
    }

    /** The state in which inode i has let go of its indirect block. */
    ghost function LetGo(i: nat): F
      requires i in inodes
      reads this
    {
      F(sb, disk, WithAddr(State(), i, NDIRECT, 0), role)
    }

    method TruncIndirect(i: nat, blk: Blk, ghost f: F)
      requires i in inodes && Inv(f) && Inv(LetGo(i)) && IndirectGone(f, LetGo(i), i, 0)
      requires forall j: nat :: j < NINDIRECT ==> Word(blk, j) == Slot(f, i, NDIRECT + j)
      modifies this`disk, this`role
      ensures Inv(LetGo(i)) && IndirectGone(f, LetGo(i), i, NINDIRECT)
    {
      var j := 0;
      while j < NINDIRECT
        invariant 0 <= j <= NINDIRECT && Inv(LetGo(i)) && IndirectGone(f, LetGo(i), i, j)
      {
        ghost var g := LetGo(i);
        var b := Word(blk, j);
        assert b == Slot(f, i, NDIRECT + j);
        if b != 0 {
          IndirectStep(f, g, i, j, b);
          var ok := Bfree(b);
          assert ok;
          role := role[b := Free];
          assert LetGo(i) == Drop(g, b);
        } else {
          IndirectSkip(f, g, i, j);
        }
        j := j + 1;
      }
    }

    method FreeIndirect(i: nat, ind: nat, ghost f: F)
      requires Valid() && Inv(f) && i in inodes && DirectGone(f, State(), i, NDIRECT)
      requires HasInd(State(), i) && ind == IndOf(State(), i)
      modifies this
      ensures i in inodes && Inv(Resized(State(), i, 0)) && Truncated(f, Resized(State(), i, 0), i)
    {
      ghost var g := State();
      IndirectStart(f, g, i);
      var blk := disk[ind];
      WordsAre(f, g, i, blk);
      role := Detach(g, i).role;
      assert LetGo(i) == Detach(g, i);
      TruncIndirect(i, blk, f);
      ghost var h := LetGo(i);
      IndirectEnd(f, h, i, ind);
      var ok := Bfree(ind);
      assert ok;
      SetAddr(i, NDIRECT, 0);
      role := role[ind := Free];
      assert State() == Drop(h, ind);
    }

    /** Give back every block of inode i, and no other. */
    method Itrunc(i: nat)
      requires Valid() && i in inodes
      modifies this
      ensures Valid() && Truncated(old(State()), State(), i)
    {
      ghost var f := State();
      TruncDirect(i);
      var ind := inodes[i].addrs[NDIRECT];
      if ind != 0 {
        FreeIndirect(i, ind, f);
      } else {
        DirectOnly(f, State(), i);
      }
      SetSize(i, 0);
    }

    method SetSize(i: nat, sz: nat)
      requires i in inodes
      modifies this`inodes
      ensures State() == Resized(old(State()), i, sz)
    {
      inodes := inodes[i := Inode(inodes[i].addrs, sz)];
    }

    // ---- readi and writei ----

    /** The next piece of a transfer: block, offset in it, length. */
    static method Piece(o: nat, end: nat) returns (n: nat, s: nat, m: nat)
      requires o < end
      ensures Spot(o, n, s) && 0 < m && s + m <= BSIZE && o + m <= end
    {
      SpotOf(o);
      n, s := o / BSIZE, o % BSIZE;
      m := if end - o < BSIZE - s then end - o else BSIZE - s;
    }

    method Readi(i: nat, off: nat, n: nat) returns (r: Result<seq<Byte>>)
      requires Valid() && i in inodes && off < WORD && n < WORD
      modifies this
      ensures Valid() && i in inodes && SameFiles(old(State()), State())
      ensures r.Bad? <==> off > old(inodes)[i].size || off + n >= WORD
      ensures r.Done? ==>
                var c := Contents(old(State()), i);
                r.value == c[off..if off + n > |c| then |c| else off + n]
      ensures NoHoles(old(State()), i) ==> State() == old(State()) && !r.Panic?
      ensures r.Panic? ==> NoFree(State())
    {
      var size := inodes[i].size;
      var wraps := Wraps(off, n);
      if off > size || wraps {
        return Bad;
      }
      var end := if off + n > size then size else off + n;
      r := ReadBlocks(i, off, end);
    }

    /** readi's loop. */
    method ReadBlocks(i: nat, off: nat, end: nat) returns (r: Result<seq<Byte>>)
      requires Valid() && i in inodes && off <= end <= inodes[i].size
      modifies this
      ensures Valid() && i in inodes && SameFiles(old(State()), State()) && !r.Bad?
      ensures r.Done? ==> r.value == Contents(old(State()), i)[off..end]
      ensures NoHoles(old(State()), i) ==> State() == old(State()) && !r.Panic?
      ensures r.Panic? ==> NoFree(State())
    {
      var o, acc := off, [];
      ghost var f := State();
      while o < end
        invariant off <= o <= end && Valid() && i in inodes && SameFiles(f, State())
        invariant Collected(f, i, off, o, acc)
        invariant NoHoles(f, i) ==> State() == f
        decreases end - o
      {
        var n, s, m := Piece(o, end);
        var b := ReadBlock(i, n, s, o, f);
        if b == 0 {
          return Panic;
        }
        CollectedStep(f, i, off, o, n, s, m, acc);
        acc := acc + disk[b][s..s + m];
        o := o + m;
      }
      CollectedAll(f, i, off, o, acc);
      r := Done(acc);
    }

    method ReadBlock(i: nat, n: nat, s: nat, o: nat, ghost f: F) returns (b: nat)
      requires Valid() && i in inodes && SameFiles(f, State()) && i in f.ino && o < f.ino[i].size && Spot(o, n, s)
      requires NoHoles(f, i) ==> State() == f
      modifies this
      ensures Valid() && i in inodes && SameFiles(f, State())
      ensures b != 0 ==> b < |disk| && disk[b] == Pic(f, i, n)
      ensures NoHoles(f, i) ==> State() == f && b != 0
      ensures b == 0 ==> NoFree(State())
    {
      BlockOf(o, n, s, f.ino[i].size);
      if NoHoles(f, i) {
        NoHoleAt(f, i, n);
      }
      b := Bmap(i, n);
      if b != 0 {
        SlotPic(State(), i, n);
      }
    }

    /** One round of writei's loop: the part of src from tot up to `to` goes into
        one block. */
    method WriteBlock(i: nat, off: nat, src: seq<Byte>, tot: nat, to: nat, o: nat, n: nat, s: nat, ghost f: F)
      returns (ok: bool)
      requires Valid() && i in inodes && tot <= to <= |src| && o == off + tot && Spot(o, n, s) && s + (to - tot) <= BSIZE
      requires n < MAXFILE && Written(f, State(), i, off, src[..tot])
      modifies this
      ensures Valid() && i in inodes && SlotsKept(old(State()), State())
      ensures ok ==> Written(f, State(), i, off, src[..to]) && Slot(State(), i, n) != 0
      ensures !ok ==> NoFree(State())
      ensures Slot(old(State()), i, n) != 0 ==> ok
    {
      var b := Bmap(i, n);
      if b == 0 {
        return false;
      }
      ghost var g := State();
      WrittenSame(f, old(State()), g, i, off, src[..tot]);
      SlotPic(g, i, n);
      var data := Patch(disk[b], s, src[tot..to]);
      StoreKeeps(g, i, n, data);
      WrittenStep(f, g, Store(g, b, data), i, off, src, tot, to, o, n, s, data);
      disk := disk[b := data];
      assert State() == Store(g, b, data);
      ok := true;
    }

    /** writei's loop. */
    method WriteBlocks(i: nat, start: nat, src: seq<Byte>) returns (ok: bool)
      requires Valid() && i in inodes && start + |src| <= MAXFILE * BSIZE
      modifies this
      ensures Valid() && i in inodes
      ensures ok ==> Written(old(State()), State(), i, start, src) && SlotsKept(old(State()), State())
      ensures ok ==> Filled(State(), i, start, start + |src|)
      ensures !ok ==> NoFree(State())
      ensures NoHoles(old(State()), i) && start + |src| <= old(inodes)[i].size ==> ok
    {
      ghost var f := State();
      WrittenNone(f, i, start);
      assert src[..0] == [];
      var n := |src|;
      var tot, off := 0, start;
      while tot < n
        invariant 0 <= tot <= n && off == start + tot && Valid() && i in inodes
        invariant Written(f, State(), i, start, src[..tot]) && SlotsKept(f, State())
        invariant Filled(State(), i, start, off)
        decreases n - tot
      {
        ghost var g := State();
        var k, s, m := Piece(off, start + n);
        var to := tot + m;
        BlockOf(off, k, s, MAXFILE * BSIZE);
        if NoHoles(f, i) && start + n <= f.ino[i].size {
          BlockOf(off, k, s, f.ino[i].size);
          SlotStays(f, g, i, k);
        }
        ok := WriteBlock(i, start, src, tot, to, off, k, s, f);
        if !ok {
          return;
        }
        FilledStep(g, State(), i, start, off, k, s, m);
        tot, off := to, off + m;
      }
      assert src[..tot] == src;
      ok := true;
    }

    /** Whether off + n wraps around as a uint. */
    static method Wraps(off: nat, n: nat) returns (w: bool)
      requires off < WORD && n < WORD
      ensures w <==> off + n >= WORD
    {
      w := (off + n) % WORD < off;
    }

    method UpdateSize(i: nat, off: nat, src: seq<Byte>, ghost f: F)
      requires Valid() && i in inodes && i in f.ino && off <= f.ino[i].size && Written(f, State(), i, off, src)
      requires SlotsKept(f, State()) && Filled(State(), i, off, off + |src|) && off + |src| <= MAXFILE * BSIZE
      modifies this`inodes
      ensures Valid() && i in inodes && WriteOk(f, State(), i, off, src)
    {
      var end := off + |src|;
      ghost var h := if |src| > 0 && end > inodes[i].size then Resized(State(), i, end) else State();
      WriteEnds(f, State(), h, i, off, src, end);
      if |src| > 0 && end > inodes[i].size {
        SetSize(i, end);
      }
      assert State() == h;
    }

    /** Splice src into file i at off. */
    method Writei(i: nat, off: nat, src: seq<Byte>) returns (r: Result<nat>)
      requires Valid() && i in inodes && off < WORD && |src| < WORD
      modifies this
      ensures Valid() && i in inodes
      ensures r.Bad? <==> off > old(inodes)[i].size || off + |src| >= WORD || off + |src| > MAXFILE * BSIZE
      ensures r.Bad? ==> State() == old(State())
      ensures r.Done? ==> r.value == |src| && WriteOk(old(State()), State(), i, off, src)
      ensures r.Panic? ==> NoFree(State())
      ensures NoHoles(old(State()), i) && off + |src| <= old(inodes)[i].size ==> !r.Panic?
    {
      var n := |src|;
      var wraps := Wraps(off, n);
      if off > inodes[i].size || wraps {
        return Bad;
      }
      if off + n > MAXFILE * BSIZE {
        return Bad;
      }
      var ok := WriteBlocks(i, off, src);
      if !ok {
        return Panic;
      }
      UpdateSize(i, off, src, old(State()));
      r := Done(n);
    }
  }
}
