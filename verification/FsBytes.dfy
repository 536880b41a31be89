/** Files as byte sequences: what readi and writei do a block at a time. */
module FsBytes {
  import opened FsFormat
  import opened FsState
  import opened FsSteps

  /** src laid over c from off on; c grows if it must. */
  function Splice(c: seq<Byte>, off: nat, src: seq<Byte>): (r: seq<Byte>)
    requires off <= |c|
    ensures |r| == if |src| == 0 || off + |src| <= |c| then |c| else off + |src|
  {
    c[..off] + src + if off + |src| <= |c| then c[off + |src|..] else []
  }

  /** Part of a block replaced. */
  function Patch(b: Blk, s: nat, chunk: seq<Byte>): Blk
    requires s + |chunk| <= BSIZE
  {
    b[..s] + chunk + b[s + |chunk|..]
  }

  /** g is f with src written into file i at off, whatever its size. */
  ghost predicate Written(f: F, g: F, i: nat, off: nat, src: seq<Byte>) {
    && SameFilesBut(f, g, i)
    && forall x: nat :: ByteAt(g, i, x) == if off <= x < off + |src| then src[x - off] else ByteAt(f, i, x)
  }

  lemma WrittenNone(f: F, i: nat, off: nat)
    ensures Written(f, f, i, off, [])
  {
  }

  lemma WrittenSame(f: F, g: F, h: F, i: nat, off: nat, src: seq<Byte>)
    requires Written(f, g, i, off, src) && SameFiles(g, h)
    ensures Written(f, h, i, off, src)
  {
    forall x: nat
      ensures ByteAt(h, i, x) == ByteAt(g, i, x)
    {
    }
  }

  /** Offset o is byte s of block n. */
  predicate Spot(o: nat, n: nat, s: nat) {
    o == 512 * n + s && s < 512
  }

  lemma SpotOf(o: nat)
    ensures Spot(o, o / BSIZE, o % BSIZE)
  {
  }

  /** Offsets within one block. */
  lemma InBlock(o: nat, n: nat, s: nat, m: nat, x: nat)
    requires Spot(o, n, s) && s + m <= BSIZE
    ensures o <= x < o + m <==> x / BSIZE == n && s <= x % BSIZE < s + m
    ensures o <= x < o + m ==> x % BSIZE - s == x - o
  {
  }

  /** One block's worth more. */
  lemma WrittenStep(f: F, g: F, h: F, i: nat, off: nat, src: seq<Byte>, tot: nat, to: nat, o: nat, n: nat, s: nat, data: Blk)
    requires tot <= to <= |src| && o == off + tot && Spot(o, n, s) && s + (to - tot) <= BSIZE
    requires Written(f, g, i, off, src[..tot]) && SameSizes(g, h)
    requires data == Patch(Pic(g, i, n), s, src[tot..to])
    requires forall k: nat, x: nat :: Pic(h, k, x) == if k == i && x == n then data else Pic(g, k, x)
    ensures Written(f, h, i, off, src[..to])
  {
    var part := src[..to];
    forall x: nat
      ensures ByteAt(h, i, x) == if off <= x < off + |part| then part[x - off] else ByteAt(f, i, x)
    {
      InBlock(o, n, s, to - tot, x);
      assert ByteAt(g, i, x) == if off <= x < off + tot then src[..tot][x - off] else ByteAt(f, i, x);
      assert Pic(h, i, x / BSIZE) == if x / BSIZE == n then data else Pic(g, i, x / BSIZE);
      PatchAt(Pic(g, i, n), s, src[tot..to], x % BSIZE);
    }
  }

  lemma PatchAt(b: Blk, s: nat, chunk: seq<Byte>, y: nat)
    requires s + |chunk| <= BSIZE && y < BSIZE
    ensures Patch(b, s, chunk)[y] == if s <= y < s + |chunk| then chunk[y - s] else b[y]
  {
  }

  /** Inode i with another size. */
  function Resized(f: F, i: nat, sz: nat): F
    requires i in f.ino
  {
    F(f.sb, f.disk, f.ino[i := Inode(f.ino[i].addrs, sz)], f.role)
  }

  lemma ResizedSlots(f: F, i: nat, sz: nat)
    requires i in f.ino
    ensures forall k: nat, n: nat :: Slot(Resized(f, i, sz), k, n) == Slot(f, k, n)
    ensures forall k: nat :: HasInd(Resized(f, i, sz), k) == HasInd(f, k)
    ensures forall k: nat :: HasInd(f, k) ==> IndOf(Resized(f, i, sz), k) == IndOf(f, k)
  {
  }

  lemma ResizedKeeps(f: F, i: nat, sz: nat)
    requires Inv(f) && i in f.ino && sz <= MAXFILE * BSIZE
    ensures Inv(Resized(f, i, sz))
    ensures forall k: nat, n: nat :: Pic(Resized(f, i, sz), k, n) == Pic(f, k, n)
  {
    ResizedSlots(f, i, sz);
    BitsSame(f, Resized(f, i, sz));
    OwnersSame(f, Resized(f, i, sz));
  }

  /** Only file i differs, and it holds c now. */
  ghost predicate OnlyChanged(f: F, g: F, i: nat, c: seq<Byte>) {
    && g.ino.Keys == f.ino.Keys && i in g.ino && Contents(g, i) == c
    && forall k :: k in f.ino && k != i ==> Contents(g, k) == Contents(f, k)
  }

  /** writei's loop is done; h has the new size. */
  lemma WriteDone(f: F, g: F, h: F, i: nat, off: nat, src: seq<Byte>, sz: nat)
    requires i in f.ino && off <= f.ino[i].size && Written(f, g, i, off, src)
    requires sz == (if |src| == 0 || off + |src| <= f.ino[i].size then f.ino[i].size else off + |src|)
    requires h.ino.Keys == f.ino.Keys && h.ino[i].size == sz
    requires forall k :: k in f.ino && k != i ==> h.ino[k].size == f.ino[k].size
    requires forall k: nat, n: nat :: Pic(h, k, n) == Pic(g, k, n)
    ensures OnlyChanged(f, h, i, Splice(Contents(f, i), off, src))
  {
    WriteDoneAt(f, g, h, i, off, src, sz);
    forall k | k in f.ino && k != i
      ensures Contents(h, k) == Contents(f, k)
    {
      SameContents(f, h, k);
    }
  }

  lemma WriteDoneAt(f: F, g: F, h: F, i: nat, off: nat, src: seq<Byte>, sz: nat)
    requires i in f.ino && off <= f.ino[i].size && Written(f, g, i, off, src) && i in h.ino && h.ino[i].size == sz
    requires sz == (if |src| == 0 || off + |src| <= f.ino[i].size then f.ino[i].size else off + |src|)
    requires forall n: nat :: Pic(h, i, n) == Pic(g, i, n)
    ensures Contents(h, i) == Splice(Contents(f, i), off, src)
  {
    var c := Contents(f, i);
    var r := Splice(c, off, src);
    assert |r| == sz;
    forall x | 0 <= x < sz
      ensures Contents(h, i)[x] == r[x]
    {
      assert ByteAt(h, i, x) == ByteAt(g, i, x);
    }
  }

  /** readi has collected acc, the bytes of file i from off up to o. */
  ghost predicate Collected(f: F, i: nat, off: nat, o: nat, acc: seq<Byte>) {
    off <= o && |acc| == o - off && forall x :: 0 <= x < |acc| ==> acc[x] == ByteAt(f, i, off + x)
  }

  lemma CollectedStep(f: F, i: nat, off: nat, o: nat, n: nat, s: nat, m: nat, acc: seq<Byte>)
    requires Collected(f, i, off, o, acc) && Spot(o, n, s) && s + m <= BSIZE
    ensures Collected(f, i, off, o + m, acc + Pic(f, i, n)[s..s + m])
  {
    var part := Pic(f, i, n)[s..s + m];
    var all := acc + part;
    forall x | 0 <= x < |all|
      ensures all[x] == ByteAt(f, i, off + x)
    {
      InBlock(o, n, s, m, off + x);
    }
  }

  lemma CollectedAll(f: F, i: nat, off: nat, o: nat, acc: seq<Byte>)
    requires Collected(f, i, off, o, acc) && i in f.ino && o <= f.ino[i].size
    ensures acc == Contents(f, i)[off..o]
  {
  }

  // ---- Holes ----

  /** Every block below the size is allocated. */
  ghost predicate NoHoles(f: F, i: nat) {
    i in f.ino && forall n: nat :: n * BSIZE < f.ino[i].size ==> Slot(f, i, n) != 0
  }

  lemma SlotStays(f: F, g: F, i: nat, n: nat)
    requires NoHoles(f, i) && n * BSIZE < f.ino[i].size && SlotsKept(f, g)
    ensures Slot(g, i, n) != 0
  {
  }

  /** Offsets below the size lie in blocks below it. */
  lemma BlockOf(o: nat, n: nat, s: nat, size: nat)
    requires Spot(o, n, s) && o < size <= MAXFILE * BSIZE
    ensures n < MAXFILE && n * BSIZE < size
  {
  }

  lemma SlotPic(f: F, i: nat, n: nat)
    requires Inv(f) && Slot(f, i, n) != 0
    ensures Slot(f, i, n) < |f.disk| && Pic(f, i, n) == f.disk[Slot(f, i, n)]
  {
  }

  /** Blocks have been allocated for the bytes from lo up to hi. */
  ghost predicate Filled(f: F, i: nat, lo: nat, hi: nat) {
    forall x: nat :: lo <= x < hi ==> Slot(f, i, x / BSIZE) != 0
  }

  lemma FilledStep(f: F, g: F, i: nat, lo: nat, o: nat, n: nat, s: nat, m: nat)
    requires Filled(f, i, lo, o) && SlotsKept(f, g) && Slot(g, i, n) != 0 && Spot(o, n, s) && s + m <= BSIZE
    ensures Filled(g, i, lo, o + m)
  {
    forall x: nat | lo <= x < o + m
      ensures Slot(g, i, x / BSIZE) != 0
    {
      if x >= o {
        InBlock(o, n, s, m, x);
      }
    }
  }

  lemma FilledNoHoles(f: F, g: F, i: nat, off: nat, end: nat)
    requires NoHoles(f, i) && off <= f.ino[i].size && SlotsKept(f, g) && Filled(g, i, off, end)
    requires i in g.ino && g.ino[i].size <= (if end > f.ino[i].size then end else f.ino[i].size)
    ensures NoHoles(g, i)
  {
    forall n: nat | n * BSIZE < g.ino[i].size
      ensures Slot(g, i, n) != 0
    {
      if n * BSIZE >= f.ino[i].size {
        assert n * BSIZE / BSIZE == n;
      }
    }
  }

  /** h is f after a write: src spliced into file i, no other file changed, no
      block moved and no hole made. */
  ghost predicate WriteOk(f: F, h: F, i: nat, off: nat, src: seq<Byte>) {
    && i in f.ino && off <= f.ino[i].size
    && OnlyChanged(f, h, i, Splice(Contents(f, i), off, src))
    && (NoHoles(f, i) ==> NoHoles(h, i)) && SlotsKept(f, h)
  }

  /** The loop of writei is done in g: what the final size update makes of it. */
  lemma WriteEnds(f: F, g: F, h: F, i: nat, off: nat, src: seq<Byte>, end: nat)
    requires Inv(g) && i in f.ino && off <= f.ino[i].size && Written(f, g, i, off, src) && i in g.ino
    requires end == off + |src| && SlotsKept(f, g) && Filled(g, i, off, end) && end <= MAXFILE * BSIZE
    requires h == if |src| > 0 && end > g.ino[i].size then Resized(g, i, end) else g
    ensures Inv(h) && i in h.ino && WriteOk(f, h, i, off, src)
  {
    if |src| > 0 && end > g.ino[i].size {
      ResizedKeeps(g, i, end);
      ResizedSlots(g, i, end);
    }
    WriteDone(f, g, h, i, off, src, h.ino[i].size);
    if NoHoles(f, i) {
      FilledNoHoles(f, h, i, off, end);
    }
  }

  /** Whether the block at o is there, as far as NoHoles can tell. */
  lemma NoHoleAt(f: F, i: nat, n: nat)
    requires NoHoles(f, i) && n * BSIZE < f.ino[i].size
    ensures Slot(f, i, n) != 0
  {
  }
}
