/** Inodes, the blocks they own, and what their files hold. */
module FsState {
  import opened Params
  import opened FsFormat

  datatype Super = Super(size: nat, bmapstart: nat)

  /** The bitmap covers all blocks and lies inside the disk. */
  predicate SuperOk(sb: Super) {
    0 < sb.bmapstart && sb.bmapstart + sb.size / BPB < sb.size < WORD
  }

  /** Addresses of the direct blocks and, last, of the indirect block. */
  type Addrs = s: seq<nat> | |s| == NDIRECT + 1 witness seq(NDIRECT + 1, _ => 0)

  datatype Inode = Inode(addrs: Addrs, size: nat)

  /** The one use a block is put to. Loose: allocated and not yet placed. */
  datatype Role = Free | Meta | Loose | Ind(i: nat) | Data(i: nat, n: nat)

  datatype F = F(sb: Super, disk: seq<Blk>, ino: map<nat, Inode>, role: seq<Role>)

  // ---- Block maps ----

  /** The address of block n of inode i; 0 if there is none. */
  function Slot(f: F, i: nat, n: nat): nat {
    if i !in f.ino || n >= MAXFILE then 0
    else if n < NDIRECT then f.ino[i].addrs[n]
    else if f.ino[i].addrs[NDIRECT] == 0 || f.ino[i].addrs[NDIRECT] >= |f.disk| then 0
    else Word(f.disk[f.ino[i].addrs[NDIRECT]], n - NDIRECT)
  }

  /** Block n of inode i as a reader sees it. */
  function Pic(f: F, i: nat, n: nat): Blk {
    if Slot(f, i, n) == 0 || Slot(f, i, n) >= |f.disk| then ZeroBlk() else f.disk[Slot(f, i, n)]
  }

  predicate HasInd(f: F, i: nat) {
    i in f.ino && f.ino[i].addrs[NDIRECT] != 0
  }

  function IndOf(f: F, i: nat): nat
    requires HasInd(f, i)
  {
    f.ino[i].addrs[NDIRECT]
  }

  // ---- The invariant ----

  ghost predicate Sizes(f: F) {
    && SuperOk(f.sb) && |f.disk| == |f.role| == f.sb.size && f.role[0] == Meta
    && (forall b :: f.sb.bmapstart <= b <= f.sb.bmapstart + f.sb.size / BPB ==> f.role[b] == Meta)
    && (forall i :: i in f.ino ==> f.ino[i].size <= MAXFILE * BSIZE)
  }

  predicate Bit(f: F, b: nat)
    requires BBlock(b, f.sb.bmapstart) < |f.disk|
  {
    BitIn(f.disk[BBlock(b, f.sb.bmapstart)], b)
  }

  lemma BBlockIn(f: F, b: nat)
    requires Sizes(f) && b < f.sb.size
    ensures f.sb.bmapstart <= BBlock(b, f.sb.bmapstart) <= f.sb.bmapstart + f.sb.size / BPB < |f.disk|
    ensures f.role[BBlock(b, f.sb.bmapstart)] == Meta
  {
  }

  /** The bitmap has exactly the blocks in use. */
  ghost predicate Bits(f: F)
    requires Sizes(f)
  {
    forall b: nat :: b < f.sb.size ==>
      BBlock(b, f.sb.bmapstart) < |f.disk| && (Bit(f, b) <==> f.role[b] != Free)
  }

  /** Every address an inode holds is of a block in that very use ... */
  ghost predicate Owned(f: F)
    requires Sizes(f)
  {
    && (forall i: nat, n: nat :: Slot(f, i, n) != 0 ==> Slot(f, i, n) < f.sb.size && f.role[Slot(f, i, n)] == Data(i, n))
    && (forall i: nat :: HasInd(f, i) ==> IndOf(f, i) < f.sb.size && f.role[IndOf(f, i)] == Ind(i))
  }

  /** ... and the other way round. */
  ghost predicate Owners(f: F)
    requires Sizes(f)
  {
    forall b: nat :: b < f.sb.size ==>
      && (f.role[b].Data? ==> Slot(f, f.role[b].i, f.role[b].n) == b)
      && (f.role[b].Ind? ==> HasInd(f, f.role[b].i) && IndOf(f, f.role[b].i) == b)
  }

  ghost predicate Inv(f: F) {
    Sizes(f) && Bits(f) && Owned(f) && Owners(f)
  }

  /** No block is allocated and unplaced: what holds between operations. */
  ghost predicate NoLoose(f: F) {
    forall b: nat :: b < |f.role| ==> f.role[b] != Loose
  }

  ghost predicate Whole(f: F) {
    Inv(f) && NoLoose(f)
  }

  ghost predicate NoFree(f: F) {
    forall b: nat :: b < |f.role| ==> f.role[b] != Free
  }

  // ---- Contents ----

  /** Byte off of file i, zero where no block has been allocated. */
  function ByteAt(f: F, i: nat, off: nat): Byte {
    Pic(f, i, off / BSIZE)[off % BSIZE]
  }

  function Contents(f: F, i: nat): (r: seq<Byte>)
    requires i in f.ino
    ensures |r| == f.ino[i].size && forall off :: 0 <= off < |r| ==> r[off] == ByteAt(f, i, off)
  {
    seq(f.ino[i].size, off requires 0 <= off < f.ino[i].size => ByteAt(f, i, off))
  }

  ghost predicate SameSizes(f: F, g: F) {
    g.sb == f.sb && g.ino.Keys == f.ino.Keys && forall i :: i in f.ino ==> g.ino[i].size == f.ino[i].size
  }

  /** No file differs: same sizes, same blocks to read. */
  ghost predicate SameFiles(f: F, g: F) {
    SameSizes(f, g) && forall i: nat, n: nat :: Pic(g, i, n) == Pic(f, i, n)
  }

  ghost predicate SameFilesBut(f: F, g: F, k: nat) {
    SameSizes(f, g) && forall i: nat, n: nat :: i != k ==> Pic(g, i, n) == Pic(f, i, n)
  }

  lemma SameContents(f: F, g: F, i: nat)
    requires i in f.ino && i in g.ino && g.ino[i].size == f.ino[i].size
    requires forall n: nat :: Pic(g, i, n) == Pic(f, i, n)
    ensures Contents(g, i) == Contents(f, i)
  {
  }

  /** Between operations a bit is set exactly for metadata and for blocks that
      some inode owns. */
  lemma BitsAreOwners(f: F, b: nat)
    requires Whole(f) && b < f.sb.size && b != 0 && BBlock(b, f.sb.bmapstart) < |f.disk|
    ensures Bit(f, b) <==>
              || f.role[b] == Meta
              || (exists i: nat, n: nat :: Slot(f, i, n) == b)
              || (exists i: nat :: HasInd(f, i) && IndOf(f, i) == b)
  {
    if f.role[b].Data? {
      assert Slot(f, f.role[b].i, f.role[b].n) == b;
    }
    if f.role[b].Ind? {
      assert HasInd(f, f.role[b].i) && IndOf(f, f.role[b].i) == b;
    }
  }

  /** No block is in two places. */
  lemma OwnedOnce(f: F, i: nat, n: nat, k: nat, x: nat)
    requires Inv(f) && Slot(f, i, n) != 0
    ensures Slot(f, i, n) == Slot(f, k, x) ==> i == k && n == x
    ensures HasInd(f, k) ==> Slot(f, i, n) != IndOf(f, k)
  {
    if Slot(f, i, n) == Slot(f, k, x) {
      assert f.role[Slot(f, i, n)] == Data(i, n) && f.role[Slot(f, k, x)] == Data(k, x);
    }
  }
}
