/** The elementary changes behind balloc, bfree, bmap, itrunc and writei. */
module FsSteps {
  import opened Params
  import opened FsFormat
  import opened FsState

  /** No block that an inode holds moves. */
  ghost predicate SlotsKept(f: F, g: F) {
    forall i: nat, n: nat :: Slot(f, i, n) != 0 ==> Slot(g, i, n) == Slot(f, i, n)
  }

  // ---- Slots follow the inodes and the indirect blocks ----

  lemma SlotsSame(f: F, g: F)
    requires g.ino == f.ino && |g.disk| == |f.disk|
    requires forall i: nat :: HasInd(f, i) && IndOf(f, i) < |f.disk| ==> g.disk[IndOf(f, i)] == f.disk[IndOf(f, i)]
    ensures forall i: nat, n: nat :: Slot(g, i, n) == Slot(f, i, n)
    ensures forall i: nat :: HasInd(g, i) == HasInd(f, i)
  {
    forall i: nat, n: nat
      ensures Slot(g, i, n) == Slot(f, i, n)
    {
      if HasInd(f, i) && IndOf(f, i) < |f.disk| {
        assert g.disk[IndOf(f, i)] == f.disk[IndOf(f, i)];
      }
    }
  }

  // ---- Bitmap updates ----

  function FlipBit(disk: seq<Blk>, sb: Super, b: nat, on: bool): seq<Blk>
    requires BBlock(b, sb.bmapstart) < |disk|
  {
    disk[BBlock(b, sb.bmapstart) := WithBit(disk[BBlock(b, sb.bmapstart)], b, on)]
  }

  lemma FlipBits(f: F, g: F, b: nat, on: bool, r: Role)
    requires Sizes(f) && Bits(f) && b < f.sb.size && Sizes(g) && g.sb == f.sb
    requires BBlock(b, f.sb.bmapstart) < |f.disk|
    requires forall x: nat :: f.sb.bmapstart <= x <= f.sb.bmapstart + f.sb.size / BPB ==>
               g.disk[x] == FlipBit(f.disk, f.sb, b, on)[x]
    requires g.role == f.role[b := r] && (on <==> r != Free)
    ensures Bits(g)
  {
    forall c: nat | c < f.sb.size
      ensures BBlock(c, f.sb.bmapstart) < |g.disk| && (Bit(g, c) <==> g.role[c] != Free)
    {
      BBlockIn(f, c);
      assert Bit(f, c) <==> f.role[c] != Free;
      if c / BPB == b / BPB {
        BitInWith(f.disk[BBlock(b, f.sb.bmapstart)], b, on, c);
      }
    }
  }

  /** Bits() depends on the bitmap blocks and on which blocks are free. */
  lemma BitsSame(f: F, g: F)
    requires Sizes(f) && Bits(f) && Sizes(g) && g.sb == f.sb
    requires forall x: nat :: x < f.sb.size && f.role[x] == Meta ==> g.disk[x] == f.disk[x]
    requires forall x: nat :: x < f.sb.size ==> (g.role[x] == Free <==> f.role[x] == Free)
    ensures Bits(g)
  {
    forall c: nat | c < f.sb.size
      ensures BBlock(c, f.sb.bmapstart) < |g.disk| && (Bit(g, c) <==> g.role[c] != Free)
    {
      BBlockIn(f, c);
      assert Bit(f, c) <==> f.role[c] != Free;
    }
  }

  lemma OwnersSame(f: F, g: F)
    requires Sizes(f) && Owned(f) && Owners(f) && Sizes(g) && g.sb == f.sb
    requires forall x: nat :: x < f.sb.size && g.role[x] != f.role[x] ==>
               !(f.role[x].Data? || f.role[x].Ind? || g.role[x].Data? || g.role[x].Ind?)
    requires forall k: nat, x: nat :: Slot(g, k, x) == Slot(f, k, x)
    requires forall k: nat :: HasInd(g, k) == HasInd(f, k) && (HasInd(f, k) ==> IndOf(g, k) == IndOf(f, k))
    ensures Owned(g) && Owners(g)
  {
  }

  /** A block no inode owns changes, along with metadata: no inode notices. */
  lemma UnownedKeeps(f: F, g: F, b: nat, r: Role)
    requires Sizes(f) && Owned(f) && Owners(f) && Sizes(g) && g.sb == f.sb && g.ino == f.ino
    requires b < f.sb.size && f.role[b] in {Free, Loose} && r in {Free, Loose} && g.role == f.role[b := r]
    requires forall x: nat :: x < f.sb.size && x != b && f.role[x] != Meta ==> g.disk[x] == f.disk[x]
    ensures Owned(g) && Owners(g) && SameFiles(f, g)
    ensures forall i: nat, n: nat :: Slot(g, i, n) == Slot(f, i, n)
  {
    SlotsSame(f, g);
    OwnersSame(f, g);
    PicsSame(f, g);
  }

  lemma PicsSame(f: F, g: F)
    requires Sizes(f) && Owned(f) && |g.disk| == |f.disk|
    requires forall k: nat, x: nat :: Slot(g, k, x) == Slot(f, k, x)
    requires forall x: nat :: x < f.sb.size && f.role[x].Data? ==> g.disk[x] == f.disk[x]
    ensures forall k: nat, x: nat :: Pic(g, k, x) == Pic(f, k, x)
  {
  }

  // ---- balloc ----

  function Take(f: F, b: nat): F
    requires b < |f.disk| && b < |f.role| && BBlock(b, f.sb.bmapstart) < |f.disk|
  {
    F(f.sb, FlipBit(f.disk, f.sb, b, true)[b := ZeroBlk()], f.ino, f.role[b := Loose])
  }

  lemma TakeKeeps(f: F, b: nat)
    requires Inv(f) && b < f.sb.size && f.role[b] == Free && BBlock(b, f.sb.bmapstart) < |f.disk|
    ensures b != 0 && Inv(Take(f, b)) && SameFiles(f, Take(f, b))
    ensures forall i: nat, n: nat :: Slot(Take(f, b), i, n) == Slot(f, i, n)
  {
    var g := Take(f, b);
    BBlockIn(f, b);
    FlipBits(f, g, b, true, Loose);
    UnownedKeeps(f, g, b, Loose);
  }

  /** Allocating a block leaves the indirect blocks alone. */
  lemma IndKept(f: F, b: nat, i: nat)
    requires Inv(f) && b < f.sb.size && f.role[b] == Free && BBlock(b, f.sb.bmapstart) < |f.disk| && HasInd(f, i)
    ensures HasInd(Take(f, b), i) && IndOf(Take(f, b), i) == IndOf(f, i) < |f.disk|
    ensures Take(f, b).disk[IndOf(f, i)] == f.disk[IndOf(f, i)]
  {
    BBlockIn(f, b);
  }

  // ---- bfree ----

  function Drop(f: F, b: nat): F
    requires b < |f.disk| && b < |f.role| && BBlock(b, f.sb.bmapstart) < |f.disk|
  {
    F(f.sb, FlipBit(f.disk, f.sb, b, false), f.ino, f.role[b := Free])
  }

  lemma DropKeeps(f: F, b: nat)
    requires Inv(f) && 0 < b < f.sb.size && f.role[b] == Loose && BBlock(b, f.sb.bmapstart) < |f.disk|
    ensures Inv(Drop(f, b)) && SameFiles(f, Drop(f, b))
    ensures forall i: nat, n: nat :: Slot(Drop(f, b), i, n) == Slot(f, i, n)
  {
    var g := Drop(f, b);
    BBlockIn(f, b);
    FlipBits(f, g, b, false, Free);
    UnownedKeeps(f, g, b, Free);
  }

  // ---- Placing blocks ----

  function WithAddr(f: F, i: nat, n: nat, b: nat): map<nat, Inode>
    requires i in f.ino && n <= NDIRECT
  {
    f.ino[i := Inode(f.ino[i].addrs[n := b], f.ino[i].size)]
  }

  /** The slot that takes the block owns it now; the others own what they did. */
  lemma Placed(f: F, g: F, i: nat, n: nat, b: nat)
    requires Sizes(f) && Owned(f) && Owners(f) && Sizes(g) && g.sb == f.sb
    requires 0 < b < f.sb.size && f.role[b] == Loose && g.role == f.role[b := Data(i, n)] && Slot(f, i, n) == 0
    requires forall k: nat, x: nat :: Slot(g, k, x) == if k == i && x == n then b else Slot(f, k, x)
    requires forall k: nat :: HasInd(g, k) == HasInd(f, k) && (HasInd(f, k) ==> IndOf(g, k) == IndOf(f, k))
    ensures Owned(g) && Owners(g)
  {
  }

  /** A zeroed block reads as a missing one does. */
  lemma PlacedZero(f: F, g: F, i: nat, n: nat, b: nat)
    requires Sizes(f) && Owned(f) && Sizes(g) && g.sb == f.sb && 0 < b < f.sb.size && g.disk[b] == ZeroBlk()
    requires Slot(f, i, n) == 0
    requires forall k: nat, x: nat :: Slot(g, k, x) == if k == i && x == n then b else Slot(f, k, x)
    requires forall x: nat :: x < f.sb.size && f.role[x].Data? ==> g.disk[x] == f.disk[x]
    ensures forall k: nat, x: nat :: Pic(g, k, x) == Pic(f, k, x)
  {
  }

  /** Both together. */
  lemma PlacedKeeps(f: F, g: F, i: nat, n: nat, b: nat)
    requires Inv(f) && Sizes(g) && SameSizes(f, g) && Slot(f, i, n) == 0
    requires 0 < b < f.sb.size && f.role[b] == Loose && g.role == f.role[b := Data(i, n)] && g.disk[b] == ZeroBlk()
    requires forall k: nat, x: nat :: Slot(g, k, x) == if k == i && x == n then b else Slot(f, k, x)
    requires forall k: nat :: HasInd(g, k) == HasInd(f, k) && (HasInd(f, k) ==> IndOf(g, k) == IndOf(f, k))
    requires forall x: nat :: x < f.sb.size && (f.role[x].Data? || f.role[x] == Meta) ==> g.disk[x] == f.disk[x]
    ensures Inv(g) && SameFiles(f, g) && SlotsKept(f, g)
  {
    BitsSame(f, g);
    Placed(f, g, i, n, b);
    PlacedZero(f, g, i, n, b);
  }

  /** A zeroed block becomes direct block n of inode i. */
  function PlaceDirect(f: F, i: nat, n: nat, b: nat): F
    requires i in f.ino && n < NDIRECT && b < |f.role|
  {
    F(f.sb, f.disk, WithAddr(f, i, n, b), f.role[b := Data(i, n)])
  }

  lemma DirectSlots(f: F, g: F, i: nat, n: nat, b: nat)
    requires i in f.ino && n < NDIRECT && g.ino == WithAddr(f, i, n, b) && g.disk == f.disk
    ensures forall k: nat, x: nat :: Slot(g, k, x) == if k == i && x == n then b else Slot(f, k, x)
    ensures forall k: nat :: HasInd(g, k) == HasInd(f, k) && (HasInd(f, k) ==> IndOf(g, k) == IndOf(f, k))
  {
  }

  lemma PlaceDirectKeeps(f: F, i: nat, n: nat, b: nat)
    requires Inv(f) && i in f.ino && n < NDIRECT && f.ino[i].addrs[n] == 0
    requires 0 < b < f.sb.size && f.role[b] == Loose && f.disk[b] == ZeroBlk()
    ensures Inv(PlaceDirect(f, i, n, b)) && SameFiles(f, PlaceDirect(f, i, n, b))
    ensures SlotsKept(f, PlaceDirect(f, i, n, b))
    ensures Slot(PlaceDirect(f, i, n, b), i, n) == b
  {
    var g := PlaceDirect(f, i, n, b);
    DirectSlots(f, g, i, n, b);
    PlacedKeeps(f, g, i, n, b);
  }

  /** A zeroed block becomes the indirect block of inode i. */
  function PlaceInd(f: F, i: nat, b: nat): F
    requires i in f.ino && b < |f.role|
  {
    F(f.sb, f.disk, WithAddr(f, i, NDIRECT, b), f.role[b := Ind(i)])
  }

  lemma IndSlots(f: F, g: F, i: nat, b: nat)
    requires i in f.ino && !HasInd(f, i) && 0 < b < |f.disk| && f.disk[b] == ZeroBlk()
    requires g.ino == WithAddr(f, i, NDIRECT, b) && g.disk == f.disk
    ensures forall k: nat, n: nat :: Slot(g, k, n) == Slot(f, k, n)
    ensures forall k: nat :: HasInd(g, k) == (k == i || HasInd(f, k))
    ensures forall k: nat :: HasInd(g, k) ==> IndOf(g, k) == if k == i then b else IndOf(f, k)
  {
    forall k: nat, n: nat
      ensures Slot(g, k, n) == Slot(f, k, n)
    {
      if k == i {
        IndSlot(f, g, i, n, b);
      }
    }
  }

  lemma IndSlot(f: F, g: F, i: nat, n: nat, b: nat)
    requires i in f.ino && !HasInd(f, i) && 0 < b < |f.disk| && f.disk[b] == ZeroBlk()
    requires g.ino == WithAddr(f, i, NDIRECT, b) && g.disk == f.disk
    ensures Slot(g, i, n) == Slot(f, i, n)
  {
    assert g.ino[i].addrs[NDIRECT] == b;
    if NDIRECT <= n < MAXFILE {
      WordZero(n - NDIRECT);
      assert Slot(g, i, n) == Word(g.disk[b], n - NDIRECT);
    }
  }

  lemma IndPlaced(f: F, g: F, i: nat, b: nat)
    requires Sizes(f) && Owned(f) && Owners(f) && Sizes(g) && g.sb == f.sb && !HasInd(f, i)
    requires 0 < b < f.sb.size && f.role[b] == Loose && g.role == f.role[b := Ind(i)]
    requires forall k: nat, n: nat :: Slot(g, k, n) == Slot(f, k, n)
    requires forall k: nat :: HasInd(g, k) == (k == i || HasInd(f, k))
    requires forall k: nat :: HasInd(g, k) ==> IndOf(g, k) == if k == i then b else IndOf(f, k)
    ensures Owned(g) && Owners(g)
  {
  }

  lemma PlaceIndKeeps(f: F, i: nat, b: nat)
    requires Inv(f) && i in f.ino && !HasInd(f, i)
    requires 0 < b < f.sb.size && f.role[b] == Loose && f.disk[b] == ZeroBlk()
    ensures Inv(PlaceInd(f, i, b)) && SameFiles(f, PlaceInd(f, i, b))
    ensures SlotsKept(f, PlaceInd(f, i, b))
    ensures HasInd(PlaceInd(f, i, b), i) && IndOf(PlaceInd(f, i, b), i) == b
  {
    var g := PlaceInd(f, i, b);
    IndSlots(f, g, i, b);
    IndPlaced(f, g, i, b);
  }

  /** A zeroed block becomes entry j of the indirect block of inode i. */
  function PlaceEntry(f: F, i: nat, j: nat, b: nat): F
    requires HasInd(f, i) && IndOf(f, i) < |f.disk| && j < NINDIRECT && b < |f.role| && b < WORD
  {
    F(f.sb, f.disk[IndOf(f, i) := PutWord(f.disk[IndOf(f, i)], j, b)], f.ino, f.role[b := Data(i, NDIRECT + j)])
  }

  lemma EntrySlots(f: F, g: F, i: nat, j: nat, b: nat)
    requires Sizes(f) && Owned(f) && HasInd(f, i) && j < NINDIRECT && b < WORD
    requires g.ino == f.ino && g.disk == f.disk[IndOf(f, i) := PutWord(f.disk[IndOf(f, i)], j, b)]
    ensures forall k: nat, x: nat :: Slot(g, k, x) == if k == i && x == NDIRECT + j then b else Slot(f, k, x)
  {
    forall k: nat, x: nat
      ensures Slot(g, k, x) == if k == i && x == NDIRECT + j then b else Slot(f, k, x)
    {
      if k == i && NDIRECT <= x < MAXFILE {
        WordPut(f.disk[IndOf(f, i)], j, b, x - NDIRECT);
      } else if HasInd(f, k) {
        assert f.role[IndOf(f, k)] == Ind(k) && f.role[IndOf(f, i)] == Ind(i);
      }
    }
  }

  lemma PlaceEntryKeeps(f: F, i: nat, j: nat, b: nat)
    requires Inv(f) && HasInd(f, i) && j < NINDIRECT && Slot(f, i, NDIRECT + j) == 0
    requires 0 < b < f.sb.size && f.role[b] == Loose && f.disk[b] == ZeroBlk()
    ensures Inv(PlaceEntry(f, i, j, b)) && SameFiles(f, PlaceEntry(f, i, j, b))
    ensures SlotsKept(f, PlaceEntry(f, i, j, b))
    ensures Slot(PlaceEntry(f, i, j, b), i, NDIRECT + j) == b
  {
    var g := PlaceEntry(f, i, j, b);
    EntrySlots(f, g, i, j, b);
    assert f.role[IndOf(f, i)] == Ind(i);
    PlacedKeeps(f, g, i, NDIRECT + j, b);
  }

  // ---- writei ----

  /** New data for block n of inode i. */
  function Store(f: F, b: nat, data: Blk): F
    requires b < |f.disk|
  {
    F(f.sb, f.disk[b := data], f.ino, f.role)
  }

  lemma StoreKeeps(f: F, i: nat, n: nat, data: Blk)
    requires Inv(f) && Slot(f, i, n) != 0
    ensures Slot(f, i, n) < |f.disk|
    ensures var g := Store(f, Slot(f, i, n), data);
            && Inv(g) && SameSizes(f, g)
            && (forall k: nat, x: nat :: Slot(g, k, x) == Slot(f, k, x))
            && (forall k: nat, x: nat :: Pic(g, k, x) == if k == i && x == n then data else Pic(f, k, x))
  {
    var b := Slot(f, i, n);
    assert f.role[b] == Data(i, n);
    var g := Store(f, b, data);
    StoreInv(f, g, b);
    StorePics(f, g, i, n, b, data);
  }

  lemma StoreInv(f: F, g: F, b: nat)
    requires Inv(f) && b < f.sb.size && f.role[b].Data? && g.sb == f.sb && g.ino == f.ino && g.role == f.role
    requires |g.disk| == |f.disk| && forall x: nat :: x < |f.disk| && x != b ==> g.disk[x] == f.disk[x]
    ensures Inv(g) && forall k: nat, x: nat :: Slot(g, k, x) == Slot(f, k, x)
  {
    forall k: nat | HasInd(f, k)
      ensures IndOf(f, k) < |f.disk| && IndOf(f, k) != b
    {
      assert f.role[IndOf(f, k)] == Ind(k);
    }
    SlotsSame(f, g);
    BitsSame(f, g);
    OwnersSame(f, g);
  }

  lemma StorePics(f: F, g: F, i: nat, n: nat, b: nat, data: Blk)
    requires Inv(f) && b == Slot(f, i, n) && b != 0 && b < |f.disk| && g.disk == f.disk[b := data]
    requires forall k: nat, x: nat :: Slot(g, k, x) == Slot(f, k, x)
    ensures forall k: nat, x: nat :: Pic(g, k, x) == if k == i && x == n then data else Pic(f, k, x)
  {
    forall k: nat, x: nat
      ensures Pic(g, k, x) == if k == i && x == n then data else Pic(f, k, x)
    {
      OwnedOnce(f, i, n, k, x);
    }
  }

  /** A disk with all bits set, metadata first, and inodes without blocks. */
  function Full(sb: Super, nmeta: nat, inums: set<nat>): F {
    F(sb, seq(sb.size, _ => seq(512, _ => 255)), map i | i in inums :: Inode(seq(NDIRECT + 1, _ => 0), 0),
      seq(sb.size, b => if b < nmeta then Meta else Loose))
  }

  lemma FullKeeps(sb: Super, nmeta: nat, inums: set<nat>)
    requires SuperOk(sb) && sb.bmapstart + sb.size / BPB < nmeta <= sb.size
    ensures Inv(Full(sb, nmeta, inums))
  {
    var f := Full(sb, nmeta, inums);
    forall b: nat | b < f.sb.size
      ensures BBlock(b, f.sb.bmapstart) < |f.disk| && Bit(f, b)
    {
      BBlockIn(f, b);
      ByteOnes(b % 8);
    }
    forall i: nat, n: nat
      ensures Slot(f, i, n) == 0
    {
    }
  }
}
