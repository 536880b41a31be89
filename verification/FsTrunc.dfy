/** What holds while itrunc gives back the blocks of an inode. */
module FsTrunc {
  import opened FsFormat
  import opened FsState
  import opened FsSteps
  import opened FsBytes

  /** The other inodes and their files are untouched. */
  ghost predicate OthersSame(f: F, g: F, i: nat) {
    && g.sb == f.sb && |g.role| == |f.role| && g.ino.Keys == f.ino.Keys
    && (forall k :: k in f.ino && k != i ==> g.ino[k] == f.ino[k])
    && (forall k: nat, n: nat :: k != i ==> Slot(g, k, n) == Slot(f, k, n) && Pic(g, k, n) == Pic(f, k, n))
  }

  predicate OwnedBy(r: Role, i: nat) {
    (r.Data? && r.i == i) || (r.Ind? && r.i == i)
  }

  /** The first d direct blocks are free again. */
  ghost predicate DirectGone(f: F, g: F, i: nat, d: nat) {
    && OthersSame(f, g, i) && i in f.ino
    && (forall n: nat :: n < MAXFILE ==> Slot(g, i, n) == if n < d then 0 else Slot(f, i, n))
    && g.ino[i].addrs[NDIRECT] == f.ino[i].addrs[NDIRECT]
    && (forall b :: 0 <= b < |f.role| ==>
          g.role[b] == if f.role[b].Data? && f.role[b].i == i && f.role[b].n < d then Free else f.role[b])
  }

  /** The direct blocks and the first j indirect ones are free again; the inode
      is taken to hold no address any more, the rest of its blocks to be loose. */
  ghost predicate IndirectGone(f: F, g: F, i: nat, j: nat) {
    && OthersSame(f, g, i) && i in f.ino && !HasInd(g, i)
    && (forall n: nat :: Slot(g, i, n) == 0)
    && (forall b :: 0 <= b < |f.role| ==>
          g.role[b] == if !OwnedBy(f.role[b], i) then f.role[b]
                       else if f.role[b].Data? && f.role[b].n < NDIRECT + j then Free else Loose)
  }

  /** Every block of inode i is free, no other block or file has changed. */
  ghost predicate Truncated(f: F, g: F, i: nat) {
    && OthersSame(f, g, i) && i in f.ino && g.ino[i].size == 0 && !HasInd(g, i)
    && (forall n: nat :: Slot(g, i, n) == 0)
    && (forall b :: 0 <= b < |f.role| ==> g.role[b] == if OwnedBy(f.role[b], i) then Free else f.role[b])
  }

  lemma OthersTrans(f: F, g: F, h: F, i: nat)
    requires OthersSame(f, g, i) && OthersSame(g, h, i)
    ensures OthersSame(f, h, i)
  {
  }

  // ---- Direct blocks ----

  /** Inode i no longer holds direct block n. */
  function Unplace(f: F, i: nat, n: nat): F
    requires i in f.ino && n < NDIRECT && f.ino[i].addrs[n] < |f.role|
  {
    F(f.sb, f.disk, WithAddr(f, i, n, 0), f.role[f.ino[i].addrs[n] := Loose])
  }

  lemma UnplaceKeeps(f: F, g: F, i: nat, n: nat, b: nat)
    requires Inv(f) && i in f.ino && n < NDIRECT && b == f.ino[i].addrs[n] && b != 0 && b < |f.role|
    requires g == Unplace(f, i, n)
    ensures Inv(g) && 0 < b < f.sb.size && g.role == f.role[b := Loose] && f.role[b] == Data(i, n)
    ensures OthersSame(f, g, i) && g.ino[i].addrs[NDIRECT] == f.ino[i].addrs[NDIRECT]
    ensures forall x: nat :: Slot(g, i, x) == if x == n then 0 else Slot(f, i, x)
  {
    assert Slot(f, i, n) == b;
    assert f.role[b] == Data(i, n);
    DirectSlots(f, g, i, n, 0);
    Unplaced(f, g, i, n, b);
  }

  lemma Unplaced(f: F, g: F, i: nat, n: nat, b: nat)
    requires Inv(f) && Sizes(g) && g.sb == f.sb && g.disk == f.disk && b < f.sb.size && f.role[b] == Data(i, n)
    requires g.role == f.role[b := Loose] && Slot(f, i, n) == b
    requires forall k: nat, x: nat :: Slot(g, k, x) == if k == i && x == n then 0 else Slot(f, k, x)
    requires forall k: nat :: HasInd(g, k) == HasInd(f, k) && (HasInd(f, k) ==> IndOf(g, k) == IndOf(f, k))
    ensures Inv(g)
  {
  }

  lemma DropOthers(f: F, b: nat, i: nat)
    requires Inv(f) && 0 < b < f.sb.size && f.role[b] == Loose && BBlock(b, f.sb.bmapstart) < |f.disk|
    ensures Inv(Drop(f, b)) && OthersSame(f, Drop(f, b), i)
    ensures forall k: nat, n: nat :: Slot(Drop(f, b), k, n) == Slot(f, k, n)
  {
    DropKeeps(f, b);
  }

  /** Direct block d goes: bfree, then the address. */
  lemma DirectStep(f: F, g: F, i: nat, d: nat, b: nat)
    requires Inv(f) && Inv(g) && DirectGone(f, g, i, d) && d < NDIRECT && i in g.ino
    requires b == g.ino[i].addrs[d] && b != 0
    ensures 0 < b < g.sb.size && BBlock(b, g.sb.bmapstart) < |g.disk| && Bit(g, b)
    ensures var h := F(g.sb, FlipBit(g.disk, g.sb, b, false), WithAddr(g, i, d, 0), g.role[b := Free]);
            Inv(h) && DirectGone(f, h, i, d + 1)
  {
    assert Slot(g, i, d) == b;
    BBlockIn(g, b);
    var u := Unplace(g, i, d);
    UnplaceKeeps(g, u, i, d, b);
    DropOthers(u, b, i);
    var h := Drop(u, b);
    OthersTrans(g, u, h, i);
    OthersTrans(f, g, h, i);
    DirectRoles(f, g, h, i, d, b);
  }

  lemma DirectRoles(f: F, g: F, h: F, i: nat, d: nat, b: nat)
    requires Inv(f) && DirectGone(f, g, i, d) && |h.role| == |f.role| && d < NDIRECT
    requires 0 < b < |f.role| && Slot(g, i, d) == b && h.role == g.role[b := Free]
    ensures forall x :: 0 <= x < |f.role| ==>
              h.role[x] == if f.role[x].Data? && f.role[x].i == i && f.role[x].n < d + 1 then Free else f.role[x]
  {
    assert Slot(f, i, d) == b && f.role[b] == Data(i, d);
    forall x | 0 <= x < |f.role| && f.role[x] == Data(i, d)
      ensures x == b
    {
      assert Slot(f, i, d) == x;
    }
  }

  /** An empty slot owns nothing. */
  lemma NoOwner(f: F, i: nat, n: nat)
    requires Inv(f) && Slot(f, i, n) == 0
    ensures forall x: nat :: x < |f.role| ==> f.role[x] != Data(i, n)
  {
    assert f.role[0] == Meta;
    forall x: nat | x < |f.role|
      ensures f.role[x] != Data(i, n)
    {
      assert f.role[x].Data? ==> Slot(f, f.role[x].i, f.role[x].n) == x;
    }
  }

  lemma DirectSkip(f: F, g: F, i: nat, d: nat)
    requires Inv(f) && DirectGone(f, g, i, d) && d < NDIRECT && g.ino[i].addrs[d] == 0
    ensures DirectGone(f, g, i, d + 1)
  {
    assert Slot(g, i, d) == 0 && Slot(f, i, d) == 0;
    NoOwner(f, i, d);
  }

  // ---- Indirect blocks ----

  /** Inode i gives up its indirect block and everything in it. */
  function Detach(f: F, i: nat): (g: F)
    requires i in f.ino
    ensures |g.role| == |f.role| && g.sb == f.sb && g.disk == f.disk && g.ino == WithAddr(f, i, NDIRECT, 0)
    ensures forall b :: 0 <= b < |f.role| ==>
              g.role[b] == if OwnedBy(f.role[b], i) && (f.role[b].Data? ==> f.role[b].n >= NDIRECT) then Loose else f.role[b]
  {
    F(f.sb, f.disk, WithAddr(f, i, NDIRECT, 0),
      seq(|f.role|, b requires 0 <= b < |f.role| =>
        if OwnedBy(f.role[b], i) && (f.role[b].Data? ==> f.role[b].n >= NDIRECT) then Loose else f.role[b]))
  }

  lemma DetachSlots(f: F, g: F, i: nat)
    requires i in f.ino && g.ino == WithAddr(f, i, NDIRECT, 0) && g.disk == f.disk
    ensures forall k: nat, n: nat :: Slot(g, k, n) == if k == i && n >= NDIRECT then 0 else Slot(f, k, n)
    ensures forall k: nat :: HasInd(g, k) == (k != i && HasInd(f, k)) && (HasInd(g, k) ==> IndOf(g, k) == IndOf(f, k))
  {
  }

  lemma DetachKeeps(f: F, i: nat)
    requires Inv(f) && i in f.ino
    ensures Inv(Detach(f, i)) && OthersSame(f, Detach(f, i), i)
  {
    var g := Detach(f, i);
    DetachSlots(f, g, i);
    Detached(f, g, i);
  }

  lemma Detached(f: F, g: F, i: nat)
    requires Inv(f) && Sizes(g) && g.sb == f.sb && g.disk == f.disk
    requires forall b :: 0 <= b < |f.role| ==>
               g.role[b] == if OwnedBy(f.role[b], i) && (f.role[b].Data? ==> f.role[b].n >= NDIRECT) then Loose else f.role[b]
    requires forall k: nat, n: nat :: Slot(g, k, n) == if k == i && n >= NDIRECT then 0 else Slot(f, k, n)
    requires forall k: nat :: HasInd(g, k) == (k != i && HasInd(f, k)) && (HasInd(g, k) ==> IndOf(g, k) == IndOf(f, k))
    ensures Inv(g)
  {
  }

  lemma IndirectStart(f: F, g: F, i: nat)
    requires Inv(f) && Inv(g) && DirectGone(f, g, i, NDIRECT)
    ensures Inv(Detach(g, i)) && IndirectGone(f, Detach(g, i), i, 0)
  {
    DetachKeeps(g, i);
    DetachSlots(g, Detach(g, i), i);
    OthersTrans(f, g, Detach(g, i), i);
  }

  lemma IndirectStep(f: F, g: F, i: nat, j: nat, b: nat)
    requires Inv(f) && Inv(g) && IndirectGone(f, g, i, j) && j < NINDIRECT
    requires b == Slot(f, i, NDIRECT + j) && b != 0
    ensures 0 < b < g.sb.size && BBlock(b, g.sb.bmapstart) < |g.disk| && Bit(g, b)
    ensures Inv(Drop(g, b)) && IndirectGone(f, Drop(g, b), i, j + 1)
  {
    assert f.role[b] == Data(i, NDIRECT + j);
    BBlockIn(g, b);
    DropOthers(g, b, i);
    OthersTrans(f, g, Drop(g, b), i);
    forall x | 0 <= x < |f.role| && f.role[x] == Data(i, NDIRECT + j)
      ensures x == b
    {
      assert Slot(f, i, NDIRECT + j) == x;
    }
  }

  lemma IndirectSkip(f: F, g: F, i: nat, j: nat)
    requires Inv(f) && IndirectGone(f, g, i, j) && j < NINDIRECT && Slot(f, i, NDIRECT + j) == 0
    ensures IndirectGone(f, g, i, j + 1)
  {
    NoOwner(f, i, NDIRECT + j);
  }

  /** The words read from the indirect block are the addresses it held. */
  lemma WordsAre(f: F, g: F, i: nat, blk: Blk)
    requires Inv(g) && DirectGone(f, g, i, NDIRECT) && HasInd(g, i) && IndOf(g, i) < |g.disk| && blk == g.disk[IndOf(g, i)]
    ensures forall j: nat :: j < NINDIRECT ==> Word(blk, j) == Slot(f, i, NDIRECT + j)
  {
    forall j: nat | j < NINDIRECT
      ensures Word(blk, j) == Slot(f, i, NDIRECT + j)
    {
      assert Slot(g, i, NDIRECT + j) == Slot(f, i, NDIRECT + j);
    }
  }

  // ---- The end ----

  lemma EmptiedKeeps(f: F, i: nat)
    requires Inv(f) && i in f.ino
    ensures Inv(Resized(f, i, 0)) && OthersSame(f, Resized(f, i, 0), i)
    ensures forall n: nat :: Slot(Resized(f, i, 0), i, n) == Slot(f, i, n)
  {
    ResizedSlots(f, i, 0);
    ResizedKeeps(f, i, 0);
  }

  /** There was no indirect block. */
  lemma DirectOnly(f: F, g: F, i: nat)
    requires Inv(f) && Inv(g) && DirectGone(f, g, i, NDIRECT) && g.ino[i].addrs[NDIRECT] == 0
    ensures Inv(Resized(g, i, 0)) && Truncated(f, Resized(g, i, 0), i)
  {
    EmptiedKeeps(g, i);
    OthersTrans(f, g, Resized(g, i, 0), i);
    forall x | 0 <= x < |f.role| && OwnedBy(f.role[x], i)
      ensures f.role[x].Data? && f.role[x].n < NDIRECT
    {
      if f.role[x].Data? {
        assert Slot(f, i, f.role[x].n) == x;
        assert f.role[0] == Meta;
      }
    }
  }

  /** The indirect block itself goes last. */
  lemma IndirectEnd(f: F, g: F, i: nat, b: nat)
    requires Inv(f) && Inv(g) && IndirectGone(f, g, i, NINDIRECT) && HasInd(f, i) && b == IndOf(f, i)
    ensures 0 < b < g.sb.size && BBlock(b, g.sb.bmapstart) < |g.disk| && Bit(g, b)
    ensures Inv(Resized(Drop(g, b), i, 0)) && Truncated(f, Resized(Drop(g, b), i, 0), i)
  {
    assert f.role[b] == Ind(i);
    BBlockIn(g, b);
    DropOthers(g, b, i);
    var d := Drop(g, b);
    EmptiedKeeps(d, i);
    OthersTrans(f, g, d, i);
    OthersTrans(f, d, Resized(d, i, 0), i);
    forall x | 0 <= x < |f.role| && OwnedBy(f.role[x], i)
      ensures x == b || (f.role[x].Data? && f.role[x].n < NDIRECT + NINDIRECT)
    {
      if f.role[x].Data? {
        assert Slot(f, i, f.role[x].n) == x;
        assert f.role[0] == Meta;
      }
    }
  }
}
