/** The block cache of bio.c over the disk of memide.c. */
module BufState {
  import opened BufRing

  type Block = seq<int>

  datatype Buf = Buf(dev: nat, blockno: nat, valid: bool, dirty: bool, refcnt: nat, data: Block)

  datatype C = C(bufs: seq<Buf>, disk: seq<Block>)

  /** Buffer b holds the contents of block n of disk 1. */
  predicate Caches(s: C, b: nat, n: nat) {
    b < |s.bufs| && s.bufs[b].valid && s.bufs[b].dev == 1 && s.bufs[b].blockno == n
  }

  /** What a reader of block n is to get: the cached contents, or the disk's. */
  ghost function Latest(s: C, n: nat): Block
    requires n < |s.disk|
  {
    if exists b: nat :: Caches(s, b, n) then var b: nat :| Caches(s, b, n); s.bufs[b].data else s.disk[n]
  }

  /** At most one buffer for a block; only the buffers of a new cache, which all
      stand for block 0 of device 0, are alike. */
  ghost predicate Unique(s: C) {
    forall b: nat, c: nat ::
      b < |s.bufs| && c < |s.bufs| && b != c && s.bufs[b].dev == s.bufs[c].dev && s.bufs[b].blockno == s.bufs[c].blockno ==>
        s.bufs[b].dev == 0 && s.bufs[b].blockno == 0
  }

  /** What the buffer holds is on disk too, or marked for it. */
  predicate Clean(s: C, b: nat)
    requires b < |s.bufs|
  {
    var r := s.bufs[b];
    r.valid && !r.dirty ==> r.blockno < |s.disk| && r.data == s.disk[r.blockno]
  }

  ghost predicate Sane(s: C) {
    && |s.bufs| == NBUF && Unique(s)
    && (forall b: nat :: b < NBUF ==> (s.bufs[b].valid ==> s.bufs[b].dev == 1 && s.bufs[b].blockno < |s.disk|))
    && (forall b: nat :: b < NBUF && s.bufs[b].dirty ==> s.bufs[b].valid)
    && (forall b: nat :: b < NBUF && s.bufs[b].refcnt == 0 ==> Clean(s, b))
  }

  lemma LatestIs(s: C, b: nat, n: nat)
    requires Sane(s) && n < |s.disk| && Caches(s, b, n)
    ensures Latest(s, n) == s.bufs[b].data
  {
    forall c: nat | Caches(s, c, n)
      ensures c == b
    {
    }
  }

  lemma LatestUncached(s: C, n: nat)
    requires n < |s.disk| && forall b: nat :: !Caches(s, b, n)
    ensures Latest(s, n) == s.disk[n]
  {
  }

  /** Every block reads the same in s and t. */
  ghost predicate SameBlocks(s: C, t: C) {
    |t.disk| == |s.disk| && forall n: nat :: n < |s.disk| ==> Latest(t, n) == Latest(s, n)
  }

  ghost predicate SameBlocksBut(s: C, t: C, k: nat) {
    |t.disk| == |s.disk| && forall n: nat :: n < |s.disk| && n != k ==> Latest(t, n) == Latest(s, n)
  }

  // ---- bget ----

  function WithRefs(r: Buf, refcnt: nat): Buf {
    Buf(r.dev, r.blockno, r.valid, r.dirty, refcnt, r.data)
  }

  function SetRefs(s: C, b: nat, refcnt: nat): C
    requires b < |s.bufs|
  {
    C(s.bufs[b := WithRefs(s.bufs[b], refcnt)], s.disk)
  }

  lemma SetRefsSane(s: C, b: nat, refcnt: nat)
    requires Sane(s) && b < NBUF && (refcnt == 0 ==> Clean(s, b))
    ensures Sane(SetRefs(s, b, refcnt))
  {
  }

  lemma SetRefsKeeps(s: C, b: nat, refcnt: nat)
    requires Sane(s) && b < NBUF && (refcnt == 0 ==> Clean(s, b))
    ensures Sane(SetRefs(s, b, refcnt)) && SameBlocks(s, SetRefs(s, b, refcnt))
  {
    var t := SetRefs(s, b, refcnt);
    SetRefsSane(s, b, refcnt);
    forall n: nat | n < |s.disk|
      ensures Latest(t, n) == Latest(s, n)
    {
      LatestSame(s, t, n);
    }
  }

  lemma LatestSame(s: C, t: C, n: nat)
    requires Sane(s) && Sane(t) && n < |s.disk| && |t.disk| == |s.disk|
    requires forall c: nat :: Caches(s, c, n) <==> Caches(t, c, n)
    requires forall c: nat :: Caches(s, c, n) ==> t.bufs[c].data == s.bufs[c].data
    requires (forall c: nat :: !Caches(s, c, n)) ==> t.disk[n] == s.disk[n]
    ensures Latest(t, n) == Latest(s, n)
  {
    if c: nat :| Caches(s, c, n) {
      LatestIs(s, c, n);
      LatestIs(t, c, n);
    } else {
      LatestUncached(s, n);
      LatestUncached(t, n);
    }
  }

  /** A buffer is taken for another block. */
  function Recycle(s: C, b: nat, dev: nat, blockno: nat): C
    requires b < |s.bufs|
  {
    C(s.bufs[b := Buf(dev, blockno, false, false, 1, s.bufs[b].data)], s.disk)
  }

  lemma RecycleKeeps(s: C, b: nat, dev: nat, blockno: nat)
    requires Sane(s) && b < NBUF && s.bufs[b].refcnt == 0 && !s.bufs[b].dirty
    requires forall c: nat :: c < NBUF ==> !(s.bufs[c].dev == dev && s.bufs[c].blockno == blockno)
    ensures Sane(Recycle(s, b, dev, blockno)) && SameBlocks(s, Recycle(s, b, dev, blockno))
  {
    var t := Recycle(s, b, dev, blockno);
    forall n: nat | n < |s.disk|
      ensures Latest(t, n) == Latest(s, n)
    {
      if Caches(s, b, n) {
        LatestIs(s, b, n);
        assert Clean(s, b);
        LatestUncached(t, n);
      } else {
        LatestSame(s, t, n);
      }
    }
  }

  // ---- iderw ----

  /** The disk's contents come into the buffer. */
  function Fetch(s: C, b: nat): C
    requires b < |s.bufs| && s.bufs[b].blockno < |s.disk|
  {
    var r := s.bufs[b];
    C(s.bufs[b := Buf(r.dev, r.blockno, true, r.dirty, r.refcnt, s.disk[r.blockno])], s.disk)
  }

  lemma FetchSane(s: C, b: nat)
    requires Sane(s) && b < NBUF && s.bufs[b].dev == 1 && s.bufs[b].blockno < |s.disk|
    ensures Sane(Fetch(s, b))
  {
  }

  lemma FetchKeeps(s: C, b: nat)
    requires Sane(s) && b < NBUF && !s.bufs[b].valid && s.bufs[b].dev == 1 && s.bufs[b].blockno < |s.disk|
    ensures Sane(Fetch(s, b)) && SameBlocks(s, Fetch(s, b)) && Caches(Fetch(s, b), b, s.bufs[b].blockno)
  {
    var t := Fetch(s, b);
    FetchSane(s, b);
    forall n: nat | n < |s.disk|
      ensures Latest(t, n) == Latest(s, n)
    {
      if n == s.bufs[b].blockno {
        assert forall c: nat :: !Caches(s, c, n);
        LatestUncached(s, n);
        LatestIs(t, b, n);
      } else {
        LatestSame(s, t, n);
      }
    }
  }

  /** The buffer's contents go to disk. */
  function Flush(s: C, b: nat): C
    requires b < |s.bufs| && s.bufs[b].blockno < |s.disk|
  {
    var r := s.bufs[b];
    C(s.bufs[b := Buf(r.dev, r.blockno, true, false, r.refcnt, r.data)], s.disk[r.blockno := r.data])
  }

  lemma FlushSane(s: C, b: nat)
    requires Sane(s) && b < NBUF && s.bufs[b].valid
    ensures Sane(Flush(s, b))
  {
  }

  lemma FlushKeeps(s: C, b: nat)
    requires Sane(s) && b < NBUF && s.bufs[b].valid
    ensures s.bufs[b].blockno < |s.disk| && Sane(Flush(s, b)) && SameBlocks(s, Flush(s, b)) && Clean(Flush(s, b), b)
  {
    var t := Flush(s, b);
    FlushSane(s, b);
    assert Caches(s, b, s.bufs[b].blockno);
    forall n: nat | n < |s.disk|
      ensures Latest(t, n) == Latest(s, n)
    {
      LatestSame(s, t, n);
    }
  }

  // ---- The holder's changes ----

  function SetData(s: C, b: nat, data: Block, dirty: bool): C
    requires b < |s.bufs|
  {
    var r := s.bufs[b];
    C(s.bufs[b := Buf(r.dev, r.blockno, r.valid, dirty, r.refcnt, data)], s.disk)
  }

  lemma SetDataKeeps(s: C, b: nat, data: Block, dirty: bool)
    requires Sane(s) && b < NBUF && s.bufs[b].valid && s.bufs[b].refcnt > 0
    ensures Sane(SetData(s, b, data, dirty)) && SameBlocksBut(s, SetData(s, b, data, dirty), s.bufs[b].blockno)
    ensures Latest(SetData(s, b, data, dirty), s.bufs[b].blockno) == data
  {
    var t := SetData(s, b, data, dirty);
    LatestIs(t, b, s.bufs[b].blockno);
    forall n: nat | n < |s.disk| && n != s.bufs[b].blockno
      ensures Latest(t, n) == Latest(s, n)
    {
      LatestSame(s, t, n);
    }
  }

  // ---- Users that write or log what they change ----

  /** No buffer but b holds changes that are neither written nor marked. */
  ghost predicate CleanBut(s: C, b: nat) {
    forall c: nat :: c < |s.bufs| && c != b ==> Clean(s, c)
  }

  /** Every buffer has as many references as before. */
  ghost predicate SameRefs(s: C, t: C) {
    |t.bufs| == |s.bufs| && forall c: nat :: c < |s.bufs| ==> t.bufs[c].refcnt == s.bufs[c].refcnt
  }

  ghost predicate AllClean(s: C) {
    forall c: nat :: c < |s.bufs| ==> Clean(s, c)
  }

  /** One buffer changes, and the disk at most where that buffer belongs. */
  lemma OthersClean(s: C, t: C, b: nat)
    requires Sane(s) && CleanBut(s, b) && b < NBUF && |t.disk| == |s.disk|
    requires |t.bufs| == NBUF && t.bufs == s.bufs[b := t.bufs[b]]
    requires || t.disk == s.disk
             || (var n := s.bufs[b].blockno; s.bufs[b].valid && n < |s.disk| && t.disk == s.disk[n := t.disk[n]])
    ensures CleanBut(t, b)
  {
    forall c: nat | c < NBUF && c != b
      ensures Clean(t, c)
    {
      assert Clean(s, c) && t.bufs[c] == s.bufs[c];
    }
  }

  /** Every block as a reader would get it. */
  ghost function Contents(s: C): (d: seq<Block>)
    ensures |d| == |s.disk| && forall n: nat :: n < |s.disk| ==> d[n] == Latest(s, n)
  {
    seq(|s.disk|, n requires 0 <= n < |s.disk| => Latest(s, n))
  }

  lemma SameContents(s: C, t: C)
    requires SameBlocks(s, t)
    ensures Contents(t) == Contents(s)
  {
    assert forall n: nat :: n < |s.disk| ==> Contents(t)[n] == Contents(s)[n];
  }

  datatype Op = Load(n: nat) | Store(n: nat, data: Block, logged: bool)

  /** What the operations leave on a disk without a cache, and what they read. */
  function Replay(d: seq<Block>, ops: seq<Op>): (r: seq<Block>)
    requires forall i :: 0 <= i < |ops| ==> ops[i].n < |d|
    ensures |r| == |d|
  {
    if ops == [] then d
    else
      var e, op := Replay(d, ops[..|ops| - 1]), ops[|ops| - 1];
      if op.Store? then e[op.n := op.data] else e
  }

  function Answers(d: seq<Block>, ops: seq<Op>): seq<Block>
    requires forall i :: 0 <= i < |ops| ==> ops[i].n < |d|
  {
    if ops == [] then []
    else
      var before, op := ops[..|ops| - 1], ops[|ops| - 1];
      Answers(d, before) + if op.Load? then [Replay(d, before)[op.n]] else []
  }

  lemma ReplayNext(d: seq<Block>, ops: seq<Op>, k: nat)
    requires k < |ops| && forall i :: 0 <= i < |ops| ==> ops[i].n < |d|
    ensures Replay(d, ops[..k + 1]) ==
            if ops[k].Store? then Replay(d, ops[..k])[ops[k].n := ops[k].data] else Replay(d, ops[..k])
    ensures Answers(d, ops[..k + 1]) ==
            if ops[k].Load? then Answers(d, ops[..k]) + [Replay(d, ops[..k])[ops[k].n]] else Answers(d, ops[..k])
  {
    assert ops[..k + 1][..k] == ops[..k];
  }
}

module BufferCache {
  import opened BufRing
  import opened BufState

  /** Every buffer is in the list. */
  ghost predicate Full(r: Ring) {
    Ok(r) && forall b: nat :: b < NBUF ==> b in r.nodes
  }

  class Cache {
    var bufs: seq<Buf>
    var disk: seq<Block>
    var next: seq<nat>
    var prev: seq<nat>
    ghost var stamp: seq<nat>
    ghost var nodes: set<nat>
    ghost var clock: nat

    ghost function State(): C
      reads this
    {
      C(bufs, disk)
    }

    ghost function List(): Ring
      reads this
    {
      Ring(next, prev, stamp, nodes, clock)
    }

    ghost predicate Valid()
      reads this
    {
      Sane(State()) && Full(List())
    }

    /** binit: all buffers unused, each put in front of the ones before. */
    constructor (disk: seq<Block>)
      ensures Valid() && this.disk == disk && AllClean(State()) && forall n: nat :: n < |disk| ==> Latest(State(), n) == disk[n]
    {
      this.disk := disk;
      bufs := seq(NBUF, _ => Buf(0, 0, false, false, 0, []));
      next := seq(NBUF + 1, _ => HEAD);
      prev := seq(NBUF + 1, _ => HEAD);
      stamp, nodes, clock := seq(NBUF, _ => 0), {}, 0;
      new;
      EmptyOk();
      assert List() == Empty();
      var b := 0;
      while b < NBUF
        invariant 0 <= b <= NBUF && Ok(List()) && (forall c: nat :: c in nodes <==> c < b)
        invariant State() == C(seq(NBUF, _ => Buf(0, 0, false, false, 0, [])), disk)
      {
        InsertFirst(b);
        b := b + 1;
      }
      forall n: nat | n < |disk|
        ensures Latest(State(), n) == disk[n]
      {
        LatestUncached(State(), n);
      }
    }

    method InsertFirst(b: nat)
      requires Ok(List()) && b < NBUF && b !in nodes
      modifies this`next, this`prev, this`stamp, this`nodes, this`clock
      ensures old(next)[HEAD] <= HEAD && List() == PutFirst(old(List()), b) && Ok(List())
    {
      PutFirstOk(List(), b);
      ghost var r := PutFirst(List(), b);
      var first := next[HEAD];
      next := next[b := first];
      prev := prev[b := HEAD];
      prev := prev[first := b];
      next := next[HEAD := b];
      stamp, nodes, clock := r.stamp, r.nodes, r.clock;
    }

    /** bget's first loop: the buffer for the block, or HEAD. */
    method Lookup(dev: nat, blockno: nat) returns (b: nat)
      requires Valid()
      ensures b <= HEAD
      ensures b != HEAD ==> bufs[b].dev == dev && bufs[b].blockno == blockno
      ensures b == HEAD ==> forall c: nat :: c < NBUF ==> !(bufs[c].dev == dev && bufs[c].blockno == blockno)
    {
      ghost var r := List();
      assert 0 in nodes;
      FirstLast(r);
      b := next[HEAD];
      while b != HEAD
        invariant On(r, b)
        invariant forall c: nat :: c < NBUF && Newer(r, b, c) ==> !(bufs[c].dev == dev && bufs[c].blockno == blockno)
        decreases if b == HEAD then 0 else stamp[b] + 1
      {
        if bufs[b].dev == dev && bufs[b].blockno == blockno {
          return;
        }
        StepNext(r, b);
        b := next[b];
      }
    }

    /** bget's second loop: the least recently released buffer that may be
        recycled, or HEAD if there is none. */
    method FindVictim() returns (b: nat)
      requires Valid()
      ensures b <= HEAD
      ensures b != HEAD ==> bufs[b].refcnt == 0 && !bufs[b].dirty
      ensures b != HEAD ==> forall c: nat :: c < NBUF && bufs[c].refcnt == 0 && !bufs[c].dirty ==> stamp[b] <= stamp[c]
      ensures b == HEAD ==> forall c: nat :: c < NBUF ==> bufs[c].refcnt > 0 || bufs[c].dirty
    {
      ghost var r := List();
      assert 0 in nodes;
      FirstLast(r);
      b := prev[HEAD];
      while b != HEAD
        invariant On(r, b)
        invariant forall c: nat :: c < NBUF && Older(r, b, c) ==> bufs[c].refcnt > 0 || bufs[c].dirty
        decreases if b == HEAD then 0 else clock - stamp[b]
      {
        if bufs[b].refcnt == 0 && !bufs[b].dirty {
          return;
        }
        StepPrev(r, b);
        b := prev[b];
      }
    }

    /** A referenced buffer for the block; HEAD stands for the panic when every
        buffer is in use. */
    method Bget(dev: nat, blockno: nat) returns (b: nat)
      requires Valid()
      modifies this`bufs
      ensures Valid() && b <= HEAD && SameBlocks(old(State()), State())
      ensures b == HEAD ==> bufs == old(bufs) && forall c: nat :: c < NBUF ==> bufs[c].refcnt > 0 || bufs[c].dirty
      ensures b == HEAD ==> forall c: nat :: c < NBUF ==> !(bufs[c].dev == dev && bufs[c].blockno == blockno)
      ensures b != HEAD ==> bufs[b].dev == dev && bufs[b].blockno == blockno && bufs[b].refcnt > 0
      ensures b != HEAD ==> bufs == old(bufs)[b := bufs[b]]
      ensures b != HEAD && old(bufs)[b].dev == dev && old(bufs)[b].blockno == blockno ==>
                bufs[b] == WithRefs(old(bufs)[b], old(bufs)[b].refcnt + 1)
      ensures b != HEAD && !(old(bufs)[b].dev == dev && old(bufs)[b].blockno == blockno) ==>
                old(bufs)[b].refcnt == 0 && !old(bufs)[b].dirty && bufs[b] == Buf(dev, blockno, false, false, 1, old(bufs)[b].data)
                && forall c: nat :: c < NBUF && old(bufs)[c].refcnt == 0 && !old(bufs)[c].dirty ==> stamp[b] <= stamp[c]
    {
      b := Lookup(dev, blockno);
      if b != HEAD {
        Reference(b);
        return;
      }
      b := FindVictim();
      if b != HEAD {
        Reuse(b, dev, blockno);
      } else {
        SetRefsKeeps(State(), 0, bufs[0].refcnt);
        assert SetRefs(State(), 0, bufs[0].refcnt) == State();
      }
    }

    method Reference(b: nat)
      requires Valid() && b < NBUF
      modifies this`bufs
      ensures Valid() && SameBlocks(old(State()), State())
      ensures bufs == old(bufs)[b := WithRefs(old(bufs)[b], old(bufs)[b].refcnt + 1)]
    {
      SetRefsKeeps(State(), b, bufs[b].refcnt + 1);
      ghost var t := SetRefs(State(), b, bufs[b].refcnt + 1);
      bufs := bufs[b := WithRefs(bufs[b], bufs[b].refcnt + 1)];
      assert State() == t;
    }

    method Reuse(b: nat, dev: nat, blockno: nat)
      requires Valid() && b < NBUF && bufs[b].refcnt == 0 && !bufs[b].dirty
      requires forall c: nat :: c < NBUF ==> !(bufs[c].dev == dev && bufs[c].blockno == blockno)
      modifies this`bufs
      ensures Valid() && SameBlocks(old(State()), State())
      ensures bufs == old(bufs)[b := Buf(dev, blockno, false, false, 1, old(bufs)[b].data)]
    {
      RecycleKeeps(State(), b, dev, blockno);
      ghost var t := Recycle(State(), b, dev, blockno);
      bufs := bufs[b := Buf(dev, blockno, false, false, 1, bufs[b].data)];
      assert State() == t;
    }

    /** iderw: write the buffer if it is dirty, else read it if it is not valid. */
    method Iderw(b: nat)
      requires Valid() && b < NBUF && bufs[b].dev == 1 && bufs[b].blockno < |disk| && (bufs[b].dirty || !bufs[b].valid)
      modifies this`bufs, this`disk
      ensures Valid() && SameBlocks(old(State()), State()) && Caches(State(), b, old(bufs)[b].blockno)
      ensures bufs == old(bufs)[b := bufs[b]] && bufs[b].refcnt == old(bufs)[b].refcnt && !bufs[b].dirty
      ensures bufs[b].data == disk[bufs[b].blockno]
      ensures disk == if old(bufs)[b].valid then old(disk)[old(bufs)[b].blockno := old(bufs)[b].data] else old(disk)
    {
      var r := bufs[b];
      if r.dirty {
        FlushKeeps(State(), b);
        ghost var t := Flush(State(), b);
        disk := disk[r.blockno := r.data];
        bufs := bufs[b := Buf(r.dev, r.blockno, true, false, r.refcnt, r.data)];
        assert State() == t;
      } else {
        FetchKeeps(State(), b);
        ghost var t := Fetch(State(), b);
        bufs := bufs[b := Buf(r.dev, r.blockno, true, r.dirty, r.refcnt, disk[r.blockno])];
        assert State() == t;
      }
    }

    /** The buffer returned holds what was last written to the block. */
    method Bread(blockno: nat) returns (b: nat)
      requires Valid() && blockno < |disk|
      modifies this`bufs, this`disk
      ensures Valid() && b <= HEAD && SameBlocks(old(State()), State())
      ensures b != HEAD ==> Caches(State(), b, blockno) && bufs[b].refcnt > 0 && bufs[b].data == Latest(old(State()), blockno)
      ensures b == HEAD ==> bufs == old(bufs) && forall c: nat :: c < NBUF ==> bufs[c].refcnt > 0 || bufs[c].dirty
      ensures AllClean(old(State())) ==> AllClean(State())
      ensures b != HEAD ==> SameRefs(SetRefs(old(State()), b, old(bufs)[b].refcnt + 1), State())
    {
      b := Bget(1, blockno);
      if b != HEAD {
        if AllClean(old(State())) {
          OthersClean(old(State()), State(), b);
          assert Clean(old(State()), b);
        }
        Validate(b);
        LatestIs(State(), b, blockno);
      }
    }

    /** Have the block read in, if need be. */
    method Validate(b: nat)
      requires Valid() && b < NBUF && bufs[b].dev == 1 && bufs[b].blockno < |disk|
      modifies this`bufs, this`disk
      ensures Valid() && SameBlocks(old(State()), State()) && Caches(State(), b, old(bufs)[b].blockno)
      ensures SameRefs(old(State()), State())
      ensures CleanBut(old(State()), b) && (old(bufs)[b].valid ==> Clean(old(State()), b)) ==> AllClean(State())
    {
      ghost var s := State();
      if !bufs[b].valid {
        Iderw(b);
        if CleanBut(s, b) {
          OthersClean(s, State(), b);
        }
      } else {
        SetRefsKeeps(State(), b, bufs[b].refcnt);
        assert SetRefs(State(), b, bufs[b].refcnt) == State();
      }
    }

    /** Write the buffer's contents to disk. */
    method Bwrite(b: nat)
      requires Valid() && b < NBUF && bufs[b].valid && bufs[b].refcnt > 0
      modifies this`bufs, this`disk
      ensures Valid() && SameBlocks(old(State()), State()) && bufs == old(bufs)[b := bufs[b]]
      ensures old(bufs)[b].blockno < |old(disk)|
      ensures disk == old(disk)[old(bufs)[b].blockno := old(bufs)[b].data] && !bufs[b].dirty
      ensures bufs[b].refcnt == old(bufs)[b].refcnt && Clean(State(), b)
    {
      var r := bufs[b];
      LatestIs(State(), b, r.blockno);
      SetDataKeeps(State(), b, r.data, true);
      ghost var t := SetData(State(), b, r.data, true);
      bufs := bufs[b := Buf(r.dev, r.blockno, r.valid, true, r.refcnt, r.data)];
      assert State() == t;
      Iderw(b);
      LatestIs(State(), b, r.blockno);
    }

    /** The holder changes the contents, and marks them for the log or not. */
    method Update(b: nat, data: Block, logged: bool)
      requires Valid() && b < NBUF && bufs[b].valid && bufs[b].refcnt > 0
      modifies this`bufs
      ensures Valid() && SameBlocksBut(old(State()), State(), old(bufs)[b].blockno)
      ensures old(bufs)[b].blockno < |disk| && Latest(State(), old(bufs)[b].blockno) == data
      ensures bufs == old(bufs)[b := bufs[b]] && bufs[b].valid && (logged ==> bufs[b].dirty)
      ensures bufs[b].refcnt == old(bufs)[b].refcnt
    {
      var r := bufs[b];
      var dirty := r.dirty || logged;
      SetDataKeeps(State(), b, data, dirty);
      ghost var t := SetData(State(), b, data, dirty);
      bufs := bufs[b := Buf(r.dev, r.blockno, r.valid, dirty, r.refcnt, data)];
      assert State() == t;
    }

    /** A user that reads a block. HEAD stands for bget's panic. */
    method Load(n: nat) returns (ok: bool, data: Block)
      requires Valid() && AllClean(State()) && n < |disk|
      modifies this
      ensures Valid() && AllClean(State()) && Contents(State()) == Contents(old(State()))
      ensures ok ==> data == Contents(old(State()))[n]
      ensures SameRefs(old(State()), State())
      ensures !ok ==> forall c: nat :: c < NBUF ==> bufs[c].refcnt > 0 || bufs[c].dirty
    {
      var b := Bread(n);
      SameContents(old(State()), State());
      ok, data := b != HEAD, [];
      if ok {
        data := bufs[b].data;
        Release(b);
      }
    }

    /** A user that changes a block, and has it logged or writes it itself. */
    method Store(n: nat, data: Block, logged: bool) returns (ok: bool)
      requires Valid() && AllClean(State()) && n < |disk|
      modifies this
      ensures Valid() && AllClean(State())
      ensures Contents(State()) == if ok then Contents(old(State()))[n := data] else Contents(old(State()))
      ensures SameRefs(old(State()), State())
      ensures !ok ==> forall c: nat :: c < NBUF ==> bufs[c].refcnt > 0 || bufs[c].dirty
    {
      var b := Bread(n);
      SameContents(old(State()), State());
      ok := b != HEAD;
      if ok {
        Change(b, data, logged);
        Release(b);
      }
    }

    method Change(b: nat, data: Block, logged: bool)
      requires Valid() && AllClean(State()) && b < NBUF && bufs[b].valid && bufs[b].refcnt > 0
      modifies this`bufs, this`disk
      ensures Valid() && AllClean(State()) && SameRefs(old(State()), State())
      ensures old(bufs)[b].blockno < |old(disk)| && Contents(State()) == Contents(old(State()))[old(bufs)[b].blockno := data]
    {
      ghost var s := State();
      Update(b, data, logged);
      OthersClean(s, State(), b);
      assert Contents(State()) == Contents(s)[s.bufs[b].blockno := data];
      if !logged {
        ghost var t := State();
        Bwrite(b);
        OthersClean(t, State(), b);
        SameContents(t, State());
      }
    }

    method Release(b: nat)
      requires Valid() && AllClean(State()) && b < NBUF && bufs[b].refcnt > 0
      modifies this
      ensures Valid() && AllClean(State()) && Contents(State()) == Contents(old(State()))
      ensures SameRefs(SetRefs(old(State()), b, old(bufs)[b].refcnt - 1), State())
    {
      OthersClean(State(), SetRefs(State(), b, bufs[b].refcnt - 1), b);
      assert Clean(State(), b);
      Brelse(b);
      SameContents(old(State()), State());
    }

    method TakeTurn(op: Op) returns (ok: bool, data: Block)
      requires Valid() && AllClean(State()) && op.n < |disk|
      modifies this
      ensures Valid() && AllClean(State())
      ensures Contents(State()) ==
                if ok && op.Store? then Contents(old(State()))[op.n := op.data] else Contents(old(State()))
      ensures ok && op.Load? ==> data == Contents(old(State()))[op.n]
      ensures SameRefs(old(State()), State())
      ensures !ok ==> forall c: nat :: c < NBUF ==> bufs[c].refcnt > 0 || bufs[c].dirty
    {
      data := [];
      match op {
        case Load(n) => ok, data := Load(n);
        case Store(n, v, logged) => ok := Store(n, v, logged);
      }
    }

    /** The cache is not seen: whatever its users do, in whatever order, they read
        what they would without it, up to a bget that finds no buffer. */
    method Serve(ops: seq<Op>) returns (vals: seq<Block>, done: nat)
      requires Valid() && AllClean(State()) && forall i :: 0 <= i < |ops| ==> ops[i].n < |disk|
      modifies this
      ensures Valid() && AllClean(State()) && done <= |ops| && |old(disk)| == |Contents(old(State()))|
      ensures vals == Answers(Contents(old(State())), ops[..done])
      ensures Contents(State()) == Replay(Contents(old(State())), ops[..done]) && SameRefs(old(State()), State())
      ensures done < |ops| ==> forall c: nat :: c < NBUF ==> bufs[c].refcnt > 0 || bufs[c].dirty
    {
      ghost var d := Contents(State());
      vals, done := [], 0;
      while done < |ops|
        invariant done <= |ops| && Valid() && AllClean(State()) && |disk| == |d|
        invariant vals == Answers(d, ops[..done]) && Contents(State()) == Replay(d, ops[..done])
        invariant SameRefs(old(State()), State())
      {
        ReplayNext(d, ops, done);
        var ok, data := TakeTurn(ops[done]);
        if !ok {
          return;
        }
        vals := if ops[done].Load? then vals + [data] else vals;
        done := done + 1;
      }
      assert ops[..done] == ops;
    }

    /** Let go of a buffer whose changes are written or logged; with the last
        reference it becomes the most recently released. */
    method Brelse(b: nat)
      requires Valid() && b < NBUF && bufs[b].refcnt > 0 && Clean(State(), b)
      modifies this`bufs, this`next, this`prev, this`stamp, this`nodes, this`clock
      ensures Valid() && SameBlocks(old(State()), State())
      ensures bufs == old(bufs)[b := WithRefs(old(bufs)[b], old(bufs)[b].refcnt - 1)]
      ensures old(bufs)[b].refcnt > 1 ==> stamp == old(stamp)
      ensures old(bufs)[b].refcnt == 1 ==> stamp == old(stamp)[b := stamp[b]] && forall c: nat :: c < NBUF && c != b ==> stamp[c] < stamp[b]
    {
      var refs := bufs[b].refcnt - 1;
      SetRefsKeeps(State(), b, refs);
      ghost var t := SetRefs(State(), b, refs);
      bufs := bufs[b := WithRefs(bufs[b], refs)];
      assert State() == t;
      if refs == 0 {
        MoveToFront(b);
      }
    }

    method MoveToFront(b: nat)
      requires Full(List()) && b < NBUF
      modifies this`next, this`prev, this`stamp, this`nodes, this`clock
      ensures Full(List()) && stamp == old(stamp)[b := stamp[b]]
      ensures forall c: nat :: c < NBUF && c != b ==> stamp[c] < stamp[b]
    {
      RemoveOk(List(), b);
      ghost var r := Remove(List(), b);
      var n, p := next[b], prev[b];
      prev := prev[n := p];
      next := next[p := n];
      nodes := nodes - {b};
      assert List() == r;
      InsertFirst(b);
    }
  }
}
