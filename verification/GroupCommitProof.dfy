/** What every run of the group-commit machine keeps in a log region that is
    large enough: crash safety and cache transparency. */
module GroupCommitProof {
  import opened Params
  import opened BlockDevice
  import opened LogFormat
  import opened GroupCommit
  import opened LogBooks
  import opened LogRoom

  // ---- Replaying writes ----

  lemma ReplayLast(d: Image, ws: seq<Write>, w: Write)
    requires 0 <= w.block < |d|
    ensures Replay(d, ws + [w]) == Replay(d, ws)[w.block := w.data]
  {
    assert (ws + [w])[..|ws|] == ws;
  }

  lemma ReplaySnoc(d: Image, a: seq<Write>, p: seq<Write>, w: Write)
    requires 0 <= w.block < |d|
    ensures Replay(d, a + (p + [w])) == Replay(d, a + p)[w.block := w.data]
  {
    ReplayLast(d, a + p, w);
    assert a + (p + [w]) == (a + p) + [w];
  }

  /** Blocks that the later writes leave alone are as the earlier ones left them. */
  lemma {:induction false} ReplayFrame(d: Image, a: seq<Write>, p: seq<Write>, b: int)
    requires 0 <= b < |d|
    requires forall k :: 0 <= k < |p| ==> p[k].block != b
    ensures Replay(d, a + p)[b] == Replay(d, a)[b]
    decreases |p|
  {
    if p == [] {
      assert a + p == a;
    } else {
      var ws := a + p;
      var q := p[..|p| - 1];
      assert ws[..|ws| - 1] == a + q;
      assert ws[|ws| - 1] == p[|p| - 1];
      ReplayFrame(d, a, q, b);
    }
  }

  // ---- The invariant ----

  ghost predicate Shape(l: Layout, s: State) {
    && l.BigEnough()
    && (forall b :: b in s.cache ==> 0 <= b < l.total)
    && (forall b :: b in s.dirty ==> b in s.cache)
    && match s.phase {
         case Idle => forall b :: b in s.dirty <==> b in s.lh
         case Panicked => forall b :: b in s.dirty <==> b in s.lh
         case Logging(t) => t <= |s.lh| && forall b :: b in s.dirty <==> b in s.lh
         case Installing(t) => t <= |s.lh| && forall b :: b in s.dirty <==> b in s.lh[t..]
         case Finishing => s.lh == [] && s.dirty == {}
         case Booting => s.lh == [] && s.dirty == {}
         case Recovering(t) => t <= |s.lh| && s.dirty == {}
       }
  }

  ghost predicate Apart(o: Op, p: Op) {
    forall b :: b in o.held ==> b !in p.held
  }

  /** Buffers are cached while held, and held by one operation. */
  ghost predicate Locks(s: State) {
    && (forall i, b :: 0 <= i < |s.ops| && b in s.ops[i].held ==> b in s.cache)
    && (forall i, j :: 0 <= i < |s.ops| && 0 <= j < |s.ops| && i != j ==> Apart(s.ops[i], s.ops[j]))
  }

  /** A buffer that is neither pinned nor being modified agrees with the disk. */
  ghost predicate Clean(s: State) {
    forall b :: b in s.cache && b !in s.dirty && !Touched(s.ops, b) ==> 0 <= b < |s.disk| && s.cache[b] == s.disk[b]
  }

  ghost predicate DiskPart(l: Layout, base: Image, s: State) {
    && DiskOk(l, s.disk)
    && SameHome(l, Recovered(l, s.disk), Replay(base, s.committed))
    && (Open(s.phase) || s.phase.Finishing? ==> s.disk[l.start][0] == 0)
    && (s.phase.Logging? ==>
          && s.phase.tail <= |s.lh| < l.size
          && forall i :: 0 <= i < s.phase.tail ==> s.lh[i] in s.cache && s.disk[Slot(l, i)] == s.cache[s.lh[i]])
    && (s.phase.Installing? || s.phase.Recovering? ==>
          && Loggable(l, s.lh)
          && s.phase.tail <= |s.lh|
          && Entries(s.disk[l.start]) == s.lh
          && forall i :: 0 <= i < s.phase.tail ==> s.disk[s.lh[i]] == s.disk[Slot(l, i)])
  }

  ghost predicate PendingPart(l: Layout, base: Image, s: State) {
    && |base| == l.total
    && (Open(s.phase) ==>
          forall b :: b in s.lh && !Touched(s.ops, b) ==>
            l.Home(b) && b in s.cache && s.cache[b] == Replay(base, s.committed + s.pending)[b])
  }

  /** What keeps the disk safe, beyond the books and the room in the header. */
  ghost predicate Safe(l: Layout, base: Image, s: State) {
    Shape(l, s) && Locks(s) && Clean(s) && DiskPart(l, base, s) && PendingPart(l, base, s)
  }

  ghost predicate Inv(l: Layout, base: Image, s: State) {
    Books(s) && Room(l, s) && Safe(l, base, s)
  }

  lemma BootInv(l: Layout, d: Image)
    requires l.BigEnough() && DiskOk(l, d)
    ensures Inv(l, Recovered(l, d), Boot(d))
  {
    BootBooks(d);
    BootRoom(l, d);
  }

  // ---- Steps of operations in progress ----

  lemma BeginKeeps(l: Layout, base: Image, s: State, id: nat)
    requires Inv(l, base, s) && Enabled(l, s, Begin(id))
    ensures Safe(l, base, Apply(l, s, Begin(id)))
  {
    var t := Apply(l, s, Begin(id));
    forall b ensures Touched(t.ops, b) == Touched(s.ops, b) {
      TouchedSnoc(s.ops, Op(id, 0, 0, map[]), b);
    }
  }

  lemma TouchedSnoc(ops: seq<Op>, op: Op, b: int)
    requires op.held == map[]
    ensures Touched(ops + [op], b) == Touched(ops, b)
  {
    if Touched(ops, b) {
      var i :| 0 <= i < |ops| && b in ops[i].held && ops[i].held[b].touched;
      assert (ops + [op])[i] == ops[i];
    }
  }

  /** Changing what one operation holds changes `Touched` only for the blocks
      it holds before or after. */
  lemma TouchedUpdate(ops: seq<Op>, i: nat, op: Op, b: int)
    requires i < |ops|
    requires (b in op.held && op.held[b].touched) == (b in ops[i].held && ops[i].held[b].touched)
    ensures Touched(ops[i := op], b) == Touched(ops, b)
  {
    var r := ops[i := op];
    if Touched(ops, b) {
      var j :| 0 <= j < |ops| && b in ops[j].held && ops[j].held[b].touched;
      assert j == i || r[j] == ops[j];
      assert b in r[j].held && r[j].held[b].touched;
    }
    if Touched(r, b) {
      var j :| 0 <= j < |r| && b in r[j].held && r[j].held[b].touched;
      assert j == i || r[j] == ops[j];
      assert b in ops[j].held && ops[j].held[b].touched;
    }
  }

  lemma LockKeeps(l: Layout, base: Image, s: State, i: nat, b: int)
    requires Inv(l, base, s) && Enabled(l, s, Lock(i, b))
    ensures Safe(l, base, Apply(l, s, Lock(i, b)))
  {
    var t := Apply(l, s, Lock(i, b));
    assert b !in s.ops[i].held;
    forall c ensures Touched(t.ops, c) == Touched(s.ops, c) {
      TouchedUpdate(s.ops, i, t.ops[i], c);
    }
  }

  lemma StoreKeeps(l: Layout, base: Image, s: State, i: nat, b: int, data: Block)
    requires Inv(l, base, s) && Enabled(l, s, Store(i, b, data))
    ensures Safe(l, base, Apply(l, s, Store(i, b, data)))
  {
    var t := Apply(l, s, Store(i, b, data));
    assert t.ops[i].held[b].touched;
    assert Touched(t.ops, b);
    forall c | c != b ensures Touched(t.ops, c) == Touched(s.ops, c) {
      TouchedUpdate(s.ops, i, t.ops[i], c);
    }
  }

  lemma CheckKeeps(l: Layout, base: Image, s: State, i: nat, b: int)
    requires Inv(l, base, s) && Enabled(l, s, Check(i, b))
    ensures Safe(l, base, Apply(l, s, Check(i, b)))
  {
    var t := Apply(l, s, Check(i, b));
    forall c ensures Touched(t.ops, c) == Touched(s.ops, c) {
      TouchedUpdate(s.ops, i, t.ops[i], c);
    }
  }

  lemma ReleaseKeeps(l: Layout, base: Image, s: State, i: nat, b: int)
    requires Inv(l, base, s) && Enabled(l, s, Release(i, b))
    ensures Safe(l, base, Apply(l, s, Release(i, b)))
  {
    var t := Apply(l, s, Release(i, b));
    forall c ensures Touched(t.ops, c) == Touched(s.ops, c) {
      TouchedUpdate(s.ops, i, t.ops[i], c);
    }
  }

  /** Locked buffers are held by one operation only, so once an operation has
      logged its changes the buffer is no longer being modified. */
  lemma UntouchedAfterAppend(l: Layout, s: State, i: nat, b: int)
    requires Locks(s) && Holds(s, i, b)
    ensures !Touched(Logs(s, i, b).ops, b)
    ensures forall c :: c != b ==> Touched(Logs(s, i, b).ops, c) == Touched(s.ops, c)
  {
    var t := Logs(s, i, b);
    forall j | 0 <= j < |t.ops|
      ensures !(b in t.ops[j].held && t.ops[j].held[b].touched)
    {
      if j != i {
        assert Apart(s.ops[i], s.ops[j]);
      }
    }
    forall c | c != b ensures Touched(t.ops, c) == Touched(s.ops, c) {
      TouchedUpdate(s.ops, i, t.ops[i], c);
    }
  }

  lemma AppendPending(l: Layout, base: Image, s: State, i: nat, b: int)
    requires Inv(l, base, s) && Enabled(l, s, Append(i, b))
    ensures PendingPart(l, base, Logs(s, i, b))
  {
    var t := Logs(s, i, b);
    var w := Write(s.ops[i].id, b, s.cache[b]);
    assert OpFits(l, s.ops[i]);
    UntouchedAfterAppend(l, s, i, b);
    ReplaySnoc(base, s.committed, s.pending, w);
    forall c | c in t.lh && !Touched(t.ops, c)
      ensures l.Home(c) && c in t.cache && t.cache[c] == Replay(base, t.committed + t.pending)[c]
    {
      assert c != b ==> c in s.lh;
    }
  }

  lemma AppendKeeps(l: Layout, base: Image, s: State, i: nat, b: int)
    requires Inv(l, base, s) && Enabled(l, s, Append(i, b))
    ensures Safe(l, base, Apply(l, s, Append(i, b)))
  {
    var t := Logs(s, i, b);
    assert OpFits(l, s.ops[i]);
    UntouchedAfterAppend(l, s, i, b);
    AppendPending(l, base, s, i, b);
  }

  lemma TouchedRemove(ops: seq<Op>, i: nat, c: int)
    requires i < |ops| && ops[i].held == map[]
    ensures Touched(Without(ops, i), c) == Touched(ops, c)
  {
    if Touched(ops, c) {
      var j :| 0 <= j < |ops| && c in ops[j].held && ops[j].held[c].touched;
      assert Without(ops, i)[if j < i then j else j - 1] == ops[j];
    }
  }

  lemma EndLocks(l: Layout, s: State, i: nat)
    requires Locks(s) && Enabled(l, s, End(i))
    ensures Locks(Apply(l, s, End(i)))
  {
    var t := Apply(l, s, End(i));
    forall j, k | 0 <= j < |t.ops| && 0 <= k < |t.ops| && j != k
      ensures Apart(t.ops[j], t.ops[k])
    {
      assert Apart(s.ops[if j < i then j else j + 1], s.ops[if k < i then k else k + 1]);
    }
  }

  lemma EndShape(l: Layout, base: Image, s: State, i: nat)
    requires Books(s) && Room(l, s) && Shape(l, s) && DiskPart(l, base, s) && Enabled(l, s, End(i))
    ensures Shape(l, Apply(l, s, End(i))) && DiskPart(l, base, Apply(l, s, End(i)))
  {
  }

  lemma EndKeeps(l: Layout, base: Image, s: State, i: nat)
    requires Inv(l, base, s) && Enabled(l, s, End(i))
    ensures Safe(l, base, Apply(l, s, End(i)))
  {
    var t := Apply(l, s, End(i));
    EndLocks(l, s, i);
    EndShape(l, base, s, i);
    forall c ensures Touched(t.ops, c) == Touched(s.ops, c) {
      TouchedRemove(s.ops, i, c);
    }
  }

  // ---- Steps of commit ----

  lemma LogBlockDisk(l: Layout, base: Image, s: State)
    requires Books(s) && Room(l, s) && Shape(l, s) && DiskPart(l, base, s) && Enabled(l, s, LogBlock)
    ensures DiskPart(l, base, Apply(l, s, LogBlock))
  {
    var t := Apply(l, s, LogBlock);
    var k := s.phase.tail;
    assert l.InLog(Slot(l, k));
    assert t.disk[l.start] == s.disk[l.start];
    RecoveredEmpty(l, s.disk);
    RecoveredEmpty(l, t.disk);
    forall i | 0 <= i < k + 1
      ensures t.lh[i] in t.cache && t.disk[Slot(l, i)] == t.cache[t.lh[i]]
    {
      assert l.Home(t.lh[i]);
    }
  }

  lemma LogBlockKeeps(l: Layout, base: Image, s: State)
    requires Inv(l, base, s) && Enabled(l, s, LogBlock)
    ensures Safe(l, base, Apply(l, s, LogBlock))
  {
    var k := s.phase.tail;
    assert s.lh[k] in s.dirty && l.Home(s.lh[k]);
    assert l.InLog(Slot(l, k));
    LogBlockDisk(l, base, s);
  }

  /** Writing header h on an image whose slots hold the listed blocks of `now`
      and whose other home blocks agree with it makes the image recover to `now`. */
  lemma HeaderCommits(l: Layout, d: Image, h: Block, lh: seq<int>, now: Image)
    requires l.BigEnough() && |d| == |now| == l.total && Loggable(l, lh)
    requires CountOk(h) && Entries(h) == lh
    requires forall i :: 0 <= i < |lh| ==> d[Slot(l, i)] == now[lh[i]]
    requires forall b :: l.Home(b) && b !in lh ==> d[b] == now[b]
    ensures DiskOk(l, d[l.start := h])
    ensures SameHome(l, Recovered(l, d[l.start := h]), now)
  {
    var e := d[l.start := h];
    RecoveredBlocks(l, e);
    forall b | l.Home(b)
      ensures Recovered(l, e)[b] == now[b]
    {
      if b in lh {
        var i :| 0 <= i < |lh| && lh[i] == b;
        assert Recovered(l, e)[Entries(e[l.start])[i]] == e[Slot(l, i)];
      }
    }
  }

  lemma SlotsHoldTransaction(l: Layout, base: Image, s: State)
    requires Books(s) && Room(l, s) && Shape(l, s) && DiskPart(l, base, s) && PendingPart(l, base, s) && s.phase == Logging(|s.lh|)
    ensures forall i :: 0 <= i < |s.lh| ==>
              s.disk[Slot(l, i)] == Replay(base, s.committed + s.pending)[s.lh[i]]
  {
    forall i | 0 <= i < |s.lh|
      ensures s.disk[Slot(l, i)] == Replay(base, s.committed + s.pending)[s.lh[i]]
    {
      assert s.lh[i] in s.lh && !Touched(s.ops, s.lh[i]);
    }
  }

  lemma OtherBlocksHome(l: Layout, base: Image, s: State)
    requires Books(s) && Room(l, s) && Shape(l, s) && DiskPart(l, base, s) && PendingPart(l, base, s) && s.phase.Logging?
    ensures forall b :: l.Home(b) && b !in s.lh ==>
              s.disk[b] == Replay(base, s.committed + s.pending)[b]
  {
    RecoveredEmpty(l, s.disk);
    forall b | l.Home(b) && b !in s.lh
      ensures s.disk[b] == Replay(base, s.committed + s.pending)[b]
    {
      ReplayFrame(base, s.committed, s.pending, b);
    }
  }

  /** The header write is the commit point: recovery now yields the whole
      open transaction. */
  lemma WriteHeadDisk(l: Layout, base: Image, s: State, h: Block, t: State)
    requires Books(s) && Room(l, s) && Shape(l, s) && DiskPart(l, base, s) && PendingPart(l, base, s) && s.phase == Logging(|s.lh|)
    requires CountOk(h) && Entries(h) == s.lh
    requires t.disk == s.disk[l.start := h] && t.lh == s.lh && t.phase == Installing(0)
    requires t.committed == s.committed + s.pending
    ensures DiskPart(l, base, t)
  {
    SlotsHoldTransaction(l, base, s);
    OtherBlocksHome(l, base, s);
    HeaderCommits(l, s.disk, h, s.lh, Replay(base, t.committed));
  }

  lemma WriteHeadShape(l: Layout, s: State)
    requires Books(s) && Room(l, s) && Shape(l, s) && Locks(s) && Clean(s) && Enabled(l, s, WriteHead)
    ensures var t := Apply(l, s, WriteHead); Shape(l, t) && Locks(t) && Clean(t)
  {
    assert s.lh[0..] == s.lh;
    assert l.InLog(l.start);
  }

  lemma WriteHeadKeeps(l: Layout, base: Image, s: State)
    requires Inv(l, base, s) && Enabled(l, s, WriteHead)
    ensures Safe(l, base, Apply(l, s, WriteHead))
  {
    var t := Apply(l, s, WriteHead);
    WriteHeadDisk(l, base, s, EncodeHead(View(s, l.start), s.lh), t);
    WriteHeadShape(l, s);
  }

  /** Copying a listed block home does not change what recovery yields. */
  lemma CopyOne(l: Layout, d: Image, k: nat)
    requires DiskOk(l, d) && k < d[l.start][0]
    ensures var e := d[Entries(d[l.start])[k] := d[Slot(l, k)]];
            && DiskOk(l, e) && e[l.start] == d[l.start]
            && (forall i :: 0 <= i < d[l.start][0] ==> e[Slot(l, i)] == d[Slot(l, i)])
            && SameHome(l, Recovered(l, e), Recovered(l, d))
  {
    var lh := Entries(d[l.start]);
    var e := d[lh[k] := d[Slot(l, k)]];
    assert l.Home(lh[k]) && l.InLog(l.start);
    forall i | 0 <= i < |lh|
      ensures e[Slot(l, i)] == d[Slot(l, i)]
    {
      assert l.InLog(Slot(l, i));
    }
    RecoveredSame(l, e, d);
  }

  lemma SlotClean(l: Layout, s: State, k: nat)
    requires Books(s) && Room(l, s) && Shape(l, s) && Clean(s) && (s.phase.Installing? || s.phase.Recovering?) && k == s.phase.tail < |s.lh|
    ensures OnDisk(s, s.lh[k]) && OnDisk(s, Slot(l, k)) && View(s, Slot(l, k)) == s.disk[Slot(l, k)]
  {
    assert l.InLog(Slot(l, k)) && l.Home(s.lh[k]);
    assert s.phase.Installing? ==> Slot(l, k) !in s.lh[k..];
  }

  lemma CopyHomeDisk(l: Layout, base: Image, s: State, next: Phase)
    requires Books(s) && Room(l, s) && Shape(l, s) && Clean(s) && DiskPart(l, base, s)
    requires s.phase.Installing? || s.phase.Recovering?
    requires s.phase.tail < |s.lh|
    requires next == if s.phase.Installing? then Installing(s.phase.tail + 1) else Recovering(s.phase.tail + 1)
    ensures DiskPart(l, base, CopyHome(l, s, s.phase.tail, next))
  {
    SlotClean(l, s, s.phase.tail);
    CopyOne(l, s.disk, s.phase.tail);
  }

  lemma InstallShape(l: Layout, s: State)
    requires Books(s) && Room(l, s) && Shape(l, s) && Clean(s) && Enabled(l, s, Install)
    ensures Shape(l, Apply(l, s, Install)) && Clean(Apply(l, s, Install))
  {
    var k := s.phase.tail;
    assert s.lh[k..] == [s.lh[k]] + s.lh[k + 1..];
    assert l.Home(s.lh[k]) && l.InLog(Slot(l, k));
    assert Slot(l, k) !in s.lh[k..];
    assert View(s, Slot(l, k)) == s.disk[Slot(l, k)];
  }

  lemma InstallKeeps(l: Layout, base: Image, s: State)
    requires Inv(l, base, s) && Enabled(l, s, Install)
    ensures Safe(l, base, Apply(l, s, Install))
  {
    CopyHomeDisk(l, base, s, Installing(s.phase.tail + 1));
    InstallShape(l, s);
  }

  lemma ReinstallKeeps(l: Layout, base: Image, s: State)
    requires Inv(l, base, s) && Enabled(l, s, Reinstall)
    ensures Safe(l, base, Apply(l, s, Reinstall))
  {
    var t := Apply(l, s, Reinstall);
    CopyHomeDisk(l, base, s, Recovering(s.phase.tail + 1));
  }

  /** Once every listed block is home, erasing the header loses nothing. */
  lemma ClearDisk(l: Layout, base: Image, s: State, next: Phase)
    requires Books(s) && Room(l, s) && Shape(l, s) && Clean(s) && DiskPart(l, base, s) && s.ops == []
    requires s.phase == Installing(|s.lh|) || s.phase == Recovering(|s.lh|)
    requires next.Finishing? || next.Idle?
    ensures DiskPart(l, base, PutHead(l, s, [], next))
  {
    var t := PutHead(l, s, [], next);
    assert l.InLog(l.start);
    RecoveredBlocks(l, s.disk);
    RecoveredEmpty(l, t.disk);
    var lh := s.lh;
    forall b | l.Home(b)
      ensures t.disk[b] == Recovered(l, s.disk)[b]
    {
      if b in lh {
        var i :| 0 <= i < |lh| && lh[i] == b;
        assert Recovered(l, s.disk)[Entries(s.disk[l.start])[i]] == s.disk[Slot(l, i)];
      }
    }
  }

  lemma ClearKeeps(l: Layout, base: Image, s: State)
    requires Inv(l, base, s) && Enabled(l, s, Clear)
    ensures Safe(l, base, Apply(l, s, Clear))
  {
    var t := Apply(l, s, Clear);
    ClearDisk(l, base, s, Finishing);
    assert s.lh[|s.lh|..] == [];
  }

  lemma ReclearKeeps(l: Layout, base: Image, s: State)
    requires Inv(l, base, s) && Enabled(l, s, Reclear)
    ensures Safe(l, base, Apply(l, s, Reclear))
  {
    var t := Apply(l, s, Reclear);
    ClearDisk(l, base, s, Idle);
  }

  lemma DoneKeeps(l: Layout, base: Image, s: State)
    requires Inv(l, base, s) && Enabled(l, s, Done)
    ensures Safe(l, base, Apply(l, s, Done))
  {
    var t := Apply(l, s, Done);
  }

  lemma ReadHeadKeeps(l: Layout, base: Image, s: State)
    requires Inv(l, base, s) && Enabled(l, s, ReadHead)
    ensures Safe(l, base, Apply(l, s, ReadHead))
  {
    var t := Apply(l, s, ReadHead);
    assert View(s, l.start) == s.disk[l.start];
  }

  /** A crash at any point: the open transaction is discarded as a whole. */
  lemma CrashKeeps(l: Layout, base: Image, s: State)
    requires Inv(l, base, s)
    ensures Safe(l, base, Apply(l, s, Crash))
  {
    var t := Apply(l, s, Crash);
  }

  lemma EvictKeeps(l: Layout, base: Image, s: State, b: int)
    requires Inv(l, base, s) && Enabled(l, s, Evict(b))
    ensures Safe(l, base, Apply(l, s, Evict(b)))
  {
    var t := Apply(l, s, Evict(b));
    assert s.phase.Logging? ==> b !in s.lh;
    assert forall i :: 0 <= i < |s.ops| ==> b !in s.ops[i].held;
  }

  lemma PanicKeeps(l: Layout, base: Image, s: State, i: nat, b: int)
    requires Inv(l, base, s) && Enabled(l, s, Panic(i, b))
    ensures Safe(l, base, Apply(l, s, Panic(i, b)))
  {
    var t := Apply(l, s, Panic(i, b));
  }

  lemma StepKeeps(l: Layout, base: Image, s: State, step: Step)
    requires Inv(l, base, s) && Enabled(l, s, step) && Within(MAXOPBLOCKS, s, step)
    ensures Inv(l, base, Apply(l, s, step))
  {
    LogBooks.StepKeeps(l, s, step);
    LogRoom.StepKeeps(l, s, step);
    StepSafe(l, base, s, step);
  }

  lemma StepSafe(l: Layout, base: Image, s: State, step: Step)
    requires Inv(l, base, s) && Enabled(l, s, step)
    ensures Safe(l, base, Apply(l, s, step))
  {
    match step
    case Begin(id) => BeginKeeps(l, base, s, id);
    case Lock(i, b) => LockKeeps(l, base, s, i, b);
    case Store(i, b, data) => StoreKeeps(l, base, s, i, b, data);
    case Check(i, b) => CheckKeeps(l, base, s, i, b);
    case Panic(i, b) => PanicKeeps(l, base, s, i, b);
    case Append(i, b) => AppendKeeps(l, base, s, i, b);
    case Release(i, b) => ReleaseKeeps(l, base, s, i, b);
    case End(i) => EndKeeps(l, base, s, i);
    case LogBlock => LogBlockKeeps(l, base, s);
    case WriteHead => WriteHeadKeeps(l, base, s);
    case Install => InstallKeeps(l, base, s);
    case Clear => ClearKeeps(l, base, s);
    case Done => DoneKeeps(l, base, s);
    case Evict(b) => EvictKeeps(l, base, s, b);
    case Crash => CrashKeeps(l, base, s);
    case ReadHead => ReadHeadKeeps(l, base, s);
    case Reinstall => ReinstallKeeps(l, base, s);
    case Reclear => ReclearKeeps(l, base, s);
  }

  lemma {:induction false} RunKeeps(l: Layout, k: nat, base: Image, s: State, steps: seq<Step>, t: State)
    requires Inv(l, base, s) && k <= MAXOPBLOCKS && Run(l, k, s, steps, t)
    ensures Inv(l, base, t)
    decreases |steps|
  {
    if steps != [] {
      StepKeeps(l, base, s, steps[0]);
      RunKeeps(l, k, base, Apply(l, s, steps[0]), steps[1..], t);
    }
  }

  // ---- The results, for every run ----

  /** Crash safety. Whatever happened - operations, commits, evictions and any
      number of crashes, in commit or in recovery - the disk recovers to the
      starting contents with exactly the committed writes replayed on them. */
  lemma CrashSafety(l: Layout, k: nat, d: Image, steps: seq<Step>, t: State)
    requires l.BigEnough() && DiskOk(l, d) && k <= MAXOPBLOCKS && Run(l, k, Boot(d), steps, t)
    ensures DiskOk(l, t.disk)
    ensures SameHome(l, Recovered(l, t.disk), Replay(Recovered(l, d), t.committed))
  {
    BootInv(l, d);
    RunKeeps(l, k, Recovered(l, d), Boot(d), steps, t);
  }

  /** Between commits bread returns the latest logged contents of a block that
      nobody is in the middle of modifying, wherever it is kept. */
  lemma ReadsSeeLoggedWrites(l: Layout, k: nat, d: Image, steps: seq<Step>, t: State, b: int)
    requires l.BigEnough() && DiskOk(l, d) && k <= MAXOPBLOCKS && Run(l, k, Boot(d), steps, t)
    requires t.phase.Idle? && l.Home(b) && !Touched(t.ops, b)
    ensures b < |t.disk|
    ensures View(t, b) == Replay(Recovered(l, d), t.committed + t.pending)[b]
  {
    var base := Recovered(l, d);
    BootInv(l, d);
    RunKeeps(l, k, base, Boot(d), steps, t);
    if b !in t.lh {
      RecoveredEmpty(l, t.disk);
      ReplayFrame(base, t.committed, t.pending, b);
    }
  }
}
