/** The log as the kernel runs it: global state updated in place, block by
    block. Every method is tied to the images of LogFormat, so that what is
    proved there about crashes holds of each block write made here. */
module RedoLog {
  import opened Params
  import opened BlockDevice
  import opened LogFormat
  import opened GroupCommit
  import M = Monitors
  import A = MonitorActs

  // ---- The images a run of block writes leaves behind, in order ----

  ghost function InstallTrail(l: Layout, d: Image, lh: seq<int>, k: nat): (r: seq<Image>)
    requires l.Fits() && |d| == l.total && Loggable(l, lh) && k <= |lh|
    ensures |r| == k && forall i :: 0 <= i < k ==> r[i] == Installed(l, d, lh, i + 1)
  {
    if k == 0 then [] else InstallTrail(l, d, lh, k - 1) + [Installed(l, d, lh, k)]
  }

  ghost function LogTrail(l: Layout, d: Image, vals: seq<Block>, k: nat): (r: seq<Image>)
    requires l.Fits() && |d| == l.total && k <= |vals| < l.size
    ensures |r| == k && forall i :: 0 <= i < k ==> r[i] == Logged(l, d, vals, i + 1)
  {
    if k == 0 then [] else LogTrail(l, d, vals, k - 1) + [Logged(l, d, vals, k)]
  }

  /** All images of one commit, from the first log block to the cleared header. */
  ghost function CommitTrail(l: Layout, d: Image, lh: seq<int>, vals: seq<Block>): (r: seq<Image>)
    requires l.Fits() && |d| == l.total && Loggable(l, lh) && |vals| == |lh|
    ensures |r| == 2 * |lh| + 2
  {
    var c := WithHead(l, Logged(l, d, vals, |lh|), lh);
    LogTrail(l, d, vals, |lh|) + [c] + InstallTrail(l, c, lh, |lh|) + [WithHead(l, Installed(l, c, lh, |lh|), [])]
  }

  lemma CommitTrailAt(l: Layout, d: Image, lh: seq<int>, vals: seq<Block>, i: nat)
    requires l.Fits() && |d| == l.total && Loggable(l, lh) && |vals| == |lh|
    requires i < 2 * |lh| + 2
    ensures CommitTrail(l, d, lh, vals)[i] == CommitImage(l, d, lh, vals, i + 1)
  {
  }

  /** Whatever image of a commit a crash leaves, recovery yields all of the
      transaction or none of it. */
  lemma CommitTrailSafe(l: Layout, d: Image, lh: seq<int>, vals: seq<Block>, i: nat)
    requires DiskOk(l, d) && d[l.start][0] == 0 && Loggable(l, lh) && |vals| == |lh|
    requires i < 2 * |lh| + 2
    ensures var e := CommitTrail(l, d, lh, vals)[i];
            && DiskOk(l, e)
            && (i < |lh| ==> SameHome(l, Recovered(l, e), d))
            && (i >= |lh| ==> IsUpdate(l, d, lh, vals, Recovered(l, e)))
  {
    CommitTrailAt(l, d, lh, vals, i);
    if i < |lh| {
      CrashBeforeHeader(l, d, lh, vals, i + 1);
    } else {
      CrashAfterHeader(l, d, lh, vals, i + 1);
    }
  }

  lemma CommitTrailEnds(l: Layout, d: Image, lh: seq<int>, vals: seq<Block>, e: Image)
    requires DiskOk(l, d) && d[l.start][0] == 0 && Loggable(l, lh) && |vals| == |lh|
    requires e == CommitTrail(l, d, lh, vals)[2 * |lh| + 1]
    ensures DiskOk(l, e) && e[l.start][0] == 0
    ensures IsUpdate(l, d, lh, vals, e)
  {
    CommitTrailSafe(l, d, lh, vals, 2 * |lh| + 1);
    RecoveredEmpty(l, e);
    SameHomeUpdate(l, d, lh, vals, Recovered(l, e), e);
  }

  lemma Regroup(h: seq<Image>, a: seq<Image>, c: Image, b: seq<Image>, e: Image)
    ensures h + a + [c] + b + [e] == h + (a + [c] + b + [e])
  {
  }

  ghost function Blocks(lh: seq<int>): set<int> {
    set b | b in lh
  }

  /** The contents of the listed blocks as their users see them. */
  ghost function Views(cache: map<int, Block>, d: Image, lh: seq<int>): (r: seq<Block>)
    requires forall k :: 0 <= k < |lh| ==> 0 <= lh[k] < |d|
    ensures |r| == |lh|
    ensures forall k :: 0 <= k < |lh| ==> r[k] == if lh[k] in cache then cache[lh[k]] else d[lh[k]]
  {
    seq(|lh|, k requires 0 <= k < |lh| => if lh[k] in cache then cache[lh[k]] else d[lh[k]])
  }

  class Log {
    const l: Layout
    const disk: Disk
    const block: array<int>      // log.lh.block
    var n: int                   // log.lh.n
    var outstanding: int
    var committing: bool
    var cache: map<int, Block>   // buffers that hold a copy of a disk block
    var dirty: set<int>          // buffers pinned by log_write
    ghost var acts: seq<A.Act>   // what has been done since log.lock was taken

    ghost predicate Valid()
      reads this, disk, block
    {
      && l.Fits()
      && |disk.image| == l.total
      && block.Length == LOGSIZE
      && 0 <= n <= LOGSIZE
      && (forall b :: b in cache ==> 0 <= b < l.total)
      && (forall b :: b in dirty ==> b in cache && l.Home(b))
      && (forall b :: b in cache && b !in dirty ==> cache[b] == disk.image[b])
    }

    ghost function Header(): seq<int>
      requires Valid()
      reads this, disk, block
    {
      block[..n]
    }

    /** The contents of block b as its users see it. */
    function View(b: int): Block
      requires 0 <= b < |disk.image|
      reads this, disk
    {
      if b in cache then cache[b] else disk.image[b]
    }

    /** Exactly the blocks in the header are pinned. */
    ghost predicate PinsHeader()
      requires Valid()
      reads this, disk, block
    {
      Loggable(l, Header()) && dirty == Blocks(Header())
    }

    /** The pinned contents a commit would make durable. */
    ghost function Pinned(): seq<Block>
      requires Valid() && Loggable(l, Header())
      reads this, disk, block
    {
      Views(cache, disk.image, Header())
    }

    constructor (layout: Layout, d: Disk)
      requires layout.Fits() && |d.image| == layout.total
      ensures Valid() && fresh(block) && disk == d && l == layout
      ensures n == 0 && outstanding == 0 && !committing && cache == map[] && dirty == {}
    {
      l, disk := layout, d;
      block := new int[LOGSIZE];
      n, outstanding, committing := 0, 0, false;
      cache, dirty := map[], {};
      acts := [];
    }

    /** What log.lock protects, as a monitor's value. */
    ghost function Guarded(): (v: M.Val)
      reads this
    {
      M.LogVal(committing, outstanding, n)
    }

    /** bread: the cached copy, or the disk's, which is then cached. */
    method Bread(b: int) returns (data: Block)
      requires Valid() && 0 <= b < l.total
      modifies this`cache
      ensures Valid() && data == old(View(b))
      ensures cache == old(cache)[b := data]
    {
      if b in cache {
        data := cache[b];
      } else {
        data := disk.Read(b);
      }
      cache := cache[b := data];
    }

    /** bwrite: the buffer's new contents go to the disk and it is clean. */
    method Bwrite(b: int, data: Block)
      requires Valid() && 0 <= b < l.total
      modifies this`cache, this`dirty, disk
      ensures Valid()
      ensures disk.image == old(disk.image)[b := data] && disk.history == old(disk.history) + [disk.image]
      ensures cache == old(cache)[b := data] && dirty == old(dirty) - {b}
    {
      disk.Write(b, data);
      cache := cache[b := data];
      dirty := dirty - {b};
    }

    method ReadHead()
      requires Valid() && CountOk(View(l.start))
      modifies this`n, this`cache, block
      ensures Valid() && Header() == Entries(old(View(l.start)))
      ensures cache == old(cache)[l.start := old(View(l.start))]
    {
      var lh := Bread(l.start);
      n := lh[0];
      var i := 0;
      while i < n
        modifies block
        invariant 0 <= i <= n
        invariant block[..i] == lh[1..1 + i]
      {
        block[i] := lh[1 + i];
        i := i + 1;
      }
    }

    /** The in-memory header goes to the header block, in one block write. */
    method WriteHead()
      requires Valid()
      modifies this`cache, this`dirty, disk
      ensures Valid()
      ensures var h := EncodeHead(old(View(l.start)), Header());
              disk.image == old(disk.image)[l.start := h] && cache == old(cache)[l.start := h]
      ensures disk.history == old(disk.history) + [disk.image] && dirty == old(dirty)
    {
      var hb := Bread(l.start);
      ghost var h0 := hb;
      hb := hb[0 := n];
      var i := 0;
      while i < n
        invariant 0 <= i <= n && |hb| == BLOCK_WORDS
        invariant hb == [n] + block[..i] + h0[1 + i..]
      {
        hb := hb[1 + i := block[i]];
        i := i + 1;
      }
      assert hb == EncodeHead(h0, block[..n]);
      assert !l.Home(l.start);
      Bwrite(l.start, hb);
    }

    /** One turn of install_trans's loop. */
    method InstallSlot(tail: nat)
      requires Valid() && Loggable(l, Header()) && tail < n
      modifies this`cache, this`dirty, disk
      ensures Valid() && dirty == old(dirty) - {Header()[tail]}
      ensures disk.image == old(disk.image)[Header()[tail] := old(disk.image)[Slot(l, tail)]]
      ensures disk.history == old(disk.history) + [disk.image]
    {
      assert Header()[tail] == block[tail] && l.Home(block[tail]);
      assert l.InLog(Slot(l, tail)) && Slot(l, tail) !in dirty;
      var lbuf := Bread(l.start + tail + 1);
      var dbuf := Bread(block[tail]);
      dbuf := lbuf;
      Bwrite(block[tail], dbuf);
    }

    method InstallTrans()
      requires Valid() && Loggable(l, Header())
      modifies this`cache, this`dirty, disk
      ensures Valid()
      ensures disk.image == Installed(l, old(disk.image), Header(), n)
      ensures disk.history == old(disk.history) + InstallTrail(l, old(disk.image), Header(), n)
      ensures dirty == old(dirty) - Blocks(Header())
    {
      ghost var d0, h0, lh := disk.image, disk.history, Header();
      var tail := 0;
      while tail < n
        invariant 0 <= tail <= n && Valid()
        invariant disk.image == Installed(l, d0, lh, tail)
        invariant disk.history == h0 + InstallTrail(l, d0, lh, tail)
        invariant dirty == old(dirty) - Blocks(lh[..tail])
      {
        InstallSlot(tail);
        assert lh[..tail + 1] == lh[..tail] + [lh[tail]];
        tail := tail + 1;
      }
      assert lh[..n] == lh;
      assert old(dirty) == {} ==> dirty == {};
    }

    /** One turn of write_log's loop. */
    method LogSlot(tail: nat)
      requires Valid() && Loggable(l, Header()) && tail < n
      modifies this`cache, this`dirty, disk
      ensures Valid() && dirty == old(dirty)
      ensures disk.image == old(disk.image)[Slot(l, tail) := old(Pinned())[tail]]
      ensures disk.history == old(disk.history) + [disk.image]
      ensures Pinned() == old(Pinned())
    {
      assert Header()[tail] == block[tail] && l.Home(block[tail]);
      assert l.InLog(Slot(l, tail)) && Slot(l, tail) !in dirty;
      var to := Bread(l.start + tail + 1);
      var from := Bread(block[tail]);
      to := from;
      Bwrite(l.start + tail + 1, to);
    }

    method WriteLog()
      requires Valid() && Loggable(l, Header())
      modifies this`cache, this`dirty, disk
      ensures Valid() && dirty == old(dirty)
      ensures disk.image == Logged(l, old(disk.image), old(Pinned()), n)
      ensures disk.history == old(disk.history) + LogTrail(l, old(disk.image), old(Pinned()), n)
    {
      ghost var d0, h0, vals := disk.image, disk.history, Pinned();
      var tail := 0;
      while tail < n
        invariant 0 <= tail <= n && Valid() && dirty == old(dirty)
        invariant disk.image == Logged(l, d0, vals, tail)
        invariant disk.history == h0 + LogTrail(l, d0, vals, tail)
        invariant Pinned() == vals
      {
        LogSlot(tail);
        tail := tail + 1;
      }
    }

    /** The first half of commit: the log blocks, then the header. */
    method Seal()
      requires Valid() && PinsHeader()
      modifies this`cache, this`dirty, disk
      ensures Valid() && dirty == old(dirty)
      ensures disk.image == WithHead(l, Logged(l, old(disk.image), old(Pinned()), n), Header())
      ensures disk.history ==
                old(disk.history) + LogTrail(l, old(disk.image), old(Pinned()), n) + [disk.image]
    {
      assert !l.Home(l.start);
      WriteLog();
      assert View(l.start) == disk.image[l.start];
      WriteHead();
    }

    /** The second half of commit, and the end of recovery: the home blocks,
        then the emptied header. */
    method InstallAndClear()
      requires Valid() && Loggable(l, Header()) && dirty <= Blocks(Header())
      modifies this`cache, this`dirty, this`n, disk
      ensures Valid() && n == 0 && dirty == {}
      ensures disk.image == WithHead(l, Installed(l, old(disk.image), old(Header()), old(n)), [])
      ensures disk.history ==
                old(disk.history) + InstallTrail(l, old(disk.image), old(Header()), old(n)) + [disk.image]
    {
      InstallTrans();
      n := 0;
      assert Header() == [];
      WriteHead();
    }

    /** Write-ahead logging of the whole transaction. The images its block
        writes leave are those of CommitTrail: each recovers to the whole
        transaction or to none of it, as CommitTrailSafe shows. */
    method Commit()
      requires Valid() && PinsHeader()
      requires DiskOk(l, disk.image) && disk.image[l.start][0] == 0
      modifies this`cache, this`dirty, this`n, disk
      ensures Valid() && n == 0 && dirty == {}
      ensures disk.history == old(disk.history) +
                if old(n) == 0 then [] else CommitTrail(l, old(disk.image), old(Header()), old(Pinned()))
      ensures DiskOk(l, disk.image) && disk.image[l.start][0] == 0
      ensures IsUpdate(l, old(disk.image), old(Header()), old(Pinned()), disk.image)
    {
      if n > 0 {
        ghost var d0, lh, vals := disk.image, Header(), Pinned();
        ghost var h, a := disk.history, LogTrail(l, d0, vals, |lh|);
        Seal();
        ghost var c := disk.image;
        InstallAndClear();
        Regroup(h, a, c, InstallTrail(l, c, lh, |lh|), disk.image);
        CommitTrailEnds(l, d0, lh, vals, disk.image);
      } else {
        assert Header() == [];
      }
    }

    method RecoverFromLog()
      requires Valid() && DiskOk(l, disk.image) && dirty == {}
      modifies this`cache, this`dirty, this`n, block, disk
      ensures Valid() && n == 0 && dirty == {}
      ensures disk.image == Recovered(l, old(disk.image))
      ensures |disk.history| == |old(disk.history)| + old(disk.image)[l.start][0] + 1
      ensures forall j :: 0 < j <= old(disk.image)[l.start][0] + 1 ==>
                disk.history[|old(disk.history)| + j - 1] == RecoveryImage(l, old(disk.image), j)
    {
      ReadHead();
      InstallAndClear();
    }

    /** begin_op, one turn of its loop: false means the caller sleeps. */
    method BeginOp() returns (admitted: bool)
      requires Valid()
      modifies this`outstanding, this`acts
      ensures Valid()
      ensures admitted <==> !committing && n + (old(outstanding) + 1) * MAXOPBLOCKS <= LOGSIZE
      ensures outstanding == old(outstanding) + if admitted then 1 else 0
      ensures acts == A.BeginActs(old(Guarded())) && A.Play(A.Inside(old(Guarded()), {}), acts) == A.Inside(Guarded(), {})
    {
      A.BeginOwes(Guarded());
      if committing {
        admitted := false;
        acts := [A.Sleep(M.LOG)];
      } else if n + (outstanding + 1) * MAXOPBLOCKS > LOGSIZE {
        admitted := false;
        acts := [A.Sleep(M.LOG)];
      } else {
        outstanding := outstanding + 1;
        admitted := true;
        acts := [A.Set(Guarded()), A.Leave];
      }
    }

    /** end_op up to the release of log.lock. */
    method EndOp() returns (commits: bool)
      requires Valid() && !committing && outstanding >= 1
      modifies this`outstanding, this`committing, this`acts
      ensures Valid() && outstanding == old(outstanding) - 1
      ensures commits == committing == (outstanding == 0)
      ensures acts == A.EndActs(old(Guarded())) && A.Play(A.Inside(old(Guarded()), {}), acts) == A.Inside(Guarded(), {})
    {
      A.EndOwes(Guarded());
      outstanding := outstanding - 1;
      acts := [A.Set(Guarded())];
      if outstanding == 0 {
        commits := true;
        committing := true;
        acts := acts + [A.Set(Guarded()), A.Leave];
      } else {
        commits := false;
        acts := acts + [A.Notify(M.LOG), A.Leave];
      }
    }

    /** The end of end_op, after commit. */
    method EndCommit()
      requires Valid() && committing
      modifies this`committing, this`acts
      ensures Valid() && !committing
      ensures acts == A.CommittedActs(old(Guarded())) && A.Play(A.Inside(old(Guarded()), {}), acts) == A.Inside(Guarded(), {})
    {
      A.CommittedOwes(Guarded());
      committing := false;
      acts := [A.Set(Guarded()), A.Notify(M.LOG), A.Leave];
    }

    /** log_write: pins the buffer and enters its block number once; false stands
        for its two panics. */
    method LogWrite(b: int, data: Block) returns (ok: bool)
      requires Valid() && PinsHeader() && l.Home(b)
      modifies this`n, this`cache, this`dirty, block
      ensures Valid() && PinsHeader()
      ensures ok <==> old(n) < LOGSIZE && old(n) < l.size - 1 && outstanding >= 1
      ensures !ok ==> Header() == old(Header()) && cache == old(cache) && dirty == old(dirty)
      ensures ok ==> Header() == if b in old(Header()) then old(Header()) else old(Header()) + [b]
      ensures ok ==> dirty == old(dirty) + {b} && cache == old(cache)[b := data]
      ensures M.Ends(old(Guarded()), Guarded()) == {}
    {
      if n >= LOGSIZE || n >= l.size - 1 {
        ok := false;
        return;
      }
      if outstanding < 1 {
        ok := false;
        return;
      }
      var i := 0;
      while i < n && block[i] != b
        invariant 0 <= i <= n
        invariant b !in block[..i]
      {
        i := i + 1;
      }
      ghost var lh := Header();
      block[i] := b;
      if i == n {
        n := n + 1;
        assert Header() == lh + [b];
      } else {
        assert lh[i] == b;
        assert Header() == lh;
      }
      cache := cache[b := data];
      dirty := dirty + {b};
      ok := true;
    }

    /** The log as the group-commit machine has it in state s. */
    ghost predicate Shows(s: State)
      reads this, disk, block
    {
      && Valid() && s.disk == disk.image && s.cache == cache && s.dirty == dirty && s.lh == Header()
      && |s.ops| == outstanding && (s.phase == Idle <==> !committing)
    }
  }

  // ---- The methods are steps of the machine ----

  method BeginStep(log: Log, ghost s: State, ghost id: nat) returns (admitted: bool)
    requires log.Shows(s) && id !in s.used
    modifies log
    ensures admitted <==> Enabled(log.l, s, Begin(id))
    ensures log.Shows(if admitted then Apply(log.l, s, Begin(id)) else s)
  {
    admitted := log.BeginOp();
  }

  /** The caller changes the buffer it holds and calls log_write. */
  method WriteStep(log: Log, b: int, data: Block, ghost s: State, ghost i: nat) returns (ok: bool)
    requires log.Shows(s) && log.PinsHeader() && log.l.Home(b)
    requires Enabled(log.l, s, Store(i, b, data))
    modifies log, log.block
    ensures var t := Apply(log.l, s, Store(i, b, data));
            if ok then Enabled(log.l, t, Check(i, b)) && log.Shows(Apply(log.l, Apply(log.l, t, Check(i, b)), Append(i, b)))
            else Enabled(log.l, t, Panic(i, b)) && log.Shows(s)
  {
    ghost var t := Apply(log.l, s, Store(i, b, data));
    assert !Busy(t.ops[i]);
    ok := log.LogWrite(b, data);
  }

  method EndStep(log: Log, ghost s: State, ghost i: nat) returns (commits: bool)
    requires log.Shows(s) && Enabled(log.l, s, End(i))
    modifies log
    ensures log.Shows(Apply(log.l, s, End(i)))
    ensures commits <==> Apply(log.l, s, End(i)).phase != Idle
  {
    commits := log.EndOp();
  }
}
