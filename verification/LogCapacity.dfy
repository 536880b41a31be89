/** How large the log region must be, and how many blocks an operation may
    enter: exactly when the log is safe. mkfs makes the region LOGSIZE blocks,
    header included, which is one short. */
module LogCapacity {
  import opened Params
  import opened BlockDevice
  import opened LogFormat
  import opened GroupCommit
  import LogRoom
  import GroupCommitProof

  /** A log region followed by enough home blocks to fill it. */
  predicate Spacious(l: Layout, d: Image) {
    && 2 <= l.size
    && l.start + l.size + LOGSIZE < l.total
    && |d| == l.total
    && d[l.start][0] == 0
  }

  lemma SpaciousOk(l: Layout, d: Image)
    requires Spacious(l, d)
    ensures DiskOk(l, d)
  {
    assert Entries(d[l.start]) == [];
  }

  // ---- Reachable states ----

  lemma {:induction false} RunConcat(l: Layout, k: nat, s: State, a: seq<Step>, t: State, b: seq<Step>, u: State)
    requires Run(l, k, s, a, t) && Run(l, k, t, b, u)
    ensures Run(l, k, s, a + b, u)
    decreases |a|
  {
    if a == [] {
      assert a + b == b;
    } else {
      RunConcat(l, k, Apply(l, s, a[0]), a[1..], t, b, u);
      assert (a + b)[1..] == a[1..] + b;
    }
  }

  /** Some run from boot on disk d, in which no operation enters more than k new
      blocks, ends in state t. */
  ghost predicate Reachable(l: Layout, k: nat, d: Image, t: State) {
    exists steps :: Run(l, k, Boot(d), steps, t)
  }

  lemma Initially(l: Layout, k: nat, d: Image)
    ensures Reachable(l, k, d, Boot(d))
  {
    assert Run(l, k, Boot(d), [], Boot(d));
  }

  lemma Extend(l: Layout, k: nat, d: Image, t: State, step: Step)
    requires Reachable(l, k, d, t) && Enabled(l, t, step) && Within(k, t, step)
    ensures Reachable(l, k, d, Apply(l, t, step))
  {
    var steps :| Run(l, k, Boot(d), steps, t);
    var u := Apply(l, t, step);
    assert Run(l, k, u, [step][1..], u);
    RunConcat(l, k, Boot(d), steps, t, [step], u);
  }

  // ---- Three operations taking turns ----

  function Next(l: Layout, n: nat): int {
    l.start + l.size + n
  }

  /** Nothing has been committed since boot, and the header on disk is empty. */
  ghost predicate Fresh(l: Layout, s: State) {
    && l.start < |s.disk| == l.total && s.disk[l.start][0] == 0 && s.committed == []
    && (l.start in s.cache ==> s.cache[l.start] == s.disk[l.start])
  }

  /** The first n blocks after the log region are in the header, their buffers
      filled with data. */
  ghost predicate Logged3(l: Layout, s: State, n: nat, data: Block) {
    && |s.lh| == n
    && (forall k :: 0 <= k < n ==> s.lh[k] == Next(l, k) && s.lh[k] in s.cache && s.cache[s.lh[k]] == data)
  }

  /** The operation whose turn j is has logged a block in each of its turns
      before. Poised: it has changed block j and is past log_write's test. */
  ghost predicate Turn(l: Layout, s: State, j: nat, poised: bool, data: Block)
    requires |s.ops| == 3
  {
    && s.ops[j % 3].calls == s.ops[j % 3].adds == j / 3
    && s.ops[j % 3].held == (if poised then map[Next(l, j) := Hold(true, true)] else map[])
    && (poised ==> Next(l, j) in s.cache && s.cache[Next(l, j)] == data)
  }

  /** n turns are over and m more operations are poised. */
  ghost predicate Poised(l: Layout, s: State, n: nat, m: nat, data: Block)
    requires |s.ops| == 3
  {
    && s.phase == Idle && Fresh(l, s) && Logged3(l, s, n, data)
    && Turn(l, s, n, 0 < m, data) && Turn(l, s, n + 1, 1 < m, data) && Turn(l, s, n + 2, 2 < m, data)
  }

  /** Each operation has one of the next three turns. */
  lemma TurnOf(l: Layout, s: State, n: nat, m: nat, data: Block, i: nat) returns (j: nat)
    requires |s.ops| == 3 && Poised(l, s, n, m, data) && i < 3
    ensures n <= j < n + 3 && i == j % 3 && Turn(l, s, j, j < n + m, data)
  {
    j := if i == n % 3 then n else if i == (n + 1) % 3 then n + 1 else n + 2;
  }

  lemma BootTo(l: Layout, k: nat, d: Image) returns (t: State)
    requires Spacious(l, d)
    ensures Reachable(l, k, d, t)
    ensures t.phase == Idle && Fresh(l, t) && t.lh == [] && t.ops == [] && t.used == {}
  {
    Initially(l, k, d);
    t := Boot(d);
    Extend(l, k, d, t, ReadHead);
    t := Apply(l, t, ReadHead);
    assert t.lh == [];
    Extend(l, k, d, t, Reclear);
    t := Apply(l, t, Reclear);
  }

  lemma Start(l: Layout, k: nat, d: Image, data: Block) returns (t: State)
    requires Spacious(l, d)
    ensures Reachable(l, k, d, t) && |t.ops| == 3 && Poised(l, t, 0, 0, data)
  {
    t := BootTo(l, k, d);
    Extend(l, k, d, t, Begin(0));
    t := Apply(l, t, Begin(0));
    Extend(l, k, d, t, Begin(1));
    t := Apply(l, t, Begin(1));
    Extend(l, k, d, t, Begin(2));
    t := Apply(l, t, Begin(2));
  }

  /** The next operation locks the next block. */
  lemma LockNext(l: Layout, k: nat, d: Image, s: State, n: nat, m: nat, data: Block) returns (t: State)
    requires Spacious(l, d) && Reachable(l, k, d, s) && |s.ops| == 3 && Poised(l, s, n, m, data)
    requires m < 3 && n + m <= LOGSIZE
    ensures Enabled(l, s, Lock((n + m) % 3, Next(l, n + m))) && t == Apply(l, s, Lock((n + m) % 3, Next(l, n + m)))
    ensures Reachable(l, k, d, t) && Holds(t, (n + m) % 3, Next(l, n + m)) && !Busy(t.ops[(n + m) % 3])
  {
    var j := n + m;
    assert Turn(l, s, j, false, data);
    forall i | 0 <= i < 3
      ensures Next(l, j) !in s.ops[i].held
    {
      var a := TurnOf(l, s, n, m, data, i);
    }
    Extend(l, k, d, s, Lock(j % 3, Next(l, j)));
    t := Apply(l, s, Lock(j % 3, Next(l, j)));
  }

  lemma PoisedMore(l: Layout, s: State, t: State, n: nat, m: nat, data: Block)
    requires |s.ops| == 3 && |t.ops| == 3 && Poised(l, s, n, m, data) && m < 3 && l.start < Next(l, n + m)
    requires var i, b := (n + m) % 3, Next(l, n + m);
             && t == s.(cache := t.cache, ops := t.ops) && t.cache == s.cache[b := data]
             && t.ops == s.ops[i := s.ops[i].(held := map[b := Hold(true, true)])]
    ensures Poised(l, t, n, m + 1, data)
  {
    assert Turn(l, s, n + m, false, data);
    assert Logged3(l, t, n, data);
  }

  /** ... changes it and gets past log_write's test. */
  lemma PoiseNext(l: Layout, k: nat, d: Image, s: State, n: nat, m: nat, data: Block) returns (t: State)
    requires Spacious(l, d) && Reachable(l, k, d, s) && |s.ops| == 3 && Poised(l, s, n, m, data)
    requires m < 3 && n < LOGSIZE && n < l.size - 1 && n + m <= LOGSIZE
    ensures Reachable(l, k, d, t) && |t.ops| == 3 && Poised(l, t, n, m + 1, data)
  {
    var i, b := (n + m) % 3, Next(l, n + m);
    assert Turn(l, s, n + m, false, data);
    t := LockNext(l, k, d, s, n, m, data);
    t := StoreAndCheck(l, k, d, t, i, b, data);
    assert t.ops[i].held == map[b := Hold(true, true)];
    assert t.ops == s.ops[i := t.ops[i]];
    PoisedMore(l, s, t, n, m, data);
  }

  lemma StoreAndCheck(l: Layout, k: nat, d: Image, s: State, i: nat, b: int, data: Block) returns (t: State)
    requires Reachable(l, k, d, s) && s.phase == Idle && Holds(s, i, b) && !Busy(s.ops[i]) && !TooBig(l, s)
    ensures Reachable(l, k, d, t)
    ensures t == s.(cache := s.cache[b := data],
                    ops := s.ops[i := s.ops[i].(held := s.ops[i].held[b := Hold(true, false)][b := Hold(true, true)])])
  {
    Extend(l, k, d, s, Store(i, b, data));
    t := Apply(l, s, Store(i, b, data));
    assert !Busy(t.ops[i]);
    Extend(l, k, d, t, Check(i, b));
    t := Apply(l, t, Check(i, b));
  }

  /** The first of the poised operations appends and lets go of its block. */
  lemma LogNext(l: Layout, k: nat, d: Image, s: State, n: nat, m: nat, data: Block) returns (t: State)
    requires Spacious(l, d) && Reachable(l, k, d, s) && |s.ops| == 3 && Poised(l, s, n, m, data)
    requires 0 < m <= 3 && n / 3 < k
    ensures Reachable(l, k, d, t) && |t.ops| == 3 && Poised(l, t, n + 1, m - 1, data)
  {
    var i, b := n % 3, Next(l, n);
    assert b !in s.lh;
    Extend(l, k, d, s, Append(i, b));
    t := Apply(l, s, Append(i, b));
    assert t.ops[i].held == map[b := Hold(false, false)];
    Extend(l, k, d, t, Release(i, b));
    t := Apply(l, t, Release(i, b));
    assert t.ops[i].held == map[];
    assert Turn(l, t, n + 3, false, data);
  }

  lemma {:induction false} Fill(l: Layout, k: nat, d: Image, n: nat, data: Block) returns (t: State)
    requires Spacious(l, d) && n <= l.size - 1 && n <= LOGSIZE && MAXOPBLOCKS <= k
    ensures Reachable(l, k, d, t) && |t.ops| == 3 && Poised(l, t, n, 0, data)
    decreases n
  {
    if n == 0 {
      t := Start(l, k, d, data);
    } else {
      var s := Fill(l, k, d, n - 1, data);
      t := PoiseNext(l, k, d, s, n - 1, 0, data);
      t := LogNext(l, k, d, t, n - 1, 1, data);
    }
  }

  // ---- What a small region, or a large operation, leads to ----

  function SomeBlock(): Block {
    seq(BLOCK_WORDS, _ => 0)
  }

  /** With a log of LOGSIZE blocks or fewer, three operations that each stay
      within MAXOPBLOCKS log_write calls reach the panic. */
  lemma PanicReachable(l: Layout, d: Image) returns (t: State, i: nat, b: int)
    requires Spacious(l, d) && l.size <= LOGSIZE
    ensures Reachable(l, MAXOPBLOCKS, d, t)
    ensures i < |t.ops| && t.ops[i].calls < MAXOPBLOCKS && Enabled(l, t, Panic(i, b))
  {
    var n := l.size - 1;
    t := Fill(l, MAXOPBLOCKS, d, n, SomeBlock());
    i, b := n % 3, Next(l, n);
    assert Turn(l, t, n, false, SomeBlock());
    t := LockNext(l, MAXOPBLOCKS, d, t, n, 0, SomeBlock());
  }

  /** log_write tests the header's length before it takes log.lock. Two
      operations that both pass the test with one slot left both append, and
      the transaction no longer fits the log region. */
  lemma Overflow(l: Layout, d: Image, data: Block) returns (t: State)
    requires Spacious(l, d) && l.size <= LOGSIZE
    ensures Reachable(l, MAXOPBLOCKS, d, t) && |t.ops| == 3 && Poised(l, t, l.size, 0, data)
  {
    var n := l.size - 2;
    t := Fill(l, MAXOPBLOCKS, d, n, data);
    t := PoiseNext(l, MAXOPBLOCKS, d, t, n, 0, data);
    t := PoiseNext(l, MAXOPBLOCKS, d, t, n, 1, data);
    t := LogNext(l, MAXOPBLOCKS, d, t, n, 2, data);
    t := LogNext(l, MAXOPBLOCKS, d, t, n + 1, 1, data);
  }

  lemma OverflowReachable(l: Layout, d: Image) returns (t: State)
    requires Spacious(l, d) && l.size <= LOGSIZE
    ensures Reachable(l, MAXOPBLOCKS, d, t) && |t.lh| > l.size - 1
    ensures forall i :: 0 <= i < |t.ops| ==> t.ops[i].calls <= MAXOPBLOCKS
  {
    t := Overflow(l, d, SomeBlock());
    forall i | 0 <= i < |t.ops|
      ensures t.ops[i].calls <= MAXOPBLOCKS
    {
      var a := TurnOf(l, t, l.size, 0, SomeBlock(), i);
    }
  }

  /** An operation that enters more blocks than begin_op reserves for overflows
      the header in a region of LOGSIZE blocks or more: three operations pass the
      test with two entries left. */
  lemma HeaderOverflow(l: Layout, k: nat, d: Image) returns (t: State)
    requires Spacious(l, d) && l.size >= LOGSIZE && k > MAXOPBLOCKS
    ensures Reachable(l, k, d, t) && |t.lh| > LOGSIZE
  {
    var data, n := SomeBlock(), LOGSIZE - 2;
    t := Fill(l, k, d, n, data);
    t := PoiseNext(l, k, d, t, n, 0, data);
    t := PoiseNext(l, k, d, t, n, 1, data);
    t := PoiseNext(l, k, d, t, n, 2, data);
    t := LogNext(l, k, d, t, n, 3, data);
    t := LogNext(l, k, d, t, n + 1, 2, data);
    t := LogNext(l, k, d, t, n + 2, 1, data);
  }

  // ---- A corrupted disk ----

  /** The open transaction fills the region and one block more. */
  ghost predicate Full(l: Layout, s: State, data: Block) {
    Fresh(l, s) && Logged3(l, s, l.size, data)
  }

  lemma {:induction false} EndAll(l: Layout, k: nat, d: Image, s: State, data: Block) returns (t: State)
    requires Spacious(l, d) && Reachable(l, k, d, s) && s.phase == Idle && Full(l, s, data) && s.ops != []
    requires forall i :: 0 <= i < |s.ops| ==> s.ops[i].held == map[]
    ensures Reachable(l, k, d, t) && t.phase == Logging(0) && Full(l, t, data)
    decreases |s.ops|
  {
    Extend(l, k, d, s, End(0));
    t := Apply(l, s, End(0));
    if |s.ops| > 1 {
      t := EndAll(l, k, d, t, data);
    }
  }

  /** The last turn of write_log's loop writes the first block after the region. */
  lemma {:induction false} LogAll(l: Layout, k: nat, d: Image, s: State, n: nat, data: Block) returns (t: State)
    requires Spacious(l, d) && l.size <= LOGSIZE && Reachable(l, k, d, s) && Full(l, s, data)
    requires n < l.size && s.phase == Logging(n)
    ensures Reachable(l, k, d, t) && Fresh(l, t) && t.disk[Next(l, 0)] == data
    decreases l.size - n
  {
    assert s.lh[n] == Next(l, n);
    Extend(l, k, d, s, LogBlock);
    t := Apply(l, s, LogBlock);
    if n < l.size - 1 {
      t := LogAll(l, k, d, t, n + 1, data);
    }
  }

  /** In a region of LOGSIZE blocks or fewer a crash during write_log leaves a
      home block with the contents of another, though nothing was committed. */
  lemma CorruptReachable(l: Layout, d: Image) returns (t: State)
    requires Spacious(l, d) && l.size <= LOGSIZE
    ensures Reachable(l, MAXOPBLOCKS, d, t) && t.phase == Idle && t.ops == [] && t.committed == t.pending == []
    ensures |t.disk| == l.total && t.disk[l.start][0] == 0 && Next(l, 0) !in t.cache
    ensures t.disk[Next(l, 0)] != d[Next(l, 0)]
  {
    var was := d[Next(l, 0)];
    var data: Block := was[0 := was[0] + 1];
    assert data[0] != was[0];
    t := Overflow(l, d, data);
    var k := MAXOPBLOCKS;
    forall i | 0 <= i < |t.ops|
      ensures t.ops[i].held == map[]
    {
      var a := TurnOf(l, t, l.size, 0, data, i);
    }
    t := EndAll(l, k, d, t, data);
    t := LogAll(l, k, d, t, 0, data);
    t := Reboot(l, k, d, t);
  }

  lemma Reboot(l: Layout, k: nat, d: Image, s: State) returns (t: State)
    requires Spacious(l, d) && Reachable(l, k, d, s) && Fresh(l, s)
    ensures Reachable(l, k, d, t) && t.phase == Idle && t.ops == [] && t.committed == t.pending == []
    ensures |t.disk| == l.total && t.disk[l.start][0] == 0 && Next(l, 0) !in t.cache
    ensures t.disk[Next(l, 0)] == s.disk[Next(l, 0)]
  {
    Extend(l, k, d, s, Crash);
    t := Apply(l, s, Crash);
    Extend(l, k, d, t, ReadHead);
    t := Apply(l, t, ReadHead);
    assert t.lh == [];
    Extend(l, k, d, t, Reclear);
    t := Apply(l, t, Reclear);
  }

  // ---- The exact conditions ----

  /** No operation that keeps to MAXOPBLOCKS log_write calls ever panics, in any
      run, exactly when the log region is larger than LOGSIZE. */
  lemma PanicFreeExactly(l: Layout, d: Image)
    requires Spacious(l, d)
    ensures l.size > LOGSIZE <==>
            forall t, i: nat, b :: Reachable(l, MAXOPBLOCKS, d, t) && i < |t.ops| && t.ops[i].calls < MAXOPBLOCKS ==>
              !Enabled(l, t, Panic(i, b))
  {
    if l.size > LOGSIZE {
      SpaciousOk(l, d);
      forall t, i: nat, b | Reachable(l, MAXOPBLOCKS, d, t) && i < |t.ops| && t.ops[i].calls < MAXOPBLOCKS
        ensures !Enabled(l, t, Panic(i, b))
      {
        var steps :| Run(l, MAXOPBLOCKS, Boot(d), steps, t);
        LogRoom.NoPanic(l, MAXOPBLOCKS, d, steps, t, i, b);
      }
    } else {
      var t, i, b := PanicReachable(l, d);
    }
  }

  /** The transaction fits the log region in every run exactly when the region
      is larger than LOGSIZE. */
  lemma LogFitsExactly(l: Layout, d: Image)
    requires Spacious(l, d)
    ensures l.size > LOGSIZE <==> forall t :: Reachable(l, MAXOPBLOCKS, d, t) ==> |t.lh| <= l.size - 1
  {
    if l.size > LOGSIZE {
      SpaciousOk(l, d);
      forall t | Reachable(l, MAXOPBLOCKS, d, t)
        ensures |t.lh| <= l.size - 1
      {
        var steps :| Run(l, MAXOPBLOCKS, Boot(d), steps, t);
        LogRoom.ReservationHolds(l, MAXOPBLOCKS, d, steps, t);
      }
    } else {
      var t := OverflowReachable(l, d);
    }
  }

  /** Every state that can be reached recovers to the starting contents with the
      committed writes replayed, exactly when the region is larger than LOGSIZE. */
  lemma CrashSafeExactly(l: Layout, d: Image)
    requires Spacious(l, d)
    ensures DiskOk(l, d)
    ensures l.size > LOGSIZE <==>
            forall t :: Reachable(l, MAXOPBLOCKS, d, t) ==>
              DiskOk(l, t.disk) && SameHome(l, Recovered(l, t.disk), Replay(Recovered(l, d), t.committed))
  {
    SpaciousOk(l, d);
    if l.size > LOGSIZE {
      forall t | Reachable(l, MAXOPBLOCKS, d, t)
        ensures DiskOk(l, t.disk) && SameHome(l, Recovered(l, t.disk), Replay(Recovered(l, d), t.committed))
      {
        var steps :| Run(l, MAXOPBLOCKS, Boot(d), steps, t);
        GroupCommitProof.CrashSafety(l, MAXOPBLOCKS, d, steps, t);
      }
    } else {
      var t := CorruptReachable(l, d);
      SpaciousOk(l, t.disk);
      RecoveredEmpty(l, d);
      RecoveredEmpty(l, t.disk);
      assert l.Home(Next(l, 0));
    }
  }

  /** Between commits a block nobody is modifying reads as last logged, in every
      run, exactly when the region is larger than LOGSIZE. */
  lemma ReadsRightExactly(l: Layout, d: Image)
    requires Spacious(l, d)
    ensures DiskOk(l, d)
    ensures l.size > LOGSIZE <==>
            forall t, b :: Reachable(l, MAXOPBLOCKS, d, t) && t.phase.Idle? && l.Home(b) && !Touched(t.ops, b) ==>
              b < |t.disk| && View(t, b) == Replay(Recovered(l, d), t.committed + t.pending)[b]
  {
    SpaciousOk(l, d);
    if l.size > LOGSIZE {
      forall t, b | Reachable(l, MAXOPBLOCKS, d, t) && t.phase.Idle? && l.Home(b) && !Touched(t.ops, b)
        ensures b < |t.disk| && View(t, b) == Replay(Recovered(l, d), t.committed + t.pending)[b]
      {
        var steps :| Run(l, MAXOPBLOCKS, Boot(d), steps, t);
        GroupCommitProof.ReadsSeeLoggedWrites(l, MAXOPBLOCKS, d, steps, t, b);
      }
    } else {
      var t := CorruptReachable(l, d);
      RecoveredEmpty(l, d);
      var b := Next(l, 0);
      assert l.Home(b) && !Touched(t.ops, b);
      assert View(t, b) != Replay(Recovered(l, d), t.committed + t.pending)[b];
    }
  }

  /** The header never overflows, in any run, exactly when no operation enters
      more blocks than begin_op reserves for, or the region is so small that its
      own limit strikes first. */
  lemma HeaderFitsExactly(l: Layout, k: nat, d: Image)
    requires Spacious(l, d)
    ensures k <= MAXOPBLOCKS || l.size < LOGSIZE <==> forall t :: Reachable(l, k, d, t) ==> |t.lh| <= LOGSIZE
  {
    if k <= MAXOPBLOCKS || l.size < LOGSIZE {
      SpaciousOk(l, d);
      forall t | Reachable(l, k, d, t)
        ensures |t.lh| <= LOGSIZE
      {
        var steps :| Run(l, k, Boot(d), steps, t);
        if k <= MAXOPBLOCKS {
          LogRoom.ReservationHolds(l, k, d, steps, t);
        } else {
          LogRoom.SmallRegionFits(l, k, d, steps, t);
        }
      }
    } else {
      var t := HeaderOverflow(l, k, d);
    }
  }

  /** The data blocks that filewrite puts into one operation, bitmap, indirect and
      inode blocks aside. */
  function FileWriteBlocks(): nat {
    (LOGSIZE - 1 - 1 - 2) / 2
  }

  /** filewrite sizes its operations from LOGSIZE: more than begin_op reserves for,
      so on the disk that mkfs makes the header overflows. */
  lemma FileWriteOverflows(l: Layout, d: Image) returns (t: State)
    requires Spacious(l, d) && l.size == LOGSIZE
    ensures FileWriteBlocks() == 13 > MAXOPBLOCKS && Reachable(l, FileWriteBlocks(), d, t) && |t.lh| > LOGSIZE
  {
    t := HeaderOverflow(l, FileWriteBlocks(), d);
  }
}
