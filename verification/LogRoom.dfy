/** Room in the log header: what begin_op's reservation is for, in a log region
    of any size, and what holds of a small region without it. */
module LogRoom {
  import opened Params
  import opened BlockDevice
  import opened LogFormat
  import opened GroupCommit
  import opened LogBooks

  // ---- Reserved log space ----

  lemma {:induction false} UnusedUpdate(ops: seq<Op>, i: nat, op: Op)
    requires i < |ops|
    ensures Unused(ops[i := op]) == Unused(ops) + ops[i].adds - op.adds
    decreases |ops|
  {
    var n := |ops| - 1;
    if i == n {
      assert ops[i := op][..n] == ops[..n];
    } else {
      assert ops[i := op][..n] == ops[..n][i := op];
      UnusedUpdate(ops[..n], i, op);
    }
  }

  lemma UnusedSnoc(ops: seq<Op>, op: Op)
    ensures Unused(ops + [op]) == Unused(ops) + MAXOPBLOCKS - op.adds
  {
    assert (ops + [op])[..|ops|] == ops;
  }

  lemma {:induction false} UnusedRemove(ops: seq<Op>, i: nat)
    requires i < |ops|
    ensures Unused(Without(ops, i)) == Unused(ops) - (MAXOPBLOCKS - ops[i].adds)
    decreases |ops|
  {
    var n := |ops| - 1;
    var r := Without(ops, i);
    if i == n {
      assert r == ops[..n];
    } else {
      assert r[..n - 1] == Without(ops[..n], i);
      UnusedRemove(ops[..n], i);
    }
  }

  lemma {:induction false} UnusedBounds(ops: seq<Op>)
    requires forall i :: 0 <= i < |ops| ==> ops[i].adds <= MAXOPBLOCKS
    ensures 0 <= Unused(ops) <= |ops| * MAXOPBLOCKS
    ensures forall i :: 0 <= i < |ops| ==> MAXOPBLOCKS - ops[i].adds <= Unused(ops)
    decreases |ops|
  {
    if ops != [] {
      UnusedBounds(ops[..|ops| - 1]);
    }
  }

  // ---- The invariant ----

  ghost predicate OpFits(l: Layout, op: Op) {
    && op.adds <= MAXOPBLOCKS && op.adds <= op.calls
    && (forall b :: b in op.held ==> l.Home(b))
  }

  /** The header block, and the buffer that caches it. */
  ghost predicate HeadOk(l: Layout, s: State) {
    && l.Fits() && |s.disk| == l.total
    && CountOk(s.disk[l.start]) && Listable(l, Entries(s.disk[l.start]))
    && (l.start in s.cache ==> s.cache[l.start] == s.disk[l.start])
  }

  ghost predicate Room(l: Layout, s: State) {
    && HeadOk(l, s) && Listable(l, s.lh)
    && (forall i :: 0 <= i < |s.ops| ==> OpFits(l, s.ops[i]))
    && |s.lh| + Unused(s.ops) <= LOGSIZE
  }

  lemma BootRoom(l: Layout, d: Image)
    requires DiskOk(l, d)
    ensures Room(l, Boot(d))
  {
  }

  // ---- Every step keeps it ----

  lemma BeginRoom(l: Layout, s: State, id: nat)
    requires Room(l, s) && Enabled(l, s, Begin(id))
    ensures Room(l, Apply(l, s, Begin(id)))
  {
    UnusedSnoc(s.ops, Op(id, 0, 0, map[]));
    UnusedBounds(s.ops);
  }

  predicate Handles(step: Step) {
    step.Lock? || step.Store? || step.Check? || step.Release?
  }

  /** An operation handles a buffer. */
  lemma HandleRoom(l: Layout, s: State, step: Step)
    requires Room(l, s) && Enabled(l, s, step) && Handles(step)
    ensures Room(l, Apply(l, s, step))
  {
    var t := Apply(l, s, step);
    assert OpFits(l, s.ops[step.i]);
    assert l.InLog(l.start) && l.Home(step.b);
    UnusedUpdate(s.ops, step.i, t.ops[step.i]);
  }

  lemma AppendRoom(l: Layout, s: State, i: nat, b: int)
    requires Room(l, s) && Enabled(l, s, Append(i, b)) && Within(MAXOPBLOCKS, s, Append(i, b))
    ensures Room(l, Apply(l, s, Append(i, b)))
  {
    var t := Logs(s, i, b);
    assert OpFits(l, s.ops[i]);
    UnusedUpdate(s.ops, i, t.ops[i]);
    UnusedBounds(s.ops);
  }

  lemma EndRoom(l: Layout, s: State, i: nat)
    requires Room(l, s) && Enabled(l, s, End(i))
    ensures Room(l, Apply(l, s, End(i)))
  {
    assert OpFits(l, s.ops[i]);
    UnusedRemove(s.ops, i);
  }

  lemma DiskRoom(l: Layout, s: State, step: Step)
    requires Room(l, s) && Enabled(l, s, step) && (s.phase.Idle? || s.phase.Panicked? || s.ops == [])
    requires step.LogBlock? || step.Install? || step.Reinstall? || step.Evict? || step.Panic? || step.Done?
    ensures Room(l, Apply(l, s, step))
  {
    assert l.InLog(l.start);
    if !step.Evict? && !step.Panic? && !step.Done? {
      assert l.Home(s.lh[s.phase.tail]) && Slot(l, s.phase.tail) != l.start;
    }
  }

  lemma HeadRoom(l: Layout, s: State, step: Step)
    requires Room(l, s) && Enabled(l, s, step) && (s.phase.Idle? || s.phase.Panicked? || s.ops == [])
    requires step.WriteHead? || step.Clear? || step.Reclear? || step.ReadHead? || step.Crash?
    ensures Room(l, Apply(l, s, step))
  {
  }

  lemma StepKeeps(l: Layout, s: State, step: Step)
    requires Books(s) && Room(l, s) && Enabled(l, s, step) && Within(MAXOPBLOCKS, s, step)
    ensures Room(l, Apply(l, s, step))
  {
    match step {
      case Begin(id) => BeginRoom(l, s, id);
      case Lock(_, _) => HandleRoom(l, s, step);
      case Store(_, _, _) => HandleRoom(l, s, step);
      case Check(_, _) => HandleRoom(l, s, step);
      case Release(_, _) => HandleRoom(l, s, step);
      case Append(i, b) => AppendRoom(l, s, i, b);
      case End(i) => EndRoom(l, s, i);
      case WriteHead => HeadRoom(l, s, step);
      case Clear => HeadRoom(l, s, step);
      case Reclear => HeadRoom(l, s, step);
      case ReadHead => HeadRoom(l, s, step);
      case Crash => HeadRoom(l, s, step);
      case _ => DiskRoom(l, s, step);
    }
  }

  lemma {:induction false} RunKeeps(l: Layout, k: nat, s: State, steps: seq<Step>, t: State)
    requires Books(s) && Room(l, s) && k <= MAXOPBLOCKS && Run(l, k, s, steps, t)
    ensures Books(t) && Room(l, t)
    decreases |steps|
  {
    if steps != [] {
      StepKeeps(l, s, steps[0]);
      LogBooks.StepKeeps(l, s, steps[0]);
      RunKeeps(l, k, Apply(l, s, steps[0]), steps[1..], t);
    }
  }

  /** Log-space reservation, in a region of any size: the header never overflows,
      lists home blocks, none twice, and always leaves room for what the
      operations in progress may still add. */
  lemma ReservationHolds(l: Layout, k: nat, d: Image, steps: seq<Step>, t: State)
    requires DiskOk(l, d) && k <= MAXOPBLOCKS && Run(l, k, Boot(d), steps, t)
    ensures Listable(l, t.lh)
    ensures |t.lh| + Unused(t.ops) <= LOGSIZE
    ensures forall i :: 0 <= i < |t.ops| ==> MAXOPBLOCKS - t.ops[i].adds <= Unused(t.ops)
  {
    BootBooks(d);
    BootRoom(l, d);
    RunKeeps(l, k, Boot(d), steps, t);
    UnusedBounds(t.ops);
  }

  /** An operation that has made fewer than MAXOPBLOCKS log_write calls does not
      panic in its next one, if the region is large enough for the header. */
  lemma NoPanic(l: Layout, k: nat, d: Image, steps: seq<Step>, t: State, i: nat, b: int)
    requires l.BigEnough() && DiskOk(l, d) && k <= MAXOPBLOCKS && Run(l, k, Boot(d), steps, t)
    requires i < |t.ops| && t.ops[i].calls < MAXOPBLOCKS
    ensures !Enabled(l, t, Panic(i, b))
  {
    BootBooks(d);
    BootRoom(l, d);
    RunKeeps(l, k, Boot(d), steps, t);
    assert OpFits(l, t.ops[i]);
    UnusedBounds(t.ops);
  }

  // ---- A small region, whatever the operations do ----

  /** How many operations are inside log_write. */
  ghost function Busies(ops: seq<Op>): nat {
    if ops == [] then 0 else Busies(ops[..|ops| - 1]) + if Busy(ops[|ops| - 1]) then 1 else 0
  }

  lemma {:induction false} BusiesUpdate(ops: seq<Op>, i: nat, op: Op)
    requires i < |ops|
    ensures Busies(ops[i := op]) + (if Busy(ops[i]) then 1 else 0) == Busies(ops) + if Busy(op) then 1 else 0
    decreases |ops|
  {
    var n := |ops| - 1;
    if i == n {
      assert ops[i := op][..n] == ops[..n];
    } else {
      assert ops[i := op][..n] == ops[..n][i := op];
      BusiesUpdate(ops[..n], i, op);
    }
  }

  lemma {:induction false} BusiesRemove(ops: seq<Op>, i: nat)
    requires i < |ops| && !Busy(ops[i])
    ensures Busies(Without(ops, i)) == Busies(ops)
    decreases |ops|
  {
    var n := |ops| - 1;
    var r := Without(ops, i);
    if i == n {
      assert r == ops[..n];
    } else {
      assert r[..n - 1] == Without(ops[..n], i);
      BusiesRemove(ops[..n], i);
    }
  }

  lemma {:induction false} BusiesBound(ops: seq<Op>)
    ensures Busies(ops) <= |ops|
    decreases |ops|
  {
    if ops != [] {
      BusiesBound(ops[..|ops| - 1]);
    }
  }

  /** A thread is inside one log_write at a time. */
  ghost predicate OneCheck(op: Op) {
    forall b, c :: b in op.held && c in op.held && op.held[b].checked && op.held[c].checked ==> b == c
  }

  /** At most three operations are in progress, so at most three get past the
      test with one slot left. */
  ghost predicate Crowd(l: Layout, s: State) {
    && |s.ops| <= 3 && 0 < l.size
    && (forall i :: 0 <= i < |s.ops| ==> OneCheck(s.ops[i]))
    && (if s.phase.Recovering? then |s.lh| <= LOGSIZE else |s.lh| + Busies(s.ops) <= l.size + 1)
  }

  lemma HandleCrowd(l: Layout, s: State, step: Step)
    requires Crowd(l, s) && Enabled(l, s, step) && Handles(step)
    ensures Crowd(l, Apply(l, s, step))
  {
    var t := Apply(l, s, step);
    assert OneCheck(s.ops[step.i]);
    BusiesUpdate(s.ops, step.i, t.ops[step.i]);
    BusiesBound(t.ops);
  }

  lemma AppendCrowd(l: Layout, s: State, i: nat, b: int)
    requires Crowd(l, s) && Enabled(l, s, Append(i, b))
    ensures Crowd(l, Apply(l, s, Append(i, b)))
  {
    var t := Logs(s, i, b);
    assert OneCheck(s.ops[i]) && Busy(s.ops[i]);
    assert !Busy(t.ops[i]);
    BusiesUpdate(s.ops, i, t.ops[i]);
  }

  lemma BeginCrowd(l: Layout, s: State, id: nat)
    requires Crowd(l, s) && Enabled(l, s, Begin(id))
    ensures Crowd(l, Apply(l, s, Begin(id)))
  {
    assert Apply(l, s, Begin(id)).ops[..|s.ops|] == s.ops;
  }

  lemma EndCrowd(l: Layout, s: State, i: nat)
    requires Crowd(l, s) && Enabled(l, s, End(i))
    ensures Crowd(l, Apply(l, s, End(i)))
  {
    BusiesRemove(s.ops, i);
  }

  lemma OtherCrowd(l: Layout, s: State, step: Step)
    requires Crowd(l, s) && Enabled(l, s, step) && (s.phase.Idle? || s.phase.Panicked? || s.ops == [])
    requires !Handles(step) && !step.Begin? && !step.Append? && !step.End?
    ensures Crowd(l, Apply(l, s, step))
  {
  }

  lemma CrowdKeeps(l: Layout, s: State, step: Step)
    requires Books(s) && Crowd(l, s) && Enabled(l, s, step)
    ensures Crowd(l, Apply(l, s, step))
  {
    if step.Begin? {
      BeginCrowd(l, s, step.id);
    } else if Handles(step) {
      HandleCrowd(l, s, step);
    } else if step.Append? {
      AppendCrowd(l, s, step.i, step.b);
    } else if step.End? {
      EndCrowd(l, s, step.i);
    } else {
      OtherCrowd(l, s, step);
    }
  }

  lemma {:induction false} CrowdRun(l: Layout, k: nat, s: State, steps: seq<Step>, t: State)
    requires Books(s) && Crowd(l, s) && Run(l, k, s, steps, t)
    ensures Crowd(l, t)
    decreases |steps|
  {
    if steps != [] {
      CrowdKeeps(l, s, steps[0]);
      LogBooks.StepKeeps(l, s, steps[0]);
      CrowdRun(l, k, Apply(l, s, steps[0]), steps[1..], t);
    }
  }

  /** With fewer than LOGSIZE blocks the region's own limit keeps the header
      from overflowing, however many blocks an operation enters. */
  lemma SmallRegionFits(l: Layout, k: nat, d: Image, steps: seq<Step>, t: State)
    requires 0 < l.size < LOGSIZE && Run(l, k, Boot(d), steps, t)
    ensures |t.lh| <= LOGSIZE
  {
    BootBooks(d);
    CrowdRun(l, k, Boot(d), steps, t);
  }
}
