/** Group commit as a step machine over the disk, the buffer cache, the
    in-memory log header and the file-system operations in progress. A crash
    may happen between any two steps, recovery included. */
module GroupCommit {
  import opened Params
  import opened BlockDevice
  import opened LogFormat

  /** One log_write call: operation `op` put `data` into `block`. */
  datatype Write = Write(op: nat, block: int, data: Block)

  /** A buffer an operation holds locked. `touched`: modified since the last
      log_write; `checked`: log_write has made its unlocked tests and has not
      yet taken log.lock. */
  datatype Hold = Hold(touched: bool, checked: bool)

  /** An operation between begin_op and end_op. `calls` counts its
      completed log_write calls, `adds` the blocks those calls newly entered in the header. */
  datatype Op = Op(id: nat, adds: nat, calls: nat, held: map<int, Hold>)

  datatype Phase =
    | Idle                    // log.committing == 0
    | Logging(tail: nat)      // write_log
    | Installing(tail: nat)   // install_trans, called from commit
    | Finishing               // commit has returned, committing still 1
    | Booting                 // before read_head
    | Recovering(tail: nat)   // install_trans, called from recover_from_log
    | Panicked                // "too big a transaction"

  /** `disk` .. `phase` are the system. The rest is history: the writes that
      are part of the committed file system, those of the open transaction,
      all writes ever issued, and the operations ever begun, those in the
      open transaction and those a crash has discarded. */
  datatype State = State(
    disk: Image,
    cache: map<int, Block>,
    dirty: set<int>,
    lh: seq<int>,
    ops: seq<Op>,
    phase: Phase,
    committed: seq<Write>,
    pending: seq<Write>,
    issued: seq<Write>,
    used: set<nat>,
    group: set<nat>,
    lost: set<nat>
  )

  datatype Step =
    | Begin(id: nat)
    | Lock(i: nat, b: int)
    | Store(i: nat, b: int, data: Block)
    | Check(i: nat, b: int)
    | Panic(i: nat, b: int)
    | Append(i: nat, b: int)
    | Release(i: nat, b: int)
    | End(i: nat)
    | LogBlock
    | WriteHead
    | Install
    | Clear
    | Done
    | Evict(b: int)
    | Crash
    | ReadHead
    | Reinstall
    | Reclear

  /** What bread(b) returns. */
  function View(s: State, b: int): Block
    requires 0 <= b < |s.disk|
  {
    if b in s.cache then s.cache[b] else s.disk[b]
  }

  predicate IsHeld(ops: seq<Op>, b: int) {
    exists i :: 0 <= i < |ops| && b in ops[i].held
  }

  predicate Touched(ops: seq<Op>, b: int) {
    exists i :: 0 <= i < |ops| && b in ops[i].held && ops[i].held[b].touched
  }

  /** The test at the top of log_write. */
  predicate TooBig(l: Layout, s: State) {
    |s.lh| >= LOGSIZE || |s.lh| >= l.size - 1
  }

  predicate Holds(s: State, i: nat, b: int) {
    i < |s.ops| && b in s.ops[i].held && b in s.cache
  }

  /** The thread of the operation is inside log_write, past its tests. */
  predicate Busy(op: Op) {
    exists b :: b in op.held && op.held[b].checked
  }

  predicate OnDisk(s: State, b: int) {
    0 <= b < |s.disk|
  }

  predicate Enabled(l: Layout, s: State, step: Step) {
    match step
    case Begin(id) =>
      s.phase == Idle && |s.lh| + (|s.ops| + 1) * MAXOPBLOCKS <= LOGSIZE && id !in s.used
    case Lock(i, b) =>
      s.phase == Idle && i < |s.ops| && l.Home(b) && OnDisk(s, b) && !IsHeld(s.ops, b) && !Busy(s.ops[i])
    case Store(i, b, data) =>
      s.phase == Idle && Holds(s, i, b) && !Busy(s.ops[i])
    case Check(i, b) =>
      s.phase == Idle && Holds(s, i, b) && !Busy(s.ops[i]) && !TooBig(l, s)
    case Panic(i, b) =>
      s.phase == Idle && Holds(s, i, b) && !Busy(s.ops[i]) && TooBig(l, s)
    case Append(i, b) =>
      s.phase == Idle && Holds(s, i, b) && s.ops[i].held[b].checked
    case Release(i, b) =>
      s.phase == Idle && Holds(s, i, b) && s.ops[i].held[b] == Hold(false, false) && !Busy(s.ops[i])
    case End(i) =>
      s.phase == Idle && i < |s.ops| && s.ops[i].held == map[]
    case LogBlock =>
      && s.phase.Logging? && s.phase.tail < |s.lh|
      && OnDisk(s, s.lh[s.phase.tail]) && OnDisk(s, Slot(l, s.phase.tail))
    case WriteHead =>
      s.phase == Logging(|s.lh|) && OnDisk(s, l.start) && |s.lh| <= LOGSIZE
    case Install =>
      && s.phase.Installing? && s.phase.tail < |s.lh|
      && OnDisk(s, s.lh[s.phase.tail]) && OnDisk(s, Slot(l, s.phase.tail))
    case Clear =>
      s.phase == Installing(|s.lh|) && OnDisk(s, l.start)
    case Done =>
      s.phase == Finishing
    case Evict(b) =>
      b in s.cache && b !in s.dirty && !IsHeld(s.ops, b)
    case Crash =>
      true
    case ReadHead =>
      s.phase == Booting && OnDisk(s, l.start) && CountOk(View(s, l.start))
    case Reinstall =>
      && s.phase.Recovering? && s.phase.tail < |s.lh|
      && OnDisk(s, s.lh[s.phase.tail]) && OnDisk(s, Slot(l, s.phase.tail))
    case Reclear =>
      s.phase == Recovering(|s.lh|) && OnDisk(s, l.start)
  }

  function SetHold(s: State, i: nat, b: int, h: Hold): seq<Op>
    requires i < |s.ops|
  {
    s.ops[i := s.ops[i].(held := s.ops[i].held[b := h])]
  }

  function Without(ops: seq<Op>, i: nat): (r: seq<Op>)
    requires i < |ops|
    ensures |r| == |ops| - 1
    ensures forall j :: 0 <= j < |r| ==> r[j] == ops[if j < i then j else j + 1]
  {
    ops[..i] + ops[i + 1..]
  }

  function Absorb(lh: seq<int>, b: int): seq<int> {
    if b in lh then lh else lh + [b]
  }

  function Logs(s: State, i: nat, b: int): State
    requires Holds(s, i, b)
  {
    var op := s.ops[i];
    var w := Write(op.id, b, s.cache[b]);
    s.(lh := Absorb(s.lh, b),
       dirty := s.dirty + {b},
       ops := s.ops[i := op.(held := op.held[b := Hold(false, false)],
                             adds := op.adds + if b in s.lh then 0 else 1,
                             calls := op.calls + 1)],
       pending := s.pending + [w],
       issued := s.issued + [w])
  }

  /** bread of the log block and of its home block, copy, bwrite home. */
  function CopyHome(l: Layout, s: State, t: nat, next: Phase): State
    requires t < |s.lh| && OnDisk(s, s.lh[t]) && OnDisk(s, Slot(l, t))
  {
    var b := s.lh[t];
    var data := View(s, Slot(l, t));
    s.(disk := s.disk[b := data],
       cache := s.cache[Slot(l, t) := data][b := data],
       dirty := s.dirty - {b},
       phase := next)
  }

  function PutHead(l: Layout, s: State, lh: seq<int>, next: Phase): State
    requires OnDisk(s, l.start) && |lh| <= LOGSIZE
  {
    var h := EncodeHead(View(s, l.start), lh);
    s.(disk := s.disk[l.start := h], cache := s.cache[l.start := h], lh := lh, phase := next)
  }

  function Apply(l: Layout, s: State, step: Step): State
    requires Enabled(l, s, step)
  {
    match step
    case Begin(id) =>
      s.(ops := s.ops + [Op(id, 0, 0, map[])], used := s.used + {id}, group := s.group + {id})
    case Lock(i, b) =>
      s.(cache := s.cache[b := View(s, b)], ops := SetHold(s, i, b, Hold(false, false)))
    case Store(i, b, data) =>
      s.(cache := s.cache[b := data], ops := SetHold(s, i, b, Hold(true, false)))
    case Check(i, b) =>
      s.(ops := SetHold(s, i, b, Hold(s.ops[i].held[b].touched, true)))
    case Panic(i, b) =>
      s.(phase := Panicked)
    case Append(i, b) =>
      Logs(s, i, b)
    case Release(i, b) =>
      s.(ops := s.ops[i := s.ops[i].(held := s.ops[i].held - {b})])
    case End(i) =>
      var ops := Without(s.ops, i);
      s.(ops := ops,
         phase := if ops != [] then Idle else if s.lh != [] then Logging(0) else Finishing)
    case LogBlock =>
      var t := s.phase.tail;
      var data := View(s, s.lh[t]);
      s.(disk := s.disk[Slot(l, t) := data],
         cache := s.cache[s.lh[t] := data][Slot(l, t) := data],
         phase := Logging(t + 1))
    case WriteHead =>
      PutHead(l, s, s.lh, Installing(0)).(committed := s.committed + s.pending, pending := [], group := {})
    case Install =>
      CopyHome(l, s, s.phase.tail, Installing(s.phase.tail + 1))
    case Clear =>
      PutHead(l, s, [], Finishing)
    case Done =>
      s.(phase := Idle, group := {})
    case Evict(b) =>
      s.(cache := s.cache - {b})
    case Crash =>
      s.(cache := map[], dirty := {}, lh := [], ops := [], phase := Booting,
         pending := [], group := {}, lost := s.lost + s.group)
    case ReadHead =>
      s.(lh := Entries(View(s, l.start)), cache := s.cache[l.start := View(s, l.start)], phase := Recovering(0))
    case Reinstall =>
      CopyHome(l, s, s.phase.tail, Recovering(s.phase.tail + 1))
    case Reclear =>
      PutHead(l, s, [], Idle)
  }

  /** A freshly booted machine on disk d. */
  function Boot(d: Image): State {
    State(d, map[], {}, [], [], Booting, [], [], [], {}, {}, {})
  }

  /** The operation that takes the step has entered at most k blocks with it. */
  predicate Within(k: nat, s: State, step: Step) {
    step.Append? && step.i < |s.ops| ==> step.b in s.lh || s.ops[step.i].adds < k
  }

  /** A run in which no operation enters more than k new blocks. begin_op
      reserves for MAXOPBLOCKS. */
  predicate Run(l: Layout, k: nat, s: State, steps: seq<Step>, t: State)
    decreases |steps|
  {
    if steps == [] then s == t
    else Enabled(l, s, steps[0]) && Within(k, s, steps[0]) && Run(l, k, Apply(l, s, steps[0]), steps[1..], t)
  }

  /** The contents of the disk if the writes went straight to it, in order. */
  function Replay(d: Image, ws: seq<Write>): (r: Image)
    ensures |r| == |d|
    decreases |ws|
  {
    if ws == [] then d
    else
      var w := ws[|ws| - 1];
      var p := Replay(d, ws[..|ws| - 1]);
      if 0 <= w.block < |p| then p[w.block := w.data] else p
  }

  /** The writes of one operation, in the order it made them. */
  function OfOp(ws: seq<Write>, id: nat): seq<Write> {
    if ws == [] then []
    else if ws[|ws| - 1].op == id then OfOp(ws[..|ws| - 1], id) + [ws[|ws| - 1]]
    else OfOp(ws[..|ws| - 1], id)
  }

  /** Log space reserved by the operations in progress and not yet used. */
  function Unused(ops: seq<Op>): int {
    if ops == [] then 0 else MAXOPBLOCKS - ops[|ops| - 1].adds + Unused(ops[..|ops| - 1])
  }
}
