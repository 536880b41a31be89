/** A commit or a recovery that has begun can always be finished. */
module LogProgress {
  import opened Params
  import opened BlockDevice
  import opened LogFormat
  import opened GroupCommit
  import opened LogBooks
  import opened LogRoom
  import opened GroupCommitProof

  /** A commit or a recovery is under way. */
  predicate Working(p: Phase) {
    !p.Idle? && !p.Panicked?
  }

  /** What it does next. */
  function Next(s: State): Step {
    match s.phase
    case Booting => ReadHead
    case Recovering(t) => if t < |s.lh| then Reinstall else Reclear
    case Logging(t) => if t < |s.lh| then LogBlock else WriteHead
    case Installing(t) => if t < |s.lh| then Install else Clear
    case _ => Done
  }

  lemma NextEnabled(l: Layout, base: Image, s: State)
    requires Inv(l, base, s) && Working(s.phase)
    ensures Enabled(l, s, Next(s)) && Within(0, s, Next(s))
  {
    assert DiskOk(l, s.disk) && l.BigEnough();
    if s.phase == Booting {
      HeadReadable(l, s);
    }
  }

  lemma HeadReadable(l: Layout, s: State)
    requires l.BigEnough() && DiskOk(l, s.disk) && Clean(s) && s.dirty == {} && s.ops == []
    ensures 0 <= l.start < |s.disk| && CountOk(View(s, l.start))
  {
  }

  function Rank(p: Phase): nat {
    match p
    case Booting => 5
    case Recovering(_) => 4
    case Logging(_) => 3
    case Installing(_) => 2
    case Finishing => 1
    case _ => 0
  }

  function ToDo(s: State): int {
    match s.phase
    case Recovering(t) => |s.lh| - t
    case Logging(t) => |s.lh| - t
    case Installing(t) => |s.lh| - t
    case _ => 0
  }

  lemma NextNearer(l: Layout, base: Image, s: State, t: State)
    requires Inv(l, base, s) && Working(s.phase) && Enabled(l, s, Next(s)) && t == Apply(l, s, Next(s))
    ensures Rank(t.phase) < Rank(s.phase) || (Rank(t.phase) == Rank(s.phase) && 0 <= ToDo(t) < ToDo(s))
    ensures !t.phase.Panicked? && (t.phase.Idle? ==> t.lh == [] && t.pending == [])
    ensures t.committed + (if t.phase.Logging? then t.pending else []) ==
            s.committed + (if s.phase.Logging? then s.pending else [])
  {
  }

  /** From wherever a commit or a recovery is, its own steps lead to an idle log:
      all of the transaction is then committed, the header is empty, and every
      committed write is at home on the disk. */
  lemma {:induction false} Settles(l: Layout, base: Image, s: State) returns (steps: seq<Step>, t: State)
    requires Inv(l, base, s) && Working(s.phase)
    ensures Run(l, 0, s, steps, t) && t.phase == Idle && t.lh == [] && t.pending == []
    ensures t.committed == s.committed + if s.phase.Logging? then s.pending else []
    ensures SameHome(l, t.disk, Replay(base, t.committed))
    decreases Rank(s.phase), ToDo(s)
  {
    NextEnabled(l, base, s);
    var a := Next(s);
    var u := Apply(l, s, a);
    NextNearer(l, base, s, u);
    GroupCommitProof.StepKeeps(l, base, s, a);
    if u.phase == Idle {
      steps, t := [a], u;
      AllHome(l, base, u);
    } else {
      steps, t := Settles(l, base, u);
      steps := [a] + steps;
    }
  }

  lemma AllHome(l: Layout, base: Image, t: State)
    requires Inv(l, base, t) && t.phase == Idle
    ensures SameHome(l, t.disk, Replay(base, t.committed))
  {
    RecoveredEmpty(l, t.disk);
  }

  /** So after a crash at any point of a run the log can be brought back to work,
      with everything committed at home. */
  lemma CrashSettles(l: Layout, k: nat, d: Image, run: seq<Step>, s: State) returns (steps: seq<Step>, t: State)
    requires l.BigEnough() && DiskOk(l, d) && k <= MAXOPBLOCKS && Run(l, k, Boot(d), run, s)
    ensures Run(l, 0, Apply(l, s, Crash), steps, t) && t.phase == Idle && t.lh == [] && t.committed == s.committed
    ensures SameHome(l, t.disk, Replay(Recovered(l, d), s.committed))
  {
    BootInv(l, d);
    GroupCommitProof.RunKeeps(l, k, Recovered(l, d), Boot(d), run, s);
    GroupCommitProof.StepKeeps(l, Recovered(l, d), s, Crash);
    steps, t := Settles(l, Recovered(l, d), Apply(l, s, Crash));
  }
}
