/** The history of the group-commit machine: what is all or nothing about an
    operation, in a log of any size and for operations of any length. */
module LogBooks {
  import opened BlockDevice
  import opened LogFormat
  import opened GroupCommit

  // ---- Selecting writes ----

  lemma OfOpSnoc(ws: seq<Write>, w: Write, id: nat)
    ensures OfOp(ws + [w], id) == if w.op == id then OfOp(ws, id) + [w] else OfOp(ws, id)
  {
    assert (ws + [w])[..|ws|] == ws;
  }

  lemma {:induction false} OfOpConcat(a: seq<Write>, p: seq<Write>, id: nat)
    ensures OfOp(a + p, id) == OfOp(a, id) + OfOp(p, id)
    decreases |p|
  {
    if p == [] {
      assert a + p == a;
    } else {
      var q := p[..|p| - 1];
      OfOpConcat(a, q, id);
      assert a + p == (a + q) + [p[|p| - 1]];
      OfOpSnoc(a + q, p[|p| - 1], id);
    }
  }

  // ---- The invariant ----

  /** Phases in which the open transaction is still in memory only. */
  predicate Open(p: Phase) {
    p.Idle? || p.Panicked? || p.Logging?
  }

  ghost predicate HistoryOf(s: State, id: nat) {
    && (id in s.group ==> OfOp(s.committed, id) == [] && OfOp(s.issued, id) == OfOp(s.pending, id))
    && (id in s.lost ==> OfOp(s.committed, id) == [] && OfOp(s.pending, id) == [])
    && (id !in s.group && id !in s.lost ==> OfOp(s.pending, id) == [] && OfOp(s.issued, id) == OfOp(s.committed, id))
  }

  ghost predicate History(s: State) {
    && s.group <= s.used
    && s.lost <= s.used
    && s.group !! s.lost
    && (forall id: nat :: id !in s.used ==> OfOp(s.issued, id) == [])
    && (forall id: nat :: HistoryOf(s, id))
  }

  /** Who is in progress, and what the open transaction has in it. */
  ghost predicate Books(s: State) {
    && (s.phase.Idle? || s.phase.Panicked? || s.ops == [])
    && (Open(s.phase) || s.pending == [])
    && (forall i :: 0 <= i < |s.ops| ==> s.ops[i].id in s.group)
    && (forall i, j :: 0 <= i < |s.ops| && 0 <= j < |s.ops| && i != j ==> s.ops[i].id != s.ops[j].id)
    && (forall k :: 0 <= k < |s.pending| ==> s.pending[k].block in s.lh)
    && History(s)
  }

  // ---- Every step keeps it ----

  /** Steps that issue and commit nothing leave the history alone. */
  lemma HistorySame(s: State, t: State)
    requires History(s)
    requires t.committed == s.committed && t.pending == s.pending && t.issued == s.issued
    requires t.used == s.used && t.group == s.group && t.lost == s.lost
    ensures History(t)
  {
    forall id: nat ensures HistoryOf(t, id) {
      assert HistoryOf(s, id);
    }
  }

  lemma BeginHistory(s: State, t: State, id: nat)
    requires History(s) && id !in s.used
    requires t.committed == s.committed && t.pending == s.pending && t.issued == s.issued
    requires t.used == s.used + {id} && t.group == s.group + {id} && t.lost == s.lost
    ensures History(t)
  {
    assert HistoryOf(s, id);
    forall k: nat ensures HistoryOf(t, k) {
      assert HistoryOf(s, k);
    }
  }

  lemma AppendHistory(s: State, t: State, w: Write)
    requires History(s) && w.op in s.group
    requires t.committed == s.committed && t.pending == s.pending + [w] && t.issued == s.issued + [w]
    requires t.used == s.used && t.group == s.group && t.lost == s.lost
    ensures History(t)
  {
    forall k: nat ensures HistoryOf(t, k) {
      assert HistoryOf(s, k);
      OfOpSnoc(s.pending, w, k);
      OfOpSnoc(s.issued, w, k);
    }
    forall k: nat | k !in t.used ensures OfOp(t.issued, k) == [] {
      OfOpSnoc(s.issued, w, k);
    }
  }

  lemma CommitHistory(s: State, t: State)
    requires History(s)
    requires t.committed == s.committed + s.pending && t.pending == [] && t.issued == s.issued
    requires t.used == s.used && t.group == {} && t.lost == s.lost
    ensures History(t)
  {
    forall id: nat ensures HistoryOf(t, id) {
      assert HistoryOf(s, id);
      OfOpConcat(s.committed, s.pending, id);
    }
  }

  /** The group is dissolved, or lost, with nothing of it pending. */
  lemma DropHistory(s: State, t: State)
    requires History(s) && t.committed == s.committed && t.pending == [] && t.issued == s.issued && t.used == s.used
    requires t.group == {} && (t.lost == s.lost + s.group || (s.pending == [] && t.lost == s.lost))
    ensures History(t)
  {
    forall id: nat ensures HistoryOf(t, id) {
      assert HistoryOf(s, id);
    }
  }

  lemma AppendBooks(l: Layout, s: State, i: nat, b: int)
    requires Books(s) && Enabled(l, s, Append(i, b))
    ensures Books(Apply(l, s, Append(i, b)))
  {
    var t := Logs(s, i, b);
    AppendHistory(s, t, Write(s.ops[i].id, b, s.cache[b]));
    forall k | 0 <= k < |t.pending| ensures t.pending[k].block in t.lh {
      if k < |s.pending| {
        assert t.pending[k] == s.pending[k] && s.pending[k].block in s.lh;
      }
    }
  }

  lemma EndBooks(l: Layout, s: State, i: nat)
    requires Books(s) && Enabled(l, s, End(i))
    ensures Books(Apply(l, s, End(i)))
  {
    var t := Apply(l, s, End(i));
    assert s.pending != [] ==> s.pending[0].block in s.lh;
    HistorySame(s, t);
  }

  predicate Quiet(step: Step) {
    !(step.Begin? || step.Append? || step.End? || step.WriteHead? || step.Done? || step.Crash?)
  }

  lemma QuietBooks(l: Layout, s: State, step: Step)
    requires Books(s) && Enabled(l, s, step) && Quiet(step)
    ensures Books(Apply(l, s, step))
  {
    HistorySame(s, Apply(l, s, step));
  }

  lemma StepKeeps(l: Layout, s: State, step: Step)
    requires Books(s) && Enabled(l, s, step)
    ensures Books(Apply(l, s, step))
  {
    var t := Apply(l, s, step);
    match step {
      case Begin(id) => BeginHistory(s, t, id);
      case Append(i, b) => AppendBooks(l, s, i, b);
      case End(i) => EndBooks(l, s, i);
      case WriteHead => CommitHistory(s, t);
      case Done => DropHistory(s, t);
      case Crash => DropHistory(s, t);
      case _ => QuietBooks(l, s, step);
    }
  }

  lemma {:induction false} RunKeeps(l: Layout, k: nat, s: State, steps: seq<Step>, t: State)
    requires Books(s) && Run(l, k, s, steps, t)
    ensures Books(t)
    decreases |steps|
  {
    if steps != [] {
      StepKeeps(l, s, steps[0]);
      RunKeeps(l, k, Apply(l, s, steps[0]), steps[1..], t);
    }
  }

  lemma BootBooks(d: Image)
    ensures Books(Boot(d))
  {
    forall id: nat ensures HistoryOf(Boot(d), id) {
    }
  }

  /** Every operation is all or nothing: of the writes it ever issued, either
      all are committed, in order, or none is; an operation that a crash
      discarded has none, and one that is neither discarded nor part of the
      open transaction has all. */
  lemma AllOrNothing(l: Layout, k: nat, d: Image, steps: seq<Step>, t: State, id: nat)
    requires Run(l, k, Boot(d), steps, t)
    ensures OfOp(t.committed, id) == [] || OfOp(t.committed, id) == OfOp(t.issued, id)
    ensures id in t.lost ==> OfOp(t.committed, id) == []
    ensures id !in t.lost && id !in t.group ==> OfOp(t.committed, id) == OfOp(t.issued, id)
    ensures t.phase.Idle? && t.ops == [] && t.pending == [] && id !in t.lost ==>
              OfOp(t.committed, id) == OfOp(t.issued, id)
  {
    BootBooks(d);
    RunKeeps(l, k, Boot(d), steps, t);
    assert HistoryOf(t, id);
  }
}
