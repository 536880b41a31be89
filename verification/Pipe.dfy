/** Pipes: a ring of 512 bytes with counters that wrap around at 2^32. */
module PipeState {
  import opened Params
  import opened Monitors
  import opened MonitorActs

  /** The counters stand for how much has been stored and delivered in all. */
  ghost predicate Counts(stored: seq<int>, delivered: seq<int>, nwrite: nat, nread: nat) {
    && delivered <= stored && |stored| - |delivered| <= PIPESIZE
    && nwrite == |stored| % WORD && nread == |delivered| % WORD
  }

  /** What is stored and not yet delivered is in the ring. */
  ghost predicate Holds(data: seq<int>, stored: seq<int>, delivered: seq<int>) {
    |data| == PIPESIZE && forall k :: |delivered| <= k < |stored| ==> data[k % PIPESIZE] == stored[k]
  }

  /** The tests for full and empty are right even after the counters have
      wrapped around. */
  lemma Tests(stored: seq<int>, delivered: seq<int>, nwrite: nat, nread: nat)
    requires Counts(stored, delivered, nwrite, nread)
    ensures nwrite == (nread + PIPESIZE) % WORD <==> |stored| - |delivered| == PIPESIZE
    ensures nread == nwrite <==> |stored| == |delivered|
    ensures (nwrite - nread) % WORD == |stored| - |delivered|
    ensures nwrite % PIPESIZE == |stored| % PIPESIZE && nread % PIPESIZE == |delivered| % PIPESIZE
  {
    var a, b := |stored|, |delivered|;
    SlotOf(a);
    SlotOf(b);
    assert a == a / WORD * WORD + a % WORD && b == b / WORD * WORD + b % WORD;
    var d := a - b;
    assert (a % WORD - b % WORD) % WORD == d by {
      assert a % WORD - b % WORD == d - (a / WORD - b / WORD) * WORD;
      Cycle(d, b / WORD - a / WORD);
    }
  }

  /** 512 divides 2^32, so the slot does not depend on how often it wrapped. */
  lemma SlotOf(n: nat)
    ensures n % WORD % PIPESIZE == n % PIPESIZE
  {
  }

  lemma Cycle(d: nat, k: int)
    requires d < WORD
    ensures (d + k * WORD) % WORD == d
  {
  }

  lemma Advance(n: nat, c: nat)
    requires c == n % WORD
    ensures (c + 1) % WORD == (n + 1) % WORD
  {
  }

  /** The pipe as a monitor's value has the bytes stored and not delivered. */
  lemma ViewFilled(v: Val, stored: seq<int>, delivered: seq<int>)
    requires v.PipeVal? && Counts(stored, delivered, v.nwrite, v.nread)
    ensures PipeOk(v) && Filled(v) == |stored| - |delivered|
  {
    Tests(stored, delivered, v.nwrite, v.nread);
  }

  lemma AdvanceBy(n: nat, k: nat)
    ensures ((n + k) % WORD + 1) % WORD == (n + (k + 1)) % WORD
  {
  }

  lemma WroteOn(v: Val, k: nat)
    requires v.PipeVal?
    ensures Wrote(Wrote(v, k), 1) == Wrote(v, k + 1)
  {
    AdvanceBy(v.nwrite, k);
  }

  lemma TookOn(v: Val, k: nat)
    requires v.PipeVal?
    ensures Took(Took(v, k), 1) == Took(v, k + 1)
  {
    AdvanceBy(v.nread, k);
  }

  /** What pipewrite has done when it stops after k of n bytes. */
  lemma WriteDone(v: Val, w: Val, n: nat, k: nat, killed: bool, acts: seq<Act>)
    requires PipeOk(v) && k <= n && w == Wrote(v, k) && Filled(v) + k <= PIPESIZE && (k < n ==> Filled(v) + k == PIPESIZE)
    requires acts == Puts(v, k) + if k == n then [Notify(NREAD), Leave]
                                  else if !v.readopen || killed then [Leave] else [Notify(NREAD), Sleep(NWRITE)]
    ensures acts == WriteActs(v, n, killed)
    ensures Play(Inside(v, {}), acts) == Inside(w, if Forgets(v, n, killed) then {NREAD} else {})
  {
    WriteOwes(v, n, killed);
  }

  lemma Bounded(stored: seq<int>, delivered: seq<int>, nwrite: nat, nread: nat)
    requires Counts(stored, delivered, nwrite, nread)
    ensures (nwrite - nread) % WORD <= PIPESIZE
  {
    Tests(stored, delivered, nwrite, nread);
  }

  /** Different bytes in the ring have different slots. */
  lemma Slots(j: nat, k: nat)
    requires j < k < j + PIPESIZE
    ensures j % PIPESIZE != k % PIPESIZE
  {
  }
}

module Pipe {
  import opened Params
  import opened Monitors
  import opened MonitorActs
  import opened PipeState

  /** How a run of pipewrite or piperead under the lock ended. */
  datatype Outcome = Finished | Sleeping | Failed

  class Pipe {
    var data: seq<int>
    var nread: nat
    var nwrite: nat
    var readopen: bool
    var writeopen: bool
    ghost var stored: seq<int>       // every byte pipewrite has put in
    ghost var delivered: seq<int>    // every byte piperead has taken out
    ghost var acts: seq<Act>         // what has been done since the lock was taken

    ghost predicate Valid()
      reads this
    {
      Counts(stored, delivered, nwrite, nread) && Holds(data, stored, delivered)
    }

    /** The pipe as a monitor's value. */
    ghost function View(): (v: Val)
      reads this
    {
      PipeVal(nread, nwrite, readopen, writeopen)
    }

    constructor ()
      ensures Valid() && readopen && writeopen && stored == [] && delivered == []
    {
      data := seq(PIPESIZE, _ => 0);
      nread, nwrite := 0, 0;
      readopen, writeopen := true, true;
      stored, delivered, acts := [], [], [];
    }

    method IsFull() returns (full: bool)
      requires Valid()
      ensures full <==> |stored| - |delivered| == PIPESIZE
    {
      Tests(stored, delivered, nwrite, nread);
      full := nwrite == (nread + PIPESIZE) % WORD;
    }

    method IsEmpty() returns (empty: bool)
      requires Valid()
      ensures empty <==> |stored| == |delivered|
    {
      Tests(stored, delivered, nwrite, nread);
      empty := nread == nwrite;
    }

    method Put(b: int)
      requires Valid() && |stored| - |delivered| < PIPESIZE
      modifies this`data, this`nwrite, this`stored, this`acts
      ensures Valid() && stored == old(stored) + [b]
      ensures View() == Wrote(old(View()), 1) && acts == old(acts) + [Set(View())]
    {
      Tests(stored, delivered, nwrite, nread);
      Advance(|stored|, nwrite);
      forall k | |delivered| <= k < |stored|
        ensures k % PIPESIZE != |stored| % PIPESIZE
      {
        Slots(k, |stored|);
      }
      data := data[nwrite % PIPESIZE := b];
      nwrite := (nwrite + 1) % WORD;
      stored := stored + [b];
      acts := acts + [Set(View())];
    }

    method Get() returns (b: int)
      requires Valid() && |delivered| < |stored|
      modifies this`nread, this`delivered, this`acts
      ensures Valid() && b == stored[|old(delivered)|] && delivered == old(delivered) + [b]
      ensures View() == Took(old(View()), 1) && acts == old(acts) + [Set(View())]
    {
      Tests(stored, delivered, nwrite, nread);
      Advance(|delivered|, nread);
      b := data[nread % PIPESIZE];
      nread := (nread + 1) % WORD;
      delivered := delivered + [b];
      acts := acts + [Set(View())];
    }

    /** pipewrite from byte i of src on, until it is done, has to sleep because
        the pipe is full, or gives up. It leaves a wakeup due exactly when the
        pipe was empty, more is to be written than fits, and the writer has been
        killed or no reader is left: then sleeping readers are forgotten. */
    method Write(src: seq<int>, i: nat, killed: bool) returns (j: nat, out: Outcome)
      requires Valid() && i <= |src|
      modifies this`data, this`nwrite, this`stored, this`acts
      ensures Valid() && i <= j <= |src| && stored == old(stored) + src[i..j]
      ensures out.Finished? <==> j == |src|
      ensures !out.Finished? ==> |stored| - |delivered| == PIPESIZE && (out.Failed? <==> !readopen || killed)
      ensures PipeOk(old(View())) && acts == WriteActs(old(View()), |src| - i, killed)
      ensures Play(Inside(old(View()), {}), acts)
              == Inside(View(), if old(|stored| == |delivered|) && writeopen && (killed || !readopen) && |src| - i > PIPESIZE
                                then {NREAD} else {})
    {
      ghost var v := View();
      ViewFilled(v, stored, delivered);
      j := Fill(src, i);
      assert |src[i..j]| == j - i;
      if j < |src| {
        if !readopen || killed {
          acts := acts + [Leave];
          out := Failed;
        } else {
          acts := acts + [Notify(NREAD), Sleep(NWRITE)];
          out := Sleeping;
        }
      } else {
        acts := acts + [Notify(NREAD), Leave];
        out := Finished;
      }
      WriteDone(v, View(), |src| - i, j - i, killed, acts);
    }

    /** The loop of pipewrite, until all is stored or the pipe is full. */
    method Fill(src: seq<int>, i: nat) returns (j: nat)
      requires Valid() && i <= |src|
      modifies this`data, this`nwrite, this`stored, this`acts
      ensures Valid() && i <= j <= |src| && stored == old(stored) + src[i..j]
      ensures j < |src| ==> |stored| - |delivered| == PIPESIZE
      ensures View() == Wrote(old(View()), j - i) && acts == Puts(old(View()), j - i)
    {
      ghost var v := View();
      acts := [];
      j := i;
      while j < |src|
        invariant i <= j <= |src| && Valid() && stored == old(stored) + src[i..j]
        invariant View() == Wrote(v, j - i) && acts == Puts(v, j - i)
      {
        var full := IsFull();
        if full {
          return;
        }
        Put(src[j]);
        WroteOn(v, j - i);
        assert src[i..j + 1] == src[i..j] + [src[j]];
        j := j + 1;
      }
    }

    /** piperead for n bytes: it sleeps, or gives up, only on an empty pipe that
        may still be written. It makes the wakeups that are due. */
    method Read(n: nat, killed: bool) returns (dst: seq<int>, out: Outcome)
      requires Valid()
      modifies this`nread, this`delivered, this`acts
      ensures Valid() && delivered == old(delivered) + dst
      ensures |dst| <= n && dst == stored[|old(delivered)|..|old(delivered)| + |dst|]
      ensures out.Finished? ==> |dst| == n || |delivered| == |stored|
      ensures !out.Finished? ==> dst == [] && |stored| == |delivered| && writeopen && (out.Failed? <==> killed)
      ensures PipeOk(old(View())) && acts == ReadActs(old(View()), n, killed)
      ensures Play(Inside(old(View()), {}), acts) == Inside(View(), {})
    {
      ghost var v := View();
      ViewFilled(v, stored, delivered);
      ReadOwes(v, n, killed);
      acts := [];
      dst := [];
      var empty := IsEmpty();
      if empty && writeopen {
        out := if killed then Failed else Sleeping;
        acts := [if killed then Leave else Sleep(NREAD)];
        return;
      }
      while |dst| < n
        invariant |dst| <= n && Valid() && delivered == old(delivered) + dst
        invariant View() == Took(v, |dst|) && acts == Gets(v, |dst|)
        decreases n - |dst|
      {
        empty := IsEmpty();
        if empty {
          break;
        }
        var b := Get();
        TookOn(v, |dst|);
        dst := dst + [b];
      }
      assert dst == delivered[|old(delivered)|..];
      acts := acts + [Notify(NWRITE), Leave];
      out := Finished;
    }

    method Close(writable: bool) returns (freed: bool)
      requires Valid()
      modifies this`readopen, this`writeopen, this`acts
      ensures Valid() && freed == (!readopen && !writeopen)
      ensures if writable then !writeopen && readopen == old(readopen) else !readopen && writeopen == old(writeopen)
      ensures acts == CloseActs(old(View()), writable) && Play(Inside(old(View()), {}), acts) == Inside(View(), {})
    {
      ViewFilled(View(), stored, delivered);
      CloseOwes(View(), writable);
      if writable {
        writeopen := false;
        acts := [Set(View()), Notify(NREAD), Leave];
      } else {
        readopen := false;
        acts := [Set(View()), Notify(NWRITE), Leave];
      }
      freed := !readopen && !writeopen;
    }

    method TakeTurn(turn: Turn) returns (a: seq<int>, b: seq<int>)
      requires Valid()
      modifies this
      ensures Valid() && stored == old(stored) + a && delivered == old(delivered) + b
    {
      a, b := [], [];
      match turn {
        case Writer(src, killed) =>
          var j, out := Write(src, 0, killed);
          a := src[..j];
        case Reader(n, killed) =>
          var out;
          b, out := Read(n, killed);
        case Closer(writable) =>
          var freed := Close(writable);
      }
    }

    /** Any interleaving of runs of any readers and writers: the bytes given to
        readers, in order, are the first of those taken from writers. */
    method Interleave(turns: seq<Turn>) returns (into: seq<int>, from: seq<int>)
      requires Valid()
      modifies this
      ensures Valid() && stored == old(stored) + into && delivered == old(delivered) + from
      ensures old(delivered) + from <= old(stored) + into
      ensures (nwrite - nread) % WORD <= PIPESIZE
    {
      into, from := [], [];
      var k := 0;
      while k < |turns|
        invariant 0 <= k <= |turns| && Valid() && stored == old(stored) + into && delivered == old(delivered) + from
      {
        var a, b := TakeTurn(turns[k]);
        into, from := into + a, from + b;
        k := k + 1;
      }
      Bounded(stored, delivered, nwrite, nread);
    }
  }

  datatype Turn = Writer(src: seq<int>, killed: bool) | Reader(n: nat, killed: bool) | Closer(writable: bool)
}
