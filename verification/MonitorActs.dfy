/** What kernel code does while it holds a monitor's lock, and which wakeups it
    then leaves due: pipe.c, begin_op and end_op. */
module MonitorActs {
  import opened Params
  import opened Monitors

  /** Change the value, call wakeup and, at last, sleep or release the lock. */
  datatype Act = Set(val: Val) | Notify(x: nat) | Sleep(x: nat) | Leave

  /** The value, and the wakeups due, as the holder of the lock has made them. */
  datatype Inside = Inside(val: Val, owed: set<nat>)

  function Acted(m: Inside, a: Act): Inside {
    match a
    case Set(v) => Inside(v, Due(m.owed, m.val, v))
    case Notify(x) => Inside(m.val, m.owed - {x})
    case _ => m
  }

  function Play(m: Inside, acts: seq<Act>): Inside {
    if acts == [] then m else Acted(Play(m, acts[..|acts| - 1]), acts[|acts| - 1])
  }

  lemma PlayOn(m: Inside, acts: seq<Act>, a: Act)
    ensures Play(m, acts + [a]) == Acted(Play(m, acts), a)
  {
    assert (acts + [a])[..|acts|] == acts;
  }

  lemma PlayTwo(m: Inside, acts: seq<Act>, a: Act, b: Act)
    ensures Play(m, acts + [a, b]) == Acted(Acted(Play(m, acts), a), b)
  {
    assert acts + [a, b] == acts + [a] + [b];
    PlayOn(m, acts, a);
    PlayOn(m, acts + [a], b);
  }

  // ---- Pipes ----

  /** The bytes in the pipe, from counters that wrap around. */
  function Filled(v: Val): int
    requires v.PipeVal?
  {
    if v.nread <= v.nwrite then v.nwrite - v.nread else v.nwrite + WORD - v.nread
  }

  predicate PipeOk(v: Val) {
    v.PipeVal? && v.nread < WORD && v.nwrite < WORD && Filled(v) <= PIPESIZE
  }

  /** The pipe with k bytes more, or k bytes less. */
  function Wrote(v: Val, k: nat): Val
    requires v.PipeVal?
  {
    PipeVal(v.nread, (v.nwrite + k) % WORD, v.readopen, v.writeopen)
  }

  function Took(v: Val, k: nat): Val
    requires v.PipeVal?
  {
    PipeVal((v.nread + k) % WORD, v.nwrite, v.readopen, v.writeopen)
  }

  function Puts(v: Val, k: nat): seq<Act>
    requires v.PipeVal?
  {
    if k == 0 then [] else Puts(v, k - 1) + [Set(Wrote(v, k))]
  }

  function Gets(v: Val, k: nat): seq<Act>
    requires v.PipeVal?
  {
    if k == 0 then [] else Gets(v, k - 1) + [Set(Took(v, k))]
  }

  function Min(a: int, b: int): int {
    if a < b then a else b
  }

  /** pipewrite with n bytes to go. */
  function WriteActs(v: Val, n: nat, killed: bool): seq<Act>
    requires PipeOk(v)
  {
    Puts(v, Min(n, PIPESIZE - Filled(v)))
    + if n <= PIPESIZE - Filled(v) then [Notify(NREAD), Leave]
      else if !v.readopen || killed then [Leave] else [Notify(NREAD), Sleep(NWRITE)]
  }

  /** piperead for n bytes. */
  function ReadActs(v: Val, n: nat, killed: bool): seq<Act>
    requires PipeOk(v)
  {
    if Filled(v) == 0 && v.writeopen then if killed then [Leave] else [Sleep(NREAD)]
    else Gets(v, Min(n, Filled(v))) + [Notify(NWRITE), Leave]
  }

  function CloseActs(v: Val, writable: bool): seq<Act>
    requires v.PipeVal?
  {
    if writable then [Set(PipeVal(v.nread, v.nwrite, v.readopen, false)), Notify(NREAD), Leave]
    else [Set(PipeVal(v.nread, v.nwrite, false, v.writeopen)), Notify(NWRITE), Leave]
  }

  /** The conditions to sleep on, in terms of the bytes in the pipe. */
  lemma PipeWaits(v: Val)
    requires PipeOk(v)
    ensures NREAD in Waits(v) <==> Filled(v) == 0 && v.writeopen
    ensures NWRITE in Waits(v) <==> Filled(v) == PIPESIZE && v.readopen
    ensures Waits(v) <= {NREAD, NWRITE}
  {
  }

  lemma WroteFills(v: Val, k: nat)
    requires PipeOk(v) && k <= PIPESIZE - Filled(v)
    ensures PipeOk(Wrote(v, k)) && Filled(Wrote(v, k)) == Filled(v) + k
  {
  }

  lemma TookDrains(v: Val, k: nat)
    requires PipeOk(v) && k <= Filled(v)
    ensures PipeOk(Took(v, k)) && Filled(Took(v, k)) == Filled(v) - k
  {
  }

  /** Bytes put into an empty pipe make the readers' wakeup due, and no other. */
  lemma {:induction false} PutsPlay(v: Val, k: nat)
    requires PipeOk(v) && k <= PIPESIZE - Filled(v)
    ensures Play(Inside(v, {}), Puts(v, k)) == Inside(Wrote(v, k), if k > 0 && NREAD in Waits(v) then {NREAD} else {})
    decreases k
  {
    if k > 0 {
      PutsPlay(v, k - 1);
      PlayOn(Inside(v, {}), Puts(v, k - 1), Set(Wrote(v, k)));
      PutDue(v, k);
    }
  }

  lemma PutDue(v: Val, k: nat)
    requires PipeOk(v) && 0 < k <= PIPESIZE - Filled(v)
    ensures Due(if k > 1 && NREAD in Waits(v) then {NREAD} else {}, Wrote(v, k - 1), Wrote(v, k))
            == if NREAD in Waits(v) then {NREAD} else {}
  {
    WroteFills(v, k - 1);
    WroteFills(v, k);
    PipeWaits(v);
    PipeWaits(Wrote(v, k - 1));
    PipeWaits(Wrote(v, k));
    assert k == 1 ==> Wrote(v, k - 1) == v;
  }

  /** Bytes taken make at most the writers' wakeup due. */
  lemma {:induction false} GetsPlay(v: Val, k: nat)
    requires PipeOk(v) && k <= Filled(v)
    ensures var m := Play(Inside(v, {}), Gets(v, k)); m.val == Took(v, k) && m.owed <= {NWRITE}
    decreases k
  {
    if k > 0 {
      GetsPlay(v, k - 1);
      PlayOn(Inside(v, {}), Gets(v, k - 1), Set(Took(v, k)));
      TookDrains(v, k - 1);
      TookDrains(v, k);
      PipeWaits(Took(v, k - 1));
      PipeWaits(Took(v, k));
    }
  }

  /** pipewrite forgets the readers exactly when it gives up after filling a pipe
      that was empty. */
  predicate Forgets(v: Val, n: nat, killed: bool)
    requires PipeOk(v)
  {
    Filled(v) == 0 && v.writeopen && (killed || !v.readopen) && n > PIPESIZE
  }

  lemma WriteOwes(v: Val, n: nat, killed: bool)
    requires PipeOk(v)
    ensures Play(Inside(v, {}), WriteActs(v, n, killed))
            == Inside(Wrote(v, Min(n, PIPESIZE - Filled(v))), if Forgets(v, n, killed) then {NREAD} else {})
  {
    var k := Min(n, PIPESIZE - Filled(v));
    PutsPlay(v, k);
    PipeWaits(v);
    if n <= PIPESIZE - Filled(v) {
      PlayTwo(Inside(v, {}), Puts(v, k), Notify(NREAD), Leave);
    } else if !v.readopen || killed {
      PlayOn(Inside(v, {}), Puts(v, k), Leave);
    } else {
      PlayTwo(Inside(v, {}), Puts(v, k), Notify(NREAD), Sleep(NWRITE));
    }
  }

  /** piperead makes every wakeup that is due ... */
  lemma ReadOwes(v: Val, n: nat, killed: bool)
    requires PipeOk(v)
    ensures Play(Inside(v, {}), ReadActs(v, n, killed))
            == Inside(if Filled(v) == 0 then v else Took(v, Min(n, Filled(v))), {})
  {
    if Filled(v) == 0 && v.writeopen {
      PlayOn(Inside(v, {}), [], ReadActs(v, n, killed)[0]);
    } else {
      GetsPlay(v, Min(n, Filled(v)));
      PlayTwo(Inside(v, {}), Gets(v, Min(n, Filled(v))), Notify(NWRITE), Leave);
    }
  }

  /** ... and so does pipeclose. */
  lemma CloseOwes(v: Val, writable: bool)
    requires PipeOk(v)
    ensures Play(Inside(v, {}), CloseActs(v, writable))
            == Inside(PipeVal(v.nread, v.nwrite, v.readopen && writable, v.writeopen && !writable), {})
  {
    var acts := CloseActs(v, writable);
    assert acts == [acts[0]] + [acts[1], Leave];
    PlayOn(Inside(v, {}), [], acts[0]);
    PlayTwo(Inside(v, {}), [acts[0]], acts[1], Leave);
    PipeWaits(v);
    PipeWaits(acts[0].val);
  }

  // ---- The log ----

  /** begin_op */
  function BeginActs(v: Val): seq<Act>
    requires v.LogVal?
  {
    if LOG in Waits(v) then [Sleep(LOG)] else [Set(LogVal(v.committing, v.outstanding + 1, v.n)), Leave]
  }

  /** end_op up to its first release of log.lock. */
  function EndActs(v: Val): seq<Act>
    requires v.LogVal?
  {
    [Set(LogVal(v.committing, v.outstanding - 1, v.n))]
    + if v.outstanding == 1 then [Set(LogVal(true, 0, v.n)), Leave] else [Notify(LOG), Leave]
  }

  /** end_op after its commit. */
  function CommittedActs(v: Val): seq<Act>
    requires v.LogVal?
  {
    [Set(LogVal(false, v.outstanding, v.n)), Notify(LOG), Leave]
  }

  lemma BeginOwes(v: Val)
    requires v.LogVal?
    ensures var m := Play(Inside(v, {}), BeginActs(v));
            m.owed == {} && m.val == if LOG in Waits(v) then v else LogVal(v.committing, v.outstanding + 1, v.n)
  {
    if LOG in Waits(v) {
      PlayOn(Inside(v, {}), [], Sleep(LOG));
    } else {
      PlayTwo(Inside(v, {}), [], Set(LogVal(v.committing, v.outstanding + 1, v.n)), Leave);
    }
  }

  /** The operation that starts a commit need not wake anyone: who waits for room
      waits for the commit now. */
  lemma EndOwes(v: Val)
    requires v.LogVal?
    ensures var m := Play(Inside(v, {}), EndActs(v));
            m.owed == {} && m.val == LogVal(v.committing || v.outstanding == 1, v.outstanding - 1, v.n)
  {
    var a := Set(LogVal(v.committing, v.outstanding - 1, v.n));
    PlayOn(Inside(v, {}), [], a);
    if v.outstanding == 1 {
      PlayTwo(Inside(v, {}), [a], Set(LogVal(true, 0, v.n)), Leave);
    } else {
      PlayTwo(Inside(v, {}), [a], Notify(LOG), Leave);
    }
  }

  lemma CommittedOwes(v: Val)
    requires v.LogVal?
    ensures Play(Inside(v, {}), CommittedActs(v)) == Inside(LogVal(false, v.outstanding, v.n), {})
  {
    var a := Set(LogVal(false, v.outstanding, v.n));
    assert CommittedActs(v) == [a] + [Notify(LOG), Leave];
    PlayOn(Inside(v, {}), [], a);
    PlayTwo(Inside(v, {}), [a], Notify(LOG), Leave);
  }
}
