/** What a spin lock protects when processes sleep under it: a value, and
    channels, each with a condition on the value under which a process that
    finds it so goes to sleep. */
module Monitors {
  import opened Params

  const PIPESIZE: nat := 512

  /** The channel of a sleep-lock and that of the log. */
  const LOCK: nat := 0
  const LOG: nat := 0

  /** &p->nread and &p->nwrite of a pipe. */
  const NREAD: nat := 0
  const NWRITE: nat := 1

  /** Other stands for any value and any conditions: what matters of it is which
      of them hold. */
  datatype Val =
    | LockVal(locked: bool)
    | PipeVal(nread: nat, nwrite: nat, readopen: bool, writeopen: bool)
    | LogVal(committing: bool, outstanding: int, n: int)
    | Other(waits: set<nat>)

  /** The channels whose condition holds: acquiresleep, piperead, pipewrite and
      begin_op go to sleep on them. */
  function Waits(v: Val): set<nat> {
    match v
    case LockVal(locked) => if locked then {LOCK} else {}
    case PipeVal(nread, nwrite, readopen, writeopen) =>
      (if nread == nwrite && writeopen then {NREAD} else {})
      + (if nwrite == (nread + PIPESIZE) % WORD && readopen then {NWRITE} else {})
    case LogVal(committing, outstanding, n) =>
      if committing || n + (outstanding + 1) * MAXOPBLOCKS > LOGSIZE then {LOG} else {}
    case Other(waits) => waits
  }

  /** The conditions a change of value ends. */
  function Ends(v: Val, w: Val): set<nat> {
    Waits(v) - Waits(w)
  }

  /** The wakeups due after a change of value, when owed were due before it: for
      the conditions that have ended and not come back. */
  function Due(owed: set<nat>, v: Val, w: Val): set<nat> {
    owed + Waits(v) - Waits(w)
  }

  lemma NothingDue(owed: set<nat>, v: Val, w: Val)
    requires Ends(v, w) == {}
    ensures Due(owed, v, w) <= owed
  {
    forall x | x in Due(owed, v, w)
      ensures x in owed
    {
      assert x !in Ends(v, w);
    }
  }

  /** commit empties the header without log.lock: while it is under way that ends
      no condition. */
  lemma CommitQuiet(outstanding: int, n: int, m: int)
    ensures Ends(LogVal(true, outstanding, n), LogVal(true, outstanding, m)) == {}
  {
  }
}
