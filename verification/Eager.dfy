/** The reference for copy-on-write: processes that own private copies of all
    their pages. There are no frames, counts or faults here. */
module Eager {
  import opened Params
  import opened Paging
  import opened Frames

  datatype Proc = Proc(sz: nat, pages: seq<Seen>, killed: bool)

  type Sys = map<nat, Proc>

  function Fresh(n: nat): seq<Seen> {
    seq(n, _ => Seen(ZeroPage(), true))
  }

  /** The child starts with its own copy of every page. */
  function Fork(s: Sys, p: nat, c: nat): Sys
    requires p in s
  {
    s[c := Proc(s[p].sz, s[p].pages, false)]
  }

  function Grow(s: Sys, id: nat, sz: nat): Sys
    requires id in s && |s[id].pages| <= Pages(sz)
  {
    s[id := Proc(sz, s[id].pages + Fresh(Pages(sz) - |s[id].pages|), s[id].killed)]
  }

  /** Memory a process grows into reads as zero, and the old memory as before. */
  lemma GrowReads(s: Sys, id: nat, sz: nat, va: nat)
    requires id in s && |s[id].pages| <= Pages(sz)
    ensures |s[id].pages| * PGSIZE <= va < Pages(sz) * PGSIZE ==>
              Accessible(Grow(s, id, sz), id, va) && Peek(Grow(s, id, sz), id, va) == 0
    ensures va < |s[id].pages| * PGSIZE ==>
              && Accessible(Grow(s, id, sz), id, va) == Accessible(s, id, va)
              && (Accessible(s, id, va) ==> Peek(Grow(s, id, sz), id, va) == Peek(s, id, va))
  {
    var v := va / PGSIZE;
    assert v * PGSIZE <= va < v * PGSIZE + PGSIZE;
  }

  function Shrink(s: Sys, id: nat, sz: nat): Sys
    requires id in s && Pages(sz) <= |s[id].pages|
  {
    s[id := Proc(sz, s[id].pages[..Pages(sz)], s[id].killed)]
  }

  /** User code of process id may touch address va. */
  predicate Accessible(s: Sys, id: nat, va: nat)
    requires id in s
  {
    va / PGSIZE < |s[id].pages| && s[id].pages[va / PGSIZE].Seen? && s[id].pages[va / PGSIZE].user
  }

  function Peek(s: Sys, id: nat, va: nat): Byte
    requires id in s && Accessible(s, id, va)
  {
    s[id].pages[va / PGSIZE].data[va % PGSIZE]
  }

  function Poke(s: Sys, id: nat, va: nat, b: Byte): Sys
    requires id in s && Accessible(s, id, va)
  {
    var pg := s[id].pages[va / PGSIZE];
    s[id := Proc(s[id].sz,
                 s[id].pages[va / PGSIZE := Seen(pg.data[va % PGSIZE := b], pg.user)],
                 s[id].killed)]
  }

  /** A store is seen at its own address by its own process, and nowhere else. */
  lemma PokePeek(s: Sys, id: nat, va: nat, b: Byte, k: nat, a: nat)
    requires id in s && Accessible(s, id, va) && k in s
    ensures Accessible(Poke(s, id, va, b), k, a) == Accessible(s, k, a)
    ensures Accessible(s, k, a) ==> Peek(Poke(s, id, va, b), k, a) == if k == id && a == va then b else Peek(s, k, a)
  {
    assert va == va / PGSIZE * PGSIZE + va % PGSIZE && a == a / PGSIZE * PGSIZE + a % PGSIZE;
  }

  function Kill(s: Sys, id: nat): Sys
    requires id in s
  {
    s[id := Proc(s[id].sz, s[id].pages, true)]
  }

  /** Make a page inaccessible to user code. */
  function Guard(s: Sys, id: nat, v: nat): Sys
    requires id in s && v < |s[id].pages| && s[id].pages[v].Seen?
  {
    s[id := Proc(s[id].sz, s[id].pages[v := Seen(s[id].pages[v].data, false)], s[id].killed)]
  }

  // ---- What processes read ----

  /** After fork the child has the size of the parent and reads what it reads, and
      everybody else reads what they did. */
  lemma ForkReads(s: Sys, p: nat, c: nat, k: nat, va: nat)
    requires p in s && c !in s && (k == c || k in s)
    ensures var t, of := Fork(s, p, c), if k == c then p else k;
            && t[k].sz == s[of].sz && Accessible(t, k, va) == Accessible(s, of, va)
            && (Accessible(s, of, va) ==> Peek(t, k, va) == Peek(s, of, va))
            && !t[c].killed && (k != c ==> t[k].killed == s[k].killed)
  {
  }

  /** Shrinking takes away the pages above the new size, and no more. */
  lemma ShrinkReads(s: Sys, id: nat, sz: nat, va: nat)
    requires id in s && Pages(sz) <= |s[id].pages|
    ensures var t := Shrink(s, id, sz);
            && t[id].sz == sz && (Accessible(t, id, va) <==> va < Pages(sz) * PGSIZE && Accessible(s, id, va))
            && (Accessible(t, id, va) ==> Peek(t, id, va) == Peek(s, id, va))
  {
    var v := va / PGSIZE;
    assert v * PGSIZE <= va < v * PGSIZE + PGSIZE;
  }

  /** A guard page cannot be touched; the others are as before. */
  lemma GuardReads(s: Sys, id: nat, v: nat, va: nat)
    requires id in s && v < |s[id].pages| && s[id].pages[v].Seen?
    ensures var t := Guard(s, id, v);
            && (Accessible(t, id, va) <==> va / PGSIZE != v && Accessible(s, id, va))
            && (Accessible(t, id, va) ==> Peek(t, id, va) == Peek(s, id, va))
  {
  }

  // ---- Programs ----

  type Addr = x: int | 0 <= x < WORD

  datatype Cmd =
    | DoFork(p: nat, c: nat)
    | DoGrow(id: nat, sz: nat)
    | DoShrink(id: nat, sz: nat)
    | DoRead(id: nat, va: Addr)
    | DoWrite(id: nat, va: Addr, b: Byte)
    | DoGuard(id: nat, v: nat)
    | DoExit(id: nat)

  /** What a command reports. NoMemory is the one outcome that depends on how
      much memory the machine has. */
  datatype Out = Done | Value(b: Byte) | Killed | NoMemory | Refused

  predicate Alive(s: Sys, id: nat) {
    id in s && !s[id].killed
  }

  /** The effect of one command, given whether memory ran out while it ran. */
  function Effect(s: Sys, c: Cmd, out: Out): Sys {
    match c
    case DoFork(p, ch) =>
      if out.Done? && Alive(s, p) && ch !in s then Fork(s, p, ch) else s
    case DoGrow(id, sz) =>
      if out.Done? && Alive(s, id) && |s[id].pages| <= Pages(sz) then Grow(s, id, sz) else s
    case DoShrink(id, sz) =>
      if out.Done? && Alive(s, id) && 0 < sz && Pages(sz) <= |s[id].pages| then Shrink(s, id, sz) else s
    case DoRead(id, va) =>
      if Alive(s, id) && !Accessible(s, id, va) then Kill(s, id) else s
    case DoWrite(id, va, b) =>
      if !Alive(s, id) then s
      else if !Accessible(s, id, va) || out.NoMemory? then Kill(s, id)
      else Poke(s, id, va, b)
    case DoGuard(id, v) =>
      if out.Done? && Alive(s, id) && v < |s[id].pages| && s[id].pages[v].Seen? then Guard(s, id, v) else s
    case DoExit(id) =>
      if id in s then s - {id} else s
  }

  /** What the command must report; only a command that allocates may say
      NoMemory instead. */
  predicate Reports(s: Sys, c: Cmd, out: Out) {
    match c
    case DoFork(p, ch) =>
      if Alive(s, p) && ch !in s && ch < NPROC then out.Done? || out.NoMemory? else out.Refused?
    case DoGrow(id, sz) =>
      if Alive(s, id) && s[id].sz <= sz < KERNBASE then out.Done? || out.NoMemory? else out.Refused?
    case DoShrink(id, sz) =>
      if Alive(s, id) && 0 < sz <= s[id].sz then out.Done? else out.Refused?
    case DoRead(id, va) =>
      if !Alive(s, id) then out.Refused?
      else if Accessible(s, id, va) then out == Value(Peek(s, id, va))
      else out.Killed?
    case DoWrite(id, va, b) =>
      if !Alive(s, id) then out.Refused?
      else if Accessible(s, id, va) then out.Done? || out.NoMemory?
      else out.Killed?
    case DoGuard(id, v) =>
      if Alive(s, id) && v < |s[id].pages| then out.Done? else out.Refused?
    case DoExit(id) =>
      if id in s then out.Done? else out.Refused?
  }

  /** A run of commands with their reports. */
  predicate Runs(s: Sys, cmds: seq<Cmd>, outs: seq<Out>, t: Sys)
    decreases |cmds|
  {
    if cmds == [] then outs == [] && s == t
    else
      outs != [] && Reports(s, cmds[0], outs[0]) && Runs(Effect(s, cmds[0], outs[0]), cmds[1..], outs[1..], t)
  }

  /** Runs extend at the end. */
  lemma {:induction false} RunsSnoc(s: Sys, cmds: seq<Cmd>, outs: seq<Out>, t: Sys, c: Cmd, out: Out)
    requires Runs(s, cmds, outs, t) && Reports(t, c, out)
    ensures Runs(s, cmds + [c], outs + [out], Effect(t, c, out))
    decreases |cmds|
  {
    if cmds == [] {
      assert (cmds + [c])[1..] == [] && (outs + [out])[1..] == [];
    } else {
      RunsSnoc(Effect(s, cmds[0], outs[0]), cmds[1..], outs[1..], t, c, out);
      assert (cmds + [c])[1..] == cmds[1..] + [c];
      assert (outs + [out])[1..] == outs[1..] + [out];
    }
  }
}
