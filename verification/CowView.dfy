/** What copy-on-write memory looks like to processes, as a state of the machine
    whose processes own private copies. */
module CowView {
  import opened Paging
  import opened Frames
  import opened Spaces
  import opened CowStates
  import Eager

  /** Process id has exactly the pages below its size. */
  ghost predicate DenseAt(m: M, id: nat)
    requires id in m.spaces
  {
    && m.spaces[id].sz < KERNBASE
    && forall v: nat :: Look(m, id, v).Seen? <==> v < Pages(m.spaces[id].sz)
  }

  ghost predicate Dense(m: M) {
    forall id :: id in m.spaces ==> DenseAt(m, id)
  }

  ghost function Pics(m: M, id: nat, n: nat): (r: seq<Seen>)
    ensures |r| == n && forall v :: 0 <= v < n ==> r[v] == Look(m, id, v)
  {
    seq(n, v requires 0 <= v < n => Look(m, id, v))
  }

  ghost function ViewProc(m: M, id: nat): Eager.Proc
    requires id in m.spaces
  {
    Eager.Proc(m.spaces[id].sz, Pics(m, id, Pages(m.spaces[id].sz)), m.spaces[id].killed)
  }

  ghost function View(m: M): (s: Eager.Sys)
    ensures forall id :: id in s <==> id in m.spaces
    ensures forall id :: id in m.spaces ==> s[id] == ViewProc(m, id)
  {
    map id | id in m.spaces :: ViewProc(m, id)
  }

  /** Process k looks the same in m and n. */
  ghost predicate SameProc(m: M, n: M, k: nat) {
    && (k in m.spaces <==> k in n.spaces)
    && (k in m.spaces ==> n.spaces[k].sz == m.spaces[k].sz && n.spaces[k].killed == m.spaces[k].killed)
    && forall x: nat :: Look(n, k, x) == Look(m, k, x)
  }

  lemma ViewProcSame(m: M, n: M, k: nat)
    requires SameProc(m, n, k) && k in m.spaces
    ensures ViewProc(n, k) == ViewProc(m, k)
    ensures DenseAt(m, k) ==> DenseAt(n, k)
  {
  }

  /** Only process id may look different. */
  lemma ViewOne(m: M, n: M, id: nat)
    requires Dense(m) && id in n.spaces && DenseAt(n, id)
    requires forall k :: k != id ==> SameProc(m, n, k)
    ensures Dense(n) && View(n) == View(m)[id := ViewProc(n, id)]
  {
    forall k | k in n.spaces && k != id
      ensures k in m.spaces && View(n)[k] == View(m)[k] && DenseAt(n, k)
    {
      assert SameProc(m, n, k);
      ViewProcSame(m, n, k);
    }
    forall k | k in m.spaces && k != id
      ensures k in n.spaces
    {
      assert SameProc(m, n, k);
    }
  }

  lemma ViewSame(m: M, n: M)
    requires Dense(m) && Same(m, n)
    ensures Dense(n) && View(n) == View(m)
  {
    forall k | k in n.spaces
      ensures k in m.spaces && View(n)[k] == View(m)[k] && DenseAt(n, k)
    {
      assert SameProc(m, n, k);
      ViewProcSame(m, n, k);
    }
    assert View(n) == View(m);
  }

  lemma ViewDoomed(m: M, id: nat)
    requires Dense(m) && id in m.spaces
    ensures Dense(Doomed(m, id)) && View(Doomed(m, id)) == Eager.Kill(View(m), id)
  {
    var n := Doomed(m, id);
    assert AllEntries(m, n);
    LooksSame(m, n);
    forall k | k != id
      ensures SameProc(m, n, k)
    {
    }
    ViewOne(m, n, id);
    assert ViewProc(n, id).pages == ViewProc(m, id).pages;
  }

  /** Accesses are legal in one machine exactly when they are in the other. */
  lemma OpenAccessible(m: M, id: nat, va: nat)
    requires Dense(m) && id in m.spaces
    ensures Eager.Accessible(View(m), id, va) <==> Open(m, id, va / PGSIZE)
    ensures Open(m, id, va / PGSIZE) ==>
              Eager.Peek(View(m), id, va) == Look(m, id, va / PGSIZE).data[va % PGSIZE]
  {
    assert DenseAt(m, id);
  }

  lemma ButOthers(m: M, n: M, id: nat, v: nat)
    requires SameBut(m, n, id, v)
    ensures forall k :: k != id ==> SameProc(m, n, k)
  {
  }

  lemma ViewBut(m: M, n: M, id: nat, v: nat)
    requires Dense(m) && id in m.spaces && SameBut(m, n, id, v) && Look(m, id, v).Seen? && Look(n, id, v).Seen?
    ensures Dense(n) && v < |View(m)[id].pages|
    ensures View(n) == View(m)[id := Eager.Proc(View(m)[id].sz, View(m)[id].pages[v := Look(n, id, v)], View(m)[id].killed)]
  {
    assert DenseAt(m, id);
    assert DenseAt(n, id);
    ButOthers(m, n, id, v);
    ViewOne(m, n, id);
    assert ViewProc(n, id).pages == View(m)[id].pages[v := Look(n, id, v)];
  }

  lemma ViewStored(m: M, n: M, id: nat, va: nat, b: Byte)
    requires Dense(m) && id in m.spaces && Stored(m, n, id, va / PGSIZE, va % PGSIZE, b) && Open(m, id, va / PGSIZE)
    ensures Dense(n) && Eager.Accessible(View(m), id, va) && View(n) == Eager.Poke(View(m), id, va, b)
  {
    OpenAccessible(m, id, va);
    ViewBut(m, n, id, va / PGSIZE);
  }

  lemma ViewGuarded(m: M, n: M, id: nat, v: nat)
    requires Dense(m) && id in m.spaces && SameBut(m, n, id, v) && Look(m, id, v).Seen?
    requires Look(n, id, v) == Seen(Look(m, id, v).data, false)
    ensures Dense(n) && v < |View(m)[id].pages| && View(m)[id].pages[v].Seen? && View(n) == Eager.Guard(View(m), id, v)
  {
    ViewBut(m, n, id, v);
  }

  /** r differs from n only in the process state of id. */
  lemma RestOthers(m: M, n: M, r: M, id: nat, sz: nat, killed: bool)
    requires OthersKept(m, n, id) && id in n.spaces && r == SetProc(n, id, sz, killed)
    requires forall k, x: nat :: k != id ==> Look(n, k, x) == Look(m, k, x)
    ensures forall k :: k != id ==> SameProc(m, r, k)
    ensures forall k, x: nat :: Look(r, k, x) == Look(n, k, x)
  {
    assert AllEntries(n, r);
    LooksSame(n, r);
    forall k | k != id
      ensures SameProc(m, r, k)
    {
      assert k in m.spaces <==> k in m.spaces - {id};
      assert k in n.spaces <==> k in n.spaces - {id};
      if k in m.spaces {
        assert (n.spaces - {id})[k] == (m.spaces - {id})[k];
      }
    }
  }

  lemma ViewGrown(m: M, n: M, r: M, id: nat, sz: nat)
    requires Dense(m) && id in m.spaces && m.spaces[id].sz <= sz < KERNBASE
    requires Grown(m, n, id, Pages(m.spaces[id].sz), Pages(sz)) && r == SetProc(n, id, sz, m.spaces[id].killed)
    ensures Dense(r) && |View(m)[id].pages| <= Pages(sz) && View(r) == Eager.Grow(View(m), id, sz)
  {
    RestOthers(m, n, r, id, sz, m.spaces[id].killed);
    PagesRange(m.spaces[id].sz, sz);
    assert DenseAt(m, id);
    assert DenseAt(r, id);
    ViewOne(m, r, id);
    var lo := Pages(m.spaces[id].sz);
    assert ViewProc(r, id).pages == ViewProc(m, id).pages + Eager.Fresh(Pages(sz) - lo);
  }

  lemma ViewGone(m: M, n: M, r: M, id: nat, sz: nat)
    requires Dense(m) && id in m.spaces && sz <= m.spaces[id].sz
    requires Gone(m, n, id, Pages(sz), Pages(m.spaces[id].sz)) && r == SetProc(n, id, sz, m.spaces[id].killed)
    ensures Dense(r) && Pages(sz) <= |View(m)[id].pages| && View(r) == Eager.Shrink(View(m), id, sz)
  {
    RestOthers(m, n, r, id, sz, m.spaces[id].killed);
    assert DenseAt(m, id);
    PagesRange(sz, m.spaces[id].sz);
    forall v: nat
      ensures Look(r, id, v).Seen? <==> v < Pages(sz)
    {
      if Pages(sz) <= v < Pages(m.spaces[id].sz) {
        assert v !in n.spaces[id].flat;
      }
    }
    ViewOne(m, r, id);
    assert ViewProc(r, id).pages == ViewProc(m, id).pages[..Pages(sz)];
  }

  lemma ViewCopied(m: M, n: M, r: M, p: nat, c: nat)
    requires Inv(n) && Dense(m) && p in m.spaces && Copied(m, n, p, c, Pages(m.spaces[p].sz))
    requires r == SetProc(n, c, m.spaces[p].sz, false)
    ensures Dense(r) && View(r) == Eager.Fork(View(m), p, c)
  {
    assert DenseAt(m, p);
    PagesRange(0, m.spaces[p].sz);
    assert AllEntries(n, r);
    LooksSame(n, r);
    forall k | k != c
      ensures SameProc(m, r, k)
    {
      CopiedOthers(m, n, p, c, Pages(m.spaces[p].sz), k);
    }
    forall v: nat
      ensures Look(r, c, v) == Look(m, p, v)
    {
      SharedLook(m, n, p, c, v);
    }
    assert DenseAt(r, c);
    ViewOne(m, r, c);
    assert ViewProc(r, c).pages == ViewProc(m, p).pages;
  }

  lemma CopiedOthers(m: M, n: M, p: nat, c: nat, x: nat, k: nat)
    requires Copied(m, n, p, c, x) && k != c
    ensures SameProc(m, n, k)
  {
    if k != p {
      assert k in m.spaces <==> k in m.spaces - {p, c};
      assert k in n.spaces <==> k in n.spaces - {p, c};
      if k in m.spaces {
        assert (n.spaces - {p, c})[k] == (m.spaces - {p, c})[k];
      }
    }
  }

  /** The child sees at every page what the parent sees. */
  lemma SharedLook(m: M, n: M, p: nat, c: nat, v: nat)
    requires Inv(n) && p in m.spaces && DenseAt(m, p) && Pages(m.spaces[p].sz) <= UPAGES
    requires Copied(m, n, p, c, Pages(m.spaces[p].sz))
    ensures Look(n, c, v) == Look(m, p, v)
  {
    assert Look(n, p, v) == Look(m, p, v);
    if v < Pages(m.spaces[p].sz) {
      assert IsMapped(n, c, v) && IsMapped(n, p, v);
    }
  }

  lemma ViewExited(m: M, n: M, id: nat)
    requires Dense(m) && id in m.spaces && Rest(m, n, id) && n.spaces == m.spaces - {id}
    ensures Dense(n) && View(n) == View(m) - {id}
  {
    forall k | k in n.spaces
      ensures SameProc(m, n, k) && View(n)[k] == View(m)[k] && DenseAt(n, k)
    {
      ViewProcSame(m, n, k);
    }
    assert View(n) == View(m) - {id};
  }

  lemma DenseMapped(m: M, id: nat)
    requires Inv(m) && Dense(m) && id in m.spaces
    ensures forall v: nat :: v < UPAGES ==> (IsMapped(m, id, v) <==> v < Pages(m.spaces[id].sz))
    ensures m.spaces[id].sz < KERNBASE && Pages(m.spaces[id].sz) <= UPAGES
  {
    assert DenseAt(m, id);
    PagesRange(0, m.spaces[id].sz);
    forall v: nat | v < UPAGES
      ensures IsMapped(m, id, v) <==> Look(m, id, v).Seen?
    {
    }
  }

  /** The first process, with the one page inituvm gives it. */
  lemma ViewFirst(m: M, n: M, r: M, t: M, id: nat, kmap: seq<Range>, data: Page)
    requires Dense(m) && id !in m.spaces && Starting(m, n, id, kmap, |kmap|)
    requires SameBut(n, r, id, 0) && OthersKept(n, r, id) && Look(r, id, 0) == Seen(data, true)
    requires id in r.spaces && t == SetProc(r, id, PGSIZE, false)
    ensures Dense(t) && View(t) == View(m)[id := Eager.Proc(PGSIZE, [Seen(data, true)], false)]
  {
    RestOthers(m, r, t, id, PGSIZE, false);
    assert Pages(PGSIZE) == 1;
    assert DenseAt(t, id);
    ViewOne(m, t, id);
    assert ViewProc(t, id).pages == [Seen(data, true)];
  }

  /** Command cmd took m to n as it takes the view of m to the view of n. */
  ghost predicate Stepped(m: M, n: M, cmd: Eager.Cmd, out: Eager.Out) {
    Dense(n) && Eager.Reports(View(m), cmd, out) && View(n) == Eager.Effect(View(m), cmd, out)
  }

  ghost predicate Live(m: M, id: nat) {
    id in m.spaces && !m.spaces[id].killed
  }

  /** A command that does not apply is refused and changes nothing. */
  lemma RefuseFork(m: M, p: nat, c: nat)
    requires Dense(m) && !(Live(m, p) && c !in m.spaces && c < NPROC)
    ensures Stepped(m, m, Eager.DoFork(p, c), Eager.Refused)
  {
  }

  lemma RefuseGrow(m: M, id: nat, sz: nat)
    requires Dense(m) && !(Live(m, id) && m.spaces[id].sz <= sz)
    ensures Stepped(m, m, Eager.DoGrow(id, sz), Eager.Refused)
  {
  }

  lemma RefuseShrink(m: M, id: nat, sz: nat)
    requires Dense(m) && !(Live(m, id) && 0 < sz <= m.spaces[id].sz)
    ensures Stepped(m, m, Eager.DoShrink(id, sz), Eager.Refused)
  {
  }

  lemma RefuseGuard(m: M, id: nat, v: nat)
    requires Dense(m) && !(Live(m, id) && v < Pages(m.spaces[id].sz))
    ensures Stepped(m, m, Eager.DoGuard(id, v), Eager.Refused)
  {
  }

  lemma RefuseAccess(m: M, id: nat, va: Eager.Addr, b: Byte)
    requires Dense(m) && !Live(m, id)
    ensures Stepped(m, m, Eager.DoRead(id, va), Eager.Refused)
    ensures Stepped(m, m, Eager.DoWrite(id, va, b), Eager.Refused)
  {
  }

  lemma StepRead(m: M, n: M, id: nat, va: Eager.Addr, out: Eager.Out)
    requires Live(m, id) && Dense(n)
    requires if Eager.Accessible(View(m), id, va)
             then out == Eager.Value(Eager.Peek(View(m), id, va)) && View(n) == View(m)
             else out == Eager.Killed && View(n) == Eager.Kill(View(m), id)
    ensures Stepped(m, n, Eager.DoRead(id, va), out)
  {
  }

  lemma StepWrite(m: M, n: M, id: nat, va: Eager.Addr, b: Byte, out: Eager.Out)
    requires Live(m, id) && Dense(n)
    requires if Eager.Accessible(View(m), id, va) then out == Eager.Done || out == Eager.NoMemory else out == Eager.Killed
    requires View(n) == if out == Eager.Done then Eager.Poke(View(m), id, va, b) else Eager.Kill(View(m), id)
    ensures Stepped(m, n, Eager.DoWrite(id, va, b), out)
  {
  }

  lemma StepGuard(m: M, n: M, id: nat, v: nat)
    requires Live(m, id) && v < Pages(m.spaces[id].sz) && Dense(n)
    requires View(m)[id].pages[v].Seen? && View(n) == Eager.Guard(View(m), id, v)
    ensures Stepped(m, n, Eager.DoGuard(id, v), Eager.Done)
  {
  }

  /** The task table as the flat state has it. */
  lemma TaskIs(tasks: map<nat, Task>, m: M, id: nat)
    requires m.spaces == AbsAll(tasks)
    ensures id in tasks <==> id in m.spaces
    ensures id in tasks ==> tasks[id].sz == m.spaces[id].sz && tasks[id].killed == m.spaces[id].killed
    ensures id in tasks && !tasks[id].killed <==> Live(m, id)
  {
  }

  lemma StepFork(m: M, n: M, p: nat, c: nat, ok: bool)
    requires Live(m, p) && c !in m.spaces && c < NPROC && Dense(n)
    requires View(n) == if ok then Eager.Fork(View(m), p, c) else View(m)
    ensures Stepped(m, n, Eager.DoFork(p, c), if ok then Eager.Done else Eager.NoMemory)
  {
  }

  lemma StepGrow(m: M, n: M, id: nat, sz: nat, ok: bool)
    requires Live(m, id) && m.spaces[id].sz <= sz && Dense(n)
    requires ok ==> |View(m)[id].pages| <= Pages(sz) && sz < KERNBASE
    requires View(n) == if ok then Eager.Grow(View(m), id, sz) else View(m)
    ensures Stepped(m, n, Eager.DoGrow(id, sz),
                    if ok then Eager.Done else if sz < KERNBASE then Eager.NoMemory else Eager.Refused)
  {
  }

  lemma StepShrink(m: M, n: M, id: nat, sz: nat)
    requires Live(m, id) && 0 < sz <= m.spaces[id].sz && Dense(n)
    requires Pages(sz) <= |View(m)[id].pages| && View(n) == Eager.Shrink(View(m), id, sz)
    ensures Stepped(m, n, Eager.DoShrink(id, sz), Eager.Done)
  {
  }

  /** growproc(0) changes nothing. */
  lemma SameSize(m: M, id: nat)
    requires Dense(m) && id in m.spaces
    ensures var sz := m.spaces[id].sz;
            sz < KERNBASE && Eager.Grow(View(m), id, sz) == View(m) && Eager.Shrink(View(m), id, sz) == View(m)
  {
    var p := View(m)[id];
    assert DenseAt(m, id);
    assert p.pages + Eager.Fresh(0) == p.pages;
    assert p.pages[..|p.pages|] == p.pages;
  }

  /** So few frames are free that the command may run out of them. */
  ghost predicate Starved(m: M, cmd: Eager.Cmd) {
    match cmd
    case DoFork(_, _) => |m.free| <= NPDENTRIES + 1
    case DoGrow(id, sz) => id in m.spaces && |m.free| <= Pages(sz) - |View(m)[id].pages| + NPDENTRIES + 1
    case DoWrite(_, _, _) => m.free == []
    case _ => false
  }

  /** A run of the kernel, state by state: it reports and shows what eager copying
      would, and lack of memory only where there is too little. */
  ghost predicate Traces(ms: seq<M>, cmds: seq<Eager.Cmd>, outs: seq<Eager.Out>) {
    && |ms| == |cmds| + 1 && |outs| == |cmds|
    && (forall i :: 0 <= i < |cmds| ==> Stepped(ms[i], ms[i + 1], cmds[i], outs[i]))
    && (forall i :: 0 <= i < |cmds| && outs[i].NoMemory? ==> Starved(ms[i], cmds[i]))
  }

  lemma TracesSnoc(ms: seq<M>, cmds: seq<Eager.Cmd>, outs: seq<Eager.Out>, m: M, cmd: Eager.Cmd, out: Eager.Out)
    requires Traces(ms, cmds, outs) && Stepped(ms[|cmds|], m, cmd, out) && (out.NoMemory? ==> Starved(ms[|cmds|], cmd))
    ensures Traces(ms + [m], cmds + [cmd], outs + [out])
  {
    var ns, cs, os := ms + [m], cmds + [cmd], outs + [out];
    forall i | 0 <= i < |cs|
      ensures Stepped(ns[i], ns[i + 1], cs[i], os[i]) && (os[i].NoMemory? ==> Starved(ns[i], cs[i]))
    {
      if i < |cmds| {
        assert ns[i] == ms[i] && ns[i + 1] == ms[i + 1] && cs[i] == cmds[i] && os[i] == outs[i];
      } else {
        assert ns[i] == ms[i] && ns[i + 1] == m && cs[i] == cmd && os[i] == out;
      }
    }
  }
}
