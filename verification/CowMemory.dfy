/** When memory runs out: where the frames that were free have gone. */
module CowMemory {
  import opened Paging
  import opened Frames
  import opened Spaces
  import opened CowStates

  // ---- Counting ----

  function Image(t: map<nat, nat>): set<nat> {
    set d | d in t :: t[d]
  }

  lemma ImageSplit(t: map<nat, nat>, u: map<nat, nat>, d: nat)
    requires d in t && u == t - {d}
    ensures Image(t) == Image(u) + {t[d]}
  {
    forall y | y in Image(t)
      ensures y in Image(u) + {t[d]}
    {
      var e :| e in t && t[e] == y;
      assert e == d || (e in u && u[e] == y);
    }
    forall y | y in Image(u)
      ensures y in Image(t)
    {
      var e :| e in u && u[e] == y;
      assert e in t;
    }
    assert d in t;
  }

  lemma {:induction false} ImageBound(t: map<nat, nat>, lo: nat, hi: nat)
    requires lo <= hi && forall d :: d in t ==> lo <= d < hi
    ensures |Image(t)| <= hi - lo
    decreases hi
  {
    if lo == hi {
      assert Image(t) == {};
    } else {
      var u := t - {hi - 1};
      ImageBound(u, lo, hi - 1);
      if hi - 1 in t {
        ImageSplit(t, u, hi - 1);
      } else {
        assert u == t;
      }
    }
  }

  lemma {:induction false} DistinctBound(s: seq<nat>, u: set<nat>)
    requires forall i, j :: 0 <= i < j < |s| ==> s[i] != s[j]
    requires forall i :: 0 <= i < |s| ==> s[i] in u
    ensures |s| <= |u|
  {
    if s != [] {
      var t := s[1..];
      forall i | 0 <= i < |t|
        ensures t[i] in u - {s[0]}
      {
        assert t[i] == s[i + 1];
      }
      DistinctBound(t, u - {s[0]});
    }
  }

  // ---- Frames ----

  ghost predicate InUse(m: M, f: nat) {
    exists k: nat, x: nat :: IsMapped(m, k, x) && At(m, k, x).frame == f
  }

  lemma UserMapped(m: M, f: nat)
    requires Inv(m) && f < NFRAMES
    ensures m.role[f] == User <==> InUse(m, f)
  {
    if m.role[f] == User {
      assert Users(m.spaces, f) != {};
      var u :| u in Users(m.spaces, f);
      assert IsMapped(m, u.0, u.1) && At(m, u.0, u.1).frame == f;
    }
  }

  /** The other spaces have kept their directories and tables. */
  ghost predicate OwnersSame(g: M, n: M, id: nat) {
    forall k :: k in n.spaces && k != id ==>
      k in g.spaces && n.spaces[k].dir == g.spaces[k].dir && n.spaces[k].tables == g.spaces[k].tables
  }

  ghost predicate OldOrNew(g: M, pages: set<nat>, f: nat) {
    f in pages || InUse(g, f)
  }

  /** Frames newly mapped are among pages, frames the kernel has taken for itself
      among held. */
  ghost predicate Accounts(g: M, n: M, pages: set<nat>, held: set<nat>) {
    && |g.role| == |n.role|
    && (forall f :: 0 <= f < |g.role| && n.role[f] == Kernel && g.role[f] != Kernel ==> f in held)
    && (forall k: nat, x: nat :: IsMapped(n, k, x) ==> OldOrNew(g, pages, At(n, k, x).frame))
  }

  function Used(n: M, id: nat, pages: set<nat>, held: set<nat>): set<nat>
    requires id in n.spaces
  {
    pages + held + {n.spaces[id].dir} + Image(n.spaces[id].tables)
  }

  lemma Taken(g: M, n: M, id: nat, pages: set<nat>, held: set<nat>, f: nat)
    requires Inv(g) && Inv(n) && n.free == [] && id in n.spaces && OwnersSame(g, n, id)
    requires Accounts(g, n, pages, held) && f < NFRAMES && g.role[f] == Free
    ensures f in Used(n, id, pages, held)
  {
    UserMapped(g, f);
    UserMapped(n, f);
    match n.role[f]
    case Free =>
    case Kernel =>
    case User =>
      var k: nat, x: nat :| IsMapped(n, k, x) && At(n, k, x).frame == f;
      assert OldOrNew(g, pages, At(n, k, x).frame);
    case Dir(k) =>
    case TableOf(k, d) =>
  }

  /** With no frame left, those that were free are accounted for. */
  lemma AllTaken(g: M, n: M, id: nat, pages: set<nat>, held: set<nat>)
    requires Inv(g) && Inv(n) && n.free == [] && id in n.spaces && OwnersSame(g, n, id)
    requires Accounts(g, n, pages, held)
    ensures |g.free| <= |pages| + |held| + 1 + NPDENTRIES
  {
    forall i | 0 <= i < |g.free|
      ensures g.free[i] in Used(n, id, pages, held)
    {
      Taken(g, n, id, pages, held, g.free[i]);
    }
    DistinctBound(g.free, Used(n, id, pages, held));
    ImageBound(n.spaces[id].tables, 0, NPDENTRIES);
    assert |pages + held| <= |pages| + |held|;
  }

  // ---- The three ways to run out ----

  lemma KeptSpace(g: M, n: M, id: nat, k: nat)
    requires OthersKept(g, n, id) && k != id && k in n.spaces
    ensures k in g.spaces && n.spaces[k] == g.spaces[k]
  {
    assert k in n.spaces - {id} && (n.spaces - {id})[k] == n.spaces[k];
    assert k in g.spaces - {id} && (g.spaces - {id})[k] == g.spaces[k];
  }

  /** setupkvm fails. */
  lemma SetupStarved(g: M, n: M, c: nat)
    requires Inv(g) && Inv(n) && Rest(g, n, c) && c in n.spaces && NoUserPages(n, c) && n.free == []
    ensures |g.free| <= NPDENTRIES + 1
  {
    forall k | k in n.spaces && k != c
      ensures k in g.spaces && n.spaces[k] == g.spaces[k]
    {
      KeptSpace(g, n, c, k);
    }
    forall k: nat, x: nat | IsMapped(n, k, x)
      ensures InUse(g, At(n, k, x).frame)
    {
      assert IsMapped(g, k, x) && At(g, k, x) == At(n, k, x);
    }
    AllTaken(g, n, c, {}, {});
  }

  /** copyuvmcow fails. */
  lemma CopyStarved(g: M, n: M, p: nat, c: nat, x: nat)
    requires Inv(g) && Inv(n) && Copied(g, n, p, c, x) && n.free == []
    ensures |g.free| <= NPDENTRIES + 1
  {
    forall k | k in n.spaces && k != c && k != p
      ensures k in g.spaces && n.spaces[k] == g.spaces[k]
    {
      CopiedOther(g, n, p, c, x, k);
    }
    forall k: nat, y: nat | IsMapped(n, k, y)
      ensures InUse(g, At(n, k, y).frame)
    {
      CopiedInUse(g, n, p, c, x, k, y);
    }
    AllTaken(g, n, c, {}, {});
  }

  lemma CopiedOther(g: M, n: M, p: nat, c: nat, x: nat, k: nat)
    requires Copied(g, n, p, c, x) && k in n.spaces && k != c && k != p
    ensures k in g.spaces && n.spaces[k] == g.spaces[k]
  {
    assert k in n.spaces - {p, c} && (n.spaces - {p, c})[k] == n.spaces[k];
    assert k in g.spaces - {p, c} && (g.spaces - {p, c})[k] == g.spaces[k];
  }

  lemma CopiedInUse(g: M, n: M, p: nat, c: nat, x: nat, k: nat, y: nat)
    requires Inv(g) && Inv(n) && Copied(g, n, p, c, x) && IsMapped(n, k, y)
    ensures InUse(g, At(n, k, y).frame)
  {
    if k == c || k == p {
      assert IsMapped(n, p, y) && At(n, p, y).frame == At(n, k, y).frame;
      assert IsMapped(g, p, y) && At(g, p, y).frame == At(n, p, y).frame;
    } else {
      CopiedOther(g, n, p, c, x, k);
      assert IsMapped(g, k, y) && At(g, k, y) == At(n, k, y);
    }
  }

  function FrameMap(n: M, id: nat, lo: nat, v: nat): map<nat, nat>
    requires forall x: nat :: lo <= x < v ==> IsMapped(n, id, x)
  {
    map x: nat | lo <= x < v :: At(n, id, x).frame
  }

  lemma GrownPages(g: M, m: M, id: nat, lo: nat, v: nat, x: nat)
    requires Grown(g, m, id, lo, v) && lo <= x < v
    ensures IsMapped(m, id, x)
  {
    assert Look(m, id, x).Seen?;
  }

  lemma GrownOld(g: M, m: M, id: nat, lo: nat, v: nat, k: nat, x: nat)
    requires Grown(g, m, id, lo, v) && IsMapped(m, k, x) && (k != id || !(lo <= x < v))
    ensures InUse(g, At(m, k, x).frame)
  {
    if k != id {
      KeptSpace(g, m, id, k);
    }
    assert IsMapped(g, k, x) && At(g, k, x) == At(m, k, x);
  }

  lemma GrownOwners(g: M, m: M, id: nat, lo: nat, v: nat)
    requires Grown(g, m, id, lo, v)
    ensures OwnersSame(g, m, id)
  {
    forall k | k in m.spaces && k != id
      ensures k in g.spaces && m.spaces[k] == g.spaces[k]
    {
      KeptSpace(g, m, id, k);
    }
  }

  lemma GrownAccounts(g: M, m: M, id: nat, lo: nat, v: nat) returns (pages: set<nat>)
    requires Grown(g, m, id, lo, v) && lo <= v
    ensures |pages| <= v - lo
    ensures forall k: nat, x: nat :: IsMapped(m, k, x) ==> OldOrNew(g, pages, At(m, k, x).frame)
  {
    forall x: nat | lo <= x < v
      ensures IsMapped(m, id, x)
    {
      GrownPages(g, m, id, lo, v, x);
    }
    var t := FrameMap(m, id, lo, v);
    ImageBound(t, lo, v);
    pages := Image(t);
    forall k: nat, x: nat | IsMapped(m, k, x)
      ensures OldOrNew(g, pages, At(m, k, x).frame)
    {
      if k == id && lo <= x < v {
        assert x in t && t[x] == At(m, k, x).frame;
      } else {
        GrownOld(g, m, id, lo, v, k, x);
      }
    }
  }

  /** allocuvm fails with v - lo pages done, and perhaps a frame for the next. */
  lemma GrowStarved(g: M, m: M, n: M, id: nat, lo: nat, v: nat, f: nat)
    requires Inv(g) && Inv(n) && Grown(g, m, id, lo, v) && KernelKept(g, m) && lo <= v && n.free == []
    requires if f == 0 then n == m else Reserved(m, n, f, ZeroPage())
    ensures |g.free| <= v - lo + NPDENTRIES + 2
  {
    var pages := GrownAccounts(g, m, id, lo, v);
    GrownOwners(g, m, id, lo, v);
    forall k: nat, x: nat | IsMapped(n, k, x)
      ensures OldOrNew(g, pages, At(n, k, x).frame)
    {
      assert IsMapped(m, k, x) && At(m, k, x) == At(n, k, x);
    }
    AllTaken(g, n, id, pages, {f});
  }
}
