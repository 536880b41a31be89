/** Path names: '/'-separated components, and what counts of a name buffer. */
module PathFormat {
  import opened FsFormat
  import D = DirFormat

  const SLASH: Byte := 47

  /** A C string without its terminator. */
  type Path = seq<Byte>

  /** The pieces between slashes, empty ones included. */
  function Split(p: Path): (r: seq<Path>)
    ensures |r| > 0
  {
    if p == [] then [[]]
    else if p[0] == SLASH then [[]] + Split(p[1..])
    else [[p[0]] + Split(p[1..])[0]] + Split(p[1..])[1..]
  }

  function NonEmpty(ps: seq<Path>): seq<Path> {
    if ps == [] then [] else (if ps[0] == [] then [] else [ps[0]]) + NonEmpty(ps[1..])
  }

  /** The components of a path. */
  function Comps(p: Path): seq<Path> {
    NonEmpty(Split(p))
  }

  function Join(ps: seq<Path>): Path {
    if ps == [] then [] else if |ps| == 1 then ps[0] else ps[0] + [SLASH] + Join(ps[1..])
  }

  predicate Component(w: Path) {
    w != [] && SLASH !in w
  }

  lemma Regroup(a: Path, b: Path, c: Path, d: Path)
    ensures a + b + c + d == a + (b + c + d)
  {
  }

  lemma JoinHead(c: Byte, ps: seq<Path>)
    requires |ps| > 0
    ensures Join([[c] + ps[0]] + ps[1..]) == [c] + Join(ps)
  {
    var qs := [[c] + ps[0]] + ps[1..];
    assert qs[1..] == ps[1..];
    if |ps| > 1 {
      Regroup([c], ps[0], [SLASH], Join(ps[1..]));
    }
  }

  /** Splitting loses nothing. */
  lemma {:induction false} JoinSplit(p: Path)
    ensures Join(Split(p)) == p
  {
    if p != [] {
      var r := Split(p[1..]);
      JoinSplit(p[1..]);
      if p[0] == SLASH {
        assert Split(p)[1..] == r;
      } else {
        JoinHead(p[0], r);
      }
    }
  }

  lemma SlashComps(p: Path)
    requires p != [] && p[0] == SLASH
    ensures Comps(p) == Comps(p[1..])
  {
    assert Split(p)[1..] == Split(p[1..]);
  }

  lemma {:induction false} WordSplit(w: Path, r: Path)
    requires SLASH !in w
    ensures Split(w + r) == [w + Split(r)[0]] + Split(r)[1..]
  {
    if w == [] {
      assert w + r == r && w + Split(r)[0] == Split(r)[0];
      assert [Split(r)[0]] + Split(r)[1..] == Split(r);
    } else {
      WordSplit(w[1..], r);
      assert (w + r)[1..] == w[1..] + r;
      assert [w[0]] + (w[1..] + Split(r)[0]) == w + Split(r)[0];
    }
  }

  /** A component up to a slash or the end comes off the front. */
  lemma WordComps(w: Path, r: Path)
    requires Component(w) && (r == [] || r[0] == SLASH)
    ensures Comps(w + r) == [w] + Comps(r)
  {
    WordSplit(w, r);
    assert Split(r)[0] == [];
    assert w + Split(r)[0] == w;
    assert Split(w + r)[1..] == Split(r)[1..];
  }

  lemma WordSlashComps(w: Path, p: Path)
    requires Component(w)
    ensures Comps(w + [SLASH] + p) == [w] + Comps(p)
  {
    var r := [SLASH] + p;
    assert r[1..] == p && w + [SLASH] + p == w + r;
    SlashComps(r);
    WordComps(w, r);
  }

  /** Components printed with slashes between them are read back. */
  lemma {:induction false} CompsJoin(ps: seq<Path>)
    requires forall i :: 0 <= i < |ps| ==> Component(ps[i])
    ensures Comps(Join(ps)) == ps
  {
    if |ps| == 1 {
      WordComps(ps[0], []);
      assert ps[0] + [] == ps[0];
    } else if |ps| > 1 {
      CompsJoin(ps[1..]);
      WordSlashComps(ps[0], Join(ps[1..]));
    }
  }

  /** Two buffers count the same if they agree up to n bytes or a common NUL. */
  lemma {:induction false} PrefixSame(s: D.Name, t: D.Name, n: nat, m: nat)
    requires m <= n && m <= |s| && m <= |t| && s[..m] == t[..m]
    requires m == n || (D.CharAt(s, m) == 0 && D.CharAt(t, m) == 0)
    ensures D.Prefix(s, n) == D.Prefix(t, n)
    decreases n
  {
    if m > 0 {
      assert s[0] == s[..m][0] == t[0];
      assert s[1..][..m - 1] == s[..m][1..] == t[..m][1..] == t[1..][..m - 1];
      assert D.CharAt(s[1..], m - 1) == D.CharAt(s, m) && D.CharAt(t[1..], m - 1) == D.CharAt(t, m);
      PrefixSame(s[1..], t[1..], n - 1, m - 1);
    }
  }

  /** What counts of a path component: its first DIRSIZ bytes. */
  lemma {:induction false} CutPrefix(w: Path, n: nat)
    requires 0 !in w
    ensures D.Prefix(w, n) == if |w| <= n then w else w[..n]
    decreases n
  {
    if n > 0 && w != [] {
      CutPrefix(w[1..], n - 1);
    }
  }

  // ---- skipelem ----

  lemma SlashAt(s: Path, k: nat)
    requires k < |s| && s[k] == SLASH
    ensures Comps(s[k + 1..]) == Comps(s[k..])
  {
    SlashComps(s[k..]);
    assert s[k..][1..] == s[k + 1..];
  }

  method SkipSlashes(s: Path, at: nat) returns (k: nat)
    requires at <= |s|
    ensures at <= k <= |s| && Comps(s[k..]) == Comps(s[at..]) && (k == |s| || s[k] != SLASH)
  {
    k := at;
    while k < |s| && s[k] == SLASH
      invariant at <= k <= |s| && Comps(s[k..]) == Comps(s[at..])
    {
      SlashAt(s, k);
      k := k + 1;
    }
  }

  method WordEnd(s: Path, b: nat) returns (e: nat)
    requires b < |s| && s[b] != SLASH
    ensures b < e <= |s| && Component(s[b..e]) && Comps(s[b..]) == [s[b..e]] + Comps(s[e..])
  {
    e := b;
    while e < |s| && s[e] != SLASH
      invariant b <= e <= |s| && SLASH !in s[b..e]
    {
      assert s[b..e + 1] == s[b..e] + [s[e]];
      e := e + 1;
    }
    WordComps(s[b..e], s[e..]);
    assert s[b..e] + s[e..] == s[b..];
  }

  /** Store a component in the name buffer; what lies beyond its NUL is left. */
  method CopyName(s: Path, b: nat, e: nat, name: array<Byte>)
    requires b < e <= |s| && name.Length == D.DIRSIZ
    modifies name
    ensures D.Key(name[..]) == D.Key(s[b..e])
  {
    var len := if e - b >= D.DIRSIZ then D.DIRSIZ else e - b;
    forall i | 0 <= i < len {
      name[i] := s[b + i];
    }
    if len < D.DIRSIZ {
      name[len] := 0;
    }
    assert name[..][..len] == s[b..e][..len];
    PrefixSame(name[..], s[b..e], D.DIRSIZ, len);
  }

  /** The place after the first component and the slashes that follow it, its name
      in the buffer; -1 if there is no component. */
  method SkipElem(s: Path, at: nat, name: array<Byte>) returns (next: int)
    requires at <= |s| && name.Length == D.DIRSIZ
    modifies name
    ensures next == -1 <==> Comps(s[at..]) == []
    ensures next == -1 ==> name[..] == old(name[..])
    ensures next != -1 ==> at < next <= |s| && Comps(s[next..]) == Comps(s[at..])[1..]
    ensures next != -1 ==> D.Key(name[..]) == D.Key(Comps(s[at..])[0])
    ensures next != -1 ==> (next == |s| <==> |Comps(s[at..])| == 1) && (next < |s| ==> s[next] != SLASH)
  {
    var b := SkipSlashes(s, at);
    if b == |s| {
      return -1;
    }
    var e := WordEnd(s, b);
    CopyName(s, b, e, name);
    var k := SkipSlashes(s, e);
    assert Comps(s[b..])[1..] == Comps(s[k..]);
    if k < |s| {
      HasWord(s, k);
    }
    next := k;
  }

  lemma HasWord(s: Path, k: nat)
    requires k < |s| && s[k] != SLASH
    ensures Comps(s[k..]) != []
  {
    assert Split(s[k..])[0] != [];
  }

  /** From byte at on, the path has the components from the n-th on. */
  ghost predicate Rest(s: Path, at: nat, cs: seq<Path>, n: nat) {
    at <= |s| && n <= |cs| && Comps(s[at..]) == cs[n..]
  }

  lemma WholePath(s: Path)
    ensures Rest(s, 0, Comps(s), 0)
  {
    assert s[0..] == s;
  }

  /** The n-th component is in the name buffer and the path goes on at next; or
      there is none. */
  ghost predicate Ahead(s: Path, next: int, cs: seq<Path>, n: nat, name: D.Name) {
    if next < 0 then n == |cs|
    else n < |cs| && Rest(s, next, cs, n + 1) && D.Key(name) == D.Key(cs[n]) && (next == |s| <==> n + 1 == |cs|)
  }

  /** skipelem on the way through a path. */
  method NextElem(s: Path, at: nat, name: array<Byte>, ghost cs: seq<Path>, ghost n: nat) returns (next: int)
    requires Rest(s, at, cs, n) && name.Length == D.DIRSIZ
    modifies name
    ensures -1 <= next <= |s| && Ahead(s, next, cs, n, name[..])
    ensures next == -1 ==> name[..] == old(name[..])
  {
    next := SkipElem(s, at, name);
  }
}
