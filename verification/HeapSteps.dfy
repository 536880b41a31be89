/** The elementary changes malloc, free and morecore make to the heap. */
module HeapSteps {
  import opened HeapState

  // ---- free: insert, then merge ----

  /** Block bp enters the ring after p. */
  function Insert(h: H, p: nat, bp: nat): H
    requires p in h.ptr
  {
    H(h.ptr[bp := h.ptr[p]][p := bp], h.size, h.nodes + {bp}, h.live - {bp}, h.owned, h.brk)
  }

  lemma InsertRing(h: H, p: nat, bp: nat)
    requires Ring(h) && Below(h, p, bp) && bp in h.size
    ensures Ring(Insert(h, p, bp))
  {
    var n := Insert(h, p, bp);
    assert forall b :: b in n.nodes ==> b in n.ptr;
    forall b {:trigger Succ(n, b)} | b in n.nodes
      ensures Follows(n.nodes, b, Succ(n, b))
    {
      InsertNode(h, n, p, bp, b);
    }
  }

  lemma InsertNode(h: H, n: H, p: nat, bp: nat, b: nat)
    requires Ring(h) && Below(h, p, bp) && n == Insert(h, p, bp) && b in n.nodes
    ensures b in n.ptr && Follows(n.nodes, b, Succ(n, b))
  {
    if b == p {
      FollowsNew(h.nodes, p, bp);
    } else if b == bp {
      assert Follows(h.nodes, p, Succ(h, p));
      FollowsOn(h.nodes, p, bp, Succ(h, p));
    } else {
      assert Follows(h.nodes, b, Succ(h, b));
      FollowsStill(h.nodes, p, bp, b, Succ(h, b));
    }
  }

  /** bp comes between p and what followed p; nothing else changes. */
  lemma FollowsNew(nodes: set<nat>, p: nat, bp: nat)
    requires p in nodes && p < bp && (forall c :: c in nodes ==> c <= p || bp < c)
    ensures Follows(nodes + {bp}, p, bp)
  {
  }

  lemma FollowsOn(nodes: set<nat>, p: nat, bp: nat, n: nat)
    requires p in nodes && p < bp && (forall c :: c in nodes ==> c <= p || bp < c) && Follows(nodes, p, n)
    ensures Follows(nodes + {bp}, bp, n)
  {
  }

  lemma FollowsStill(nodes: set<nat>, p: nat, bp: nat, b: nat, n: nat)
    requires p in nodes && p < bp && (forall c :: c in nodes ==> c <= p || bp < c)
    requires b in nodes && b != p && Follows(nodes, b, n)
    ensures Follows(nodes + {bp}, b, n)
  {
  }

  lemma InsertOrdered(h: H, p: nat, bp: nat)
    requires Ring(h) && Ordered(h) && Apart(h) && bp in h.live && p in h.ptr && Ring(Insert(h, p, bp))
    ensures Ordered(Insert(h, p, bp))
  {
    var n := Insert(h, p, bp);
    forall b, c | b in n.nodes && c in n.nodes && b < c
      ensures b + n.size[b] <= c
    {
      if b == bp {
        assert Clear(c, h.size[c], bp, h.live[bp]);
      } else if c == bp {
        assert Clear(b, h.size[b], bp, h.live[bp]);
      }
    }
  }

  lemma InsertApart(h: H, p: nat, bp: nat)
    requires Ring(h) && Ordered(h) && Apart(h) && bp in h.live && p in h.ptr && Ring(Insert(h, p, bp))
    ensures Apart(Insert(h, p, bp))
  {
    var n := Insert(h, p, bp);
    forall b, c | b in n.live && c in n.nodes
      ensures Clear(c, n.size[c], b, n.live[b])
    {
      if c != bp {
        assert Clear(c, h.size[c], b, h.live[b]);
      }
    }
  }

  lemma InsertConserves(h: H, p: nat, bp: nat)
    requires Sound(h) && bp in h.live && Below(h, p, bp)
    ensures Conserved(Insert(h, p, bp))
  {
    var n := Insert(h, p, bp);
    forall a: nat
      ensures IsFree(n, a) || IsLive(n, a) <==> IsFree(h, a) || IsLive(h, a)
    {
      if IsFree(h, a) {
        var b :| b in h.nodes && b in h.size && b <= a < b + h.size[b];
        assert b in n.nodes;
      }
      if IsLive(h, a) {
        var b :| b in h.live && b <= a < b + h.live[b];
        assert b == bp ==> b in n.nodes;
        assert b != bp ==> b in n.live;
      }
    }
  }

  lemma InsertKeeps(h: H, p: nat, bp: nat)
    requires Sound(h) && bp in h.live && Below(h, p, bp)
    ensures Sound(Insert(h, p, bp))
  {
    InsertRing(h, p, bp);
    InsertOrdered(h, p, bp);
    InsertApart(h, p, bp);
    InsertConserves(h, p, bp);
  }

  /** Of blocks that touch, one is bp and the other its neighbour. */
  lemma InsertTouch(h: H, p: nat, bp: nat, b: nat, c: nat)
    requires Inv(h) && bp in h.live && Below(h, p, bp)
    requires b in h.nodes + {bp} && c in h.nodes + {bp} && b != c && Touch(h, b, c)
    ensures (b == p && c == bp) || (b == bp && c == h.ptr[p])
  {
    assert Follows(h.nodes, p, Succ(h, p));
  }

  /** Block b swallows the one it touches. */
  function Merge(h: H, b: nat): H
    requires b in h.ptr && b in h.size && h.ptr[b] in h.ptr && h.ptr[b] in h.size
  {
    var c := h.ptr[b];
    H(h.ptr[b := h.ptr[c]], h.size[b := h.size[b] + h.size[c]], h.nodes - {c}, h.live, h.owned, h.brk)
  }

  lemma MergeRing(h: H, b: nat, c: nat)
    requires Sound(h) && b in h.nodes && c == h.ptr[b] && Touch(h, b, c) && b != c
    ensures BASE < b < c && c in h.nodes && Ring(Merge(h, b))
  {
    assert Follows(h.nodes, b, Succ(h, b));
    assert Follows(h.nodes, c, Succ(h, c));
    var n := Merge(h, b);
    forall x | x in n.nodes
      ensures x in n.ptr && Follows(n.nodes, x, Succ(n, x))
    {
      if x != b {
        assert Follows(h.nodes, x, Succ(h, x));
      }
    }
  }

  lemma MergeOrdered(h: H, b: nat, c: nat)
    requires Ring(h) && Ordered(h) && BASE < b < c && b in h.nodes && c in h.nodes && c == h.ptr[b] && Touch(h, b, c)
    requires Ring(Merge(h, b))
    ensures Ordered(Merge(h, b))
  {
    var n := Merge(h, b);
    forall x, y | x in n.nodes && y in n.nodes && x < y
      ensures x + n.size[x] <= y
    {
      if x == b {
        assert b + h.size[b] <= y && (c < y ==> c + h.size[c] <= y);
      }
    }
  }

  lemma MergeApart(h: H, b: nat, c: nat)
    requires Ring(h) && Ordered(h) && Apart(h) && BASE < b < c && b in h.nodes && c in h.nodes
    requires c == h.ptr[b] && Touch(h, b, c) && Ring(Merge(h, b))
    ensures Apart(Merge(h, b))
  {
    var n := Merge(h, b);
    forall x, y | x in n.live && y in n.nodes
      ensures Clear(y, n.size[y], x, n.live[x])
    {
      if y == b {
        assert Clear(b, h.size[b], x, h.live[x]) && Clear(c, h.size[c], x, h.live[x]);
      } else {
        assert Clear(y, h.size[y], x, h.live[x]);
      }
    }
  }

  lemma MergeConserves(h: H, b: nat, c: nat)
    requires Sound(h) && b < c && b in h.nodes && c in h.nodes && c == h.ptr[b] && Touch(h, b, c)
    ensures Conserved(Merge(h, b))
  {
    var n := Merge(h, b);
    forall a: nat
      ensures IsFree(n, a) <==> IsFree(h, a)
    {
      MergeFree(h, n, b, c, a);
    }
    assert forall a: nat :: IsLive(n, a) <==> IsLive(h, a);
  }

  lemma MergeFree(h: H, n: H, b: nat, c: nat, a: nat)
    requires b < c && b in h.nodes && c in h.nodes && c in h.size && b in h.size && b in h.ptr && c in h.ptr && c == h.ptr[b]
    requires Touch(h, b, c) && n == Merge(h, b)
    ensures IsFree(n, a) <==> IsFree(h, a)
  {
    if IsFree(h, a) {
      var x :| x in h.nodes && x in h.size && x <= a < x + h.size[x];
      var y := if x == c then b else x;
      assert y in n.nodes && y <= a < y + n.size[y];
    }
    if IsFree(n, a) {
      var x :| x in n.nodes && x in n.size && x <= a < x + n.size[x];
      var y := if x == b && a >= c then c else x;
      assert y in h.nodes && y <= a < y + h.size[y];
    }
  }

  lemma MergeKeeps(h: H, b: nat, c: nat)
    requires Sound(h) && b in h.nodes && c == h.ptr[b] && Touch(h, b, c) && b != c
    ensures b < c && c in h.nodes && Sound(Merge(h, b))
  {
    MergeRing(h, b, c);
    MergeOrdered(h, b, c);
    MergeApart(h, b, c);
    MergeConserves(h, b, c);
  }

  /** The heap after free has put bp after p and merged what touches. */
  function Freed(h: H, p: nat, bp: nat): H
    requires p in h.ptr && p in h.size && bp in h.size && h.ptr[p] in h.size && h.ptr[p] in h.ptr && p != bp
  {
    var n := Insert(h, p, bp);
    var u := if Touch(h, bp, h.ptr[p]) then Merge(n, bp) else n;
    if Touch(u, p, bp) then Merge(u, p) else u
  }

  /** The assignments free makes to the headers of p, bp and the next block x. */
  function FreedSize(size: map<nat, nat>, p: nat, bp: nat, x: nat): map<nat, nat>
    requires p in size && bp in size && x in size
  {
    var s := if bp + size[bp] == x then size[bp := size[bp] + size[x]] else size;
    if p + s[p] == bp then s[p := s[p] + s[bp]] else s
  }

  function FreedPtr(ptr: map<nat, nat>, size: map<nat, nat>, p: nat, bp: nat, x: nat): map<nat, nat>
    requires x in ptr && p in size && bp in size
  {
    var q := if bp + size[bp] == x then ptr[x] else x;
    ptr[bp := q][p := if p + size[p] == bp then q else bp]
  }

  lemma FreedIs(h: H, p: nat, bp: nat, x: nat)
    requires p in h.ptr && p in h.size && bp in h.size && x == h.ptr[p] && x in h.size && x in h.ptr && p < bp
    requires x != bp
    ensures Freed(h, p, bp).ptr == FreedPtr(h.ptr, h.size, p, bp, x)
    ensures Freed(h, p, bp).size == FreedSize(h.size, p, bp, x)
  {
  }

  lemma FreedUp(h: H, p: nat, bp: nat, n: H, u: H)
    requires Inv(h) && bp in h.live && Below(h, p, bp) && n == Insert(h, p, bp) && h.ptr[p] in h.size && h.ptr[p] in h.ptr
    requires u == if Touch(h, bp, h.ptr[p]) then Merge(n, bp) else n
    ensures Sound(u) && p in u.nodes && bp in u.nodes && u.ptr[p] == bp && u.live == h.live - {bp}
    ensures u.owned == h.owned && u.brk == h.brk && u.size[bp] >= h.live[bp]
    ensures forall b, c :: b in u.nodes && c in u.nodes && b != c && Touch(u, b, c) ==> b == p && c == bp
  {
    InsertKeeps(h, p, bp);
    assert Follows(h.nodes, p, Succ(h, p));
    var x := h.ptr[p];
    if Touch(h, bp, x) {
      assert Touch(n, bp, x) && n.ptr[bp] == x && bp != x;
      MergeKeeps(n, bp, x);
    }
    forall b, c | b in u.nodes && c in u.nodes && b != c && Touch(u, b, c)
      ensures b == p && c == bp
    {
      if Touch(h, bp, x) {
        if b == bp {
          assert Touch(h, x, c);
          InsertTouch(h, p, bp, x, c);
        } else {
          InsertTouch(h, p, bp, b, c);
        }
      } else {
        InsertTouch(h, p, bp, b, c);
      }
    }
  }

  /** free keeps the heap sound and coalesced, and frees bp's units only. */
  lemma FreedKeeps(h: H, p: nat, bp: nat)
    requires Inv(h) && bp in h.live && Below(h, p, bp)
    ensures p in h.ptr && h.ptr[p] in h.size && h.ptr[p] in h.ptr && Inv(Freed(h, p, bp))
    ensures p in Freed(h, p, bp).nodes && HasFit(Freed(h, p, bp), h.live[bp])
    ensures Freed(h, p, bp).live == h.live - {bp} && Freed(h, p, bp).owned == h.owned && Freed(h, p, bp).brk == h.brk
  {
    assert Follows(h.nodes, p, Succ(h, p));
    var n := Insert(h, p, bp);
    var u := if Touch(h, bp, h.ptr[p]) then Merge(n, bp) else n;
    FreedUp(h, p, bp, n, u);
    if Touch(u, p, bp) {
      MergeKeeps(u, p, bp);
      FreedDown(u, p, bp);
    }
  }

  lemma FreedDown(u: H, p: nat, bp: nat)
    requires Sound(u) && p in u.nodes && bp in u.nodes && u.ptr[p] == bp && Touch(u, p, bp) && Sound(Merge(u, p)) && p < bp
    requires forall b, c :: b in u.nodes && c in u.nodes && b != c && Touch(u, b, c) ==> b == p && c == bp
    ensures Coalesced(Merge(u, p)) && HasFit(Merge(u, p), u.size[bp])
  {
    var r := Merge(u, p);
    assert p in r.nodes && r.size[p] >= u.size[bp];
    forall b, c | b in r.nodes && c in r.nodes && b != c
      ensures !Touch(r, b, c)
    {
      assert b == p ==> !Touch(u, bp, c);
      assert b != p ==> !Touch(u, b, c);
    }
  }

  // ---- Finding the place for a block ----

  lemma {:induction false} Largest(s: set<nat>, x: nat, b: nat) returns (t: nat)
    requires b in s && b < x
    ensures t in s && t < x && forall c :: c in s && c < x ==> c <= t
    decreases x - b
  {
    if c :| c in s && b < c < x {
      t := Largest(s, x, c);
    } else {
      t := b;
    }
  }

  /** There is a free block below bp: base, if no other. */
  lemma PlaceFor(h: H, bp: nat) returns (t: nat)
    requires Sound(h) && bp in h.live
    ensures Below(h, t, bp)
  {
    t := Largest(h.nodes, bp, BASE);
  }

  /** How far the search at p is from t, going round. */
  function ToGo(p: nat, t: nat, brk: nat): int {
    if p <= t then t - p else brk - p + t + 1
  }

  /** free's loop stops at the right place and nowhere else. */
  lemma SearchStops(h: H, p: nat, t: nat, bp: nat)
    requires Sound(h) && bp in h.live && Below(h, t, bp) && p in h.nodes
    ensures p in h.ptr
    ensures var q := h.ptr[p];
            (p < bp < q) || (p >= q && (bp > p || bp < q)) <==> p == t
  {
    assert Follows(h.nodes, p, Succ(h, p));
  }

  lemma SearchMoves(h: H, p: nat, t: nat)
    requires Sound(h) && p in h.nodes && t in h.nodes && p != t
    ensures p in h.ptr && h.ptr[p] in h.nodes && 0 <= ToGo(h.ptr[p], t, h.brk) < ToGo(p, t, h.brk)
  {
    assert Follows(h.nodes, p, Succ(h, p));
    assert p + h.size[p] <= h.brk && t + h.size[t] <= h.brk;
  }

  // ---- malloc ----

  /** The tail of block p becomes a block of n units. */
  function Split(h: H, p: nat, n: nat, q: nat): H
    requires p in h.size && h.size[p] >= n
  {
    H(h.ptr, h.size[p := h.size[p] - n][q := n], h.nodes, h.live[q := n], h.owned, h.brk)
  }

  lemma SplitKeeps(h: H, p: nat, n: nat, q: nat)
    requires Inv(h) && p in h.nodes && 0 < n < h.size[p] && q == p + h.size[p] - n
    ensures q !in h.live && Inv(Split(h, p, n, q))
  {
    var r := Split(h, p, n, q);
    SplitNew(h, p, n, q);
    forall b | b in r.nodes
      ensures Follows(r.nodes, b, Succ(r, b))
    {
      assert Follows(h.nodes, b, Succ(h, b));
    }
    SplitOrdered(h, p, n, q);
    SplitApart(h, p, n, q);
    SplitConserves(h, p, n, q);
  }

  lemma SplitNew(h: H, p: nat, n: nat, q: nat)
    requires Ring(h) && Ordered(h) && Apart(h) && p in h.nodes && 0 < n < h.size[p] && q == p + h.size[p] - n
    ensures q !in h.live && q !in h.nodes && p !in h.live
    ensures forall b :: b in h.live ==> Clear(q, n, b, h.live[b])
    ensures forall c :: c in h.nodes && c != p ==> Clear(c, h.size[c], q, n)
  {
    forall b | b in h.live
      ensures b != q && Clear(q, n, b, h.live[b])
    {
      assert Clear(p, h.size[p], b, h.live[b]);
    }
  }

  lemma SplitOrdered(h: H, p: nat, n: nat, q: nat)
    requires Ring(h) && Ordered(h) && Coalesced(h) && p in h.nodes && 0 < n < h.size[p] && q == p + h.size[p] - n
    requires q !in h.nodes && Ring(Split(h, p, n, q))
    ensures Ordered(Split(h, p, n, q)) && Coalesced(Split(h, p, n, q))
  {
    var r := Split(h, p, n, q);
    assert forall c :: c in h.nodes && c != p ==> r.size[c] == h.size[c];
    forall x, y | x in r.nodes && y in r.nodes && x != y
      ensures !Touch(r, x, y) && (x < y ==> x + r.size[x] <= y)
    {
      assert !Touch(h, x, y);
    }
  }

  lemma SplitApart(h: H, p: nat, n: nat, q: nat)
    requires Ring(h) && Ordered(h) && Apart(h) && p in h.nodes && 0 < n < h.size[p] && q == p + h.size[p] - n
    requires Ring(Split(h, p, n, q))
    ensures Apart(Split(h, p, n, q))
  {
    var r := Split(h, p, n, q);
    SplitNew(h, p, n, q);
    forall x, y | x in r.live && y in r.nodes
      ensures Clear(y, r.size[y], x, r.live[x])
    {
      if x != q {
        assert Clear(y, h.size[y], x, h.live[x]);
      }
    }
    forall x, y | x in r.live && y in r.live && x < y
      ensures x + r.live[x] <= y
    {
      SplitLive(h, p, n, q, x, y);
    }
  }

  lemma SplitLive(h: H, p: nat, n: nat, q: nat, x: nat, y: nat)
    requires Ring(h) && Apart(h) && p in h.nodes && 0 < n < h.size[p] && q == p + h.size[p] - n
    requires (x == q || x in h.live) && (y == q || y in h.live) && x < y
    ensures x + (if x == q then n else h.live[x]) <= y
  {
    if x == q {
      assert Clear(p, h.size[p], y, h.live[y]);
    } else if y == q {
      assert Clear(p, h.size[p], x, h.live[x]);
    }
  }

  lemma SplitConserves(h: H, p: nat, n: nat, q: nat)
    requires Inv(h) && p in h.nodes && 0 < n < h.size[p] && q == p + h.size[p] - n && q !in h.nodes && q !in h.live
    ensures Conserved(Split(h, p, n, q))
  {
    var r := Split(h, p, n, q);
    forall a: nat
      ensures IsFree(r, a) || IsLive(r, a) <==> IsFree(h, a) || IsLive(h, a)
    {
      if IsFree(h, a) || IsLive(h, a) {
        SplitCovers(h, p, n, q, a);
      }
      if IsFree(r, a) {
        var b :| b in r.nodes && b in r.size && b <= a < b + r.size[b];
        assert b in h.nodes && b <= a < b + h.size[b];
      }
      if IsLive(r, a) {
        var b :| b in r.live && b <= a < b + r.live[b];
        assert if b == q then p in h.nodes && p <= a < p + h.size[p] else b in h.live;
      }
    }
  }

  lemma SplitCovers(h: H, p: nat, n: nat, q: nat, a: nat)
    requires p in h.nodes && p in h.size && 0 < n < h.size[p] && q == p + h.size[p] - n && q !in h.nodes && q !in h.live
    requires IsFree(h, a) || IsLive(h, a)
    ensures IsFree(Split(h, p, n, q), a) || IsLive(Split(h, p, n, q), a)
  {
    var r := Split(h, p, n, q);
    if IsFree(h, a) {
      var b :| b in h.nodes && b in h.size && b <= a < b + h.size[b];
      assert if b == p && a >= q then q in r.live && r.live[q] == n else b in r.nodes && b <= a < b + r.size[b];
    } else {
      var b :| b in h.live && b <= a < b + h.live[b];
      assert b in r.live && r.live[b] == h.live[b];
    }
  }

  /** Block p leaves the ring whole. */
  function Unlink(h: H, prev: nat, p: nat): H
    requires p in h.ptr && p in h.size
  {
    H(h.ptr[prev := h.ptr[p]], h.size, h.nodes - {p}, h.live[p := h.size[p]], h.owned, h.brk)
  }

  lemma UnlinkRing(h: H, prev: nat, p: nat)
    requires Sound(h) && prev in h.nodes && h.ptr[prev] == p && p in h.size && h.size[p] > 0
    ensures BASE < p && prev < p && p in h.nodes && Ring(Unlink(h, prev, p))
  {
    assert Follows(h.nodes, prev, Succ(h, prev));
    assert Follows(h.nodes, p, Succ(h, p));
    var r := Unlink(h, prev, p);
    forall b | b in r.nodes
      ensures b in r.ptr && Follows(r.nodes, b, Succ(r, b))
    {
      if b != prev {
        assert Follows(h.nodes, b, Succ(h, b));
      }
    }
  }

  lemma UnlinkKeeps(h: H, prev: nat, p: nat)
    requires Inv(h) && prev in h.nodes && h.ptr[prev] == p && p in h.size && h.size[p] > 0
    ensures prev != p && p in h.nodes && p !in h.live && Inv(Unlink(h, prev, p))
  {
    UnlinkRing(h, prev, p);
    UnlinkConserves(h, prev, p);
    UnlinkApart(h, prev, p);
  }

  lemma UnlinkApart(h: H, prev: nat, p: nat)
    requires Inv(h) && p in h.nodes && h.size[p] > 0 && Ring(Unlink(h, prev, p)) && BASE < p && p !in h.live
    ensures Ordered(Unlink(h, prev, p)) && Apart(Unlink(h, prev, p)) && Coalesced(Unlink(h, prev, p))
  {
    var r := Unlink(h, prev, p);
    forall x, y | x in r.live && y in r.nodes
      ensures Clear(y, r.size[y], x, r.live[x])
    {
      if x != p {
        assert Clear(y, h.size[y], x, h.live[x]);
      }
    }
    forall x, y | x in r.live && y in r.live && x < y
      ensures x + r.live[x] <= y
    {
      if x == p {
        assert Clear(p, h.size[p], y, h.live[y]);
      } else if y == p {
        assert Clear(p, h.size[p], x, h.live[x]);
      }
    }
    forall x, y | x in r.nodes && y in r.nodes && x != y
      ensures !Touch(r, x, y)
    {
      assert !Touch(h, x, y);
    }
  }

  lemma UnlinkConserves(h: H, prev: nat, p: nat)
    requires Inv(h) && p in h.nodes && p !in h.live
    ensures p in h.ptr && Conserved(Unlink(h, prev, p))
  {
    var r := Unlink(h, prev, p);
    forall a: nat
      ensures IsFree(r, a) || IsLive(r, a) <==> IsFree(h, a) || IsLive(h, a)
    {
      if IsFree(h, a) {
        var b :| b in h.nodes && b in h.size && b <= a < b + h.size[b];
        assert if b == p then b in r.live && r.live[b] == h.size[b] else b in r.nodes;
      }
      if IsLive(h, a) {
        var b :| b in h.live && b <= a < b + h.live[b];
        assert b in r.live && r.live[b] == h.live[b];
      }
      if IsLive(r, a) {
        var b :| b in r.live && b <= a < b + r.live[b];
        assert if b == p then b in h.nodes && b in h.size else b in h.live;
      }
    }
  }

  // ---- morecore ----

  /** sbrk's new memory, as one block handed out. */
  function Grow(h: H, at: nat, nu: nat, more: set<nat>): H {
    H(h.ptr, h.size[at := nu], h.nodes, h.live[at := nu], h.owned + more, at + nu)
  }

  ghost predicate Covers(more: set<nat>, at: nat, nu: nat) {
    forall a: nat :: a in more <==> at <= a < at + nu
  }

  /** The units from `at` on. */
  ghost function Range(at: nat, nu: nat): (r: set<nat>)
    ensures Covers(r, at, nu)
  {
    if nu == 0 then {} else Range(at, nu - 1) + {at + nu - 1}
  }

  lemma GrowKeeps(h: H, at: nat, nu: nat, more: set<nat>)
    requires Inv(h) && h.brk <= at && 0 < nu && Covers(more, at, nu)
    ensures at !in h.live && Inv(Grow(h, at, nu, more))
  {
    var r := Grow(h, at, nu, more);
    assert at !in h.nodes && at !in h.live;
    forall b | b in r.nodes
      ensures Follows(r.nodes, b, Succ(r, b))
    {
      assert Follows(h.nodes, b, Succ(h, b));
    }
    GrowApart(h, at, nu, more);
    GrowConserves(h, at, nu, more);
  }

  lemma GrowApart(h: H, at: nat, nu: nat, more: set<nat>)
    requires Inv(h) && h.brk <= at && 0 < nu && at !in h.nodes && at !in h.live && Ring(Grow(h, at, nu, more))
    ensures Ordered(Grow(h, at, nu, more)) && Apart(Grow(h, at, nu, more)) && Coalesced(Grow(h, at, nu, more))
  {
    var r := Grow(h, at, nu, more);
    assert forall c :: c in h.nodes ==> r.size[c] == h.size[c] && c + h.size[c] <= at;
    GrowClear(h, at, nu, more);
    forall x, y | x in r.nodes && y in r.nodes && x != y
      ensures !Touch(r, x, y)
    {
      assert !Touch(h, x, y);
    }
  }

  lemma GrowClear(h: H, at: nat, nu: nat, more: set<nat>)
    requires Inv(h) && h.brk <= at && 0 < nu && at !in h.nodes && at !in h.live && Ring(Grow(h, at, nu, more))
    ensures Apart(Grow(h, at, nu, more))
  {
    var r := Grow(h, at, nu, more);
    assert forall c :: c in h.nodes ==> r.size[c] == h.size[c] && c + h.size[c] <= at;
    forall x, y | x in r.live && y in r.nodes
      ensures Clear(y, r.size[y], x, r.live[x])
    {
      if x != at {
        assert Clear(y, h.size[y], x, h.live[x]);
      }
    }
  }

  lemma GrowConserves(h: H, at: nat, nu: nat, more: set<nat>)
    requires Inv(h) && 0 < nu && at !in h.nodes && at !in h.live && Covers(more, at, nu)
    ensures Conserved(Grow(h, at, nu, more))
  {
    var r := Grow(h, at, nu, more);
    forall a: nat
      ensures a in r.owned <==> IsFree(r, a) || IsLive(r, a)
    {
      if a in r.owned {
        if a in h.owned && IsFree(h, a) {
          var b :| b in h.nodes && b in h.size && b <= a < b + h.size[b];
          assert b in r.nodes && r.size[b] == h.size[b];
        } else if a in h.owned {
          var b :| b in h.live && b <= a < b + h.live[b];
          assert b in r.live && r.live[b] == h.live[b];
        } else {
          assert at in r.live && at <= a < at + r.live[at];
        }
      }
      if IsFree(r, a) {
        var b :| b in r.nodes && b in r.size && b <= a < b + r.size[b];
        assert b in h.nodes && b <= a < b + h.size[b];
      }
      if IsLive(r, a) {
        var b :| b in r.live && b <= a < b + r.live[b];
        assert b != at ==> b in h.live;
      }
    }
  }

  lemma FitsLess(h: H, m: nat, n: nat)
    requires HasFit(h, m) && n <= m
    ensures HasFit(h, n)
  {
  }

  lemma HandBack(live: map<nat, nat>, at: nat, units: nat)
    requires at !in live
    ensures live[at := units] - {at} == live
  {
  }

  /** malloc's first call: base alone. */
  function Fresh(ptr: map<nat, nat>, size: map<nat, nat>, brk: nat): H {
    H(ptr[BASE := BASE], size[BASE := 0], {BASE}, map[], {}, brk)
  }

  lemma FreshKeeps(ptr: map<nat, nat>, size: map<nat, nat>, brk: nat)
    requires BASE < brk
    ensures Inv(Fresh(ptr, size, brk))
  {
  }

  // ---- malloc's search ----

  lemma ScanStarts(h: H, f: nat, n: nat)
    requires Sound(h) && f in h.nodes
    ensures f in h.ptr && h.ptr[f] in h.nodes && Scanned(h, f, h.ptr[f], n)
  {
    assert Follows(h.nodes, f, Succ(h, f));
  }

  lemma ScanMoves(h: H, f: nat, k: nat, n: nat)
    requires Sound(h) && f in h.nodes && k in h.nodes && Scanned(h, f, k, n) && h.size[k] < n && k != f
    ensures k in h.ptr && h.ptr[k] in h.nodes && Scanned(h, f, h.ptr[k], n)
    ensures 0 <= ToGo(h.ptr[k], f, h.brk) < ToGo(k, f, h.brk)
  {
    assert Follows(h.nodes, k, Succ(h, k));
    SearchMoves(h, k, f);
  }

  /** Having come round, the search has seen every block. */
  lemma ScanEnds(h: H, f: nat, n: nat)
    requires Sound(h) && f in h.nodes && Scanned(h, f, f, n) && h.size[f] < n
    ensures !HasFit(h, n)
  {
  }
}
