/** The user-level allocator: malloc, free and morecore over the circular,
    address-ordered free list. */
module UserHeap {
  import opened Params
  import opened HeapState
  import opened HeapSteps

  class Heap {
    var freep: nat                // 0 before the first malloc
    var ptr: map<nat, nat>
    var size: map<nat, nat>
    ghost var nodes: set<nat>
    ghost var live: map<nat, nat>
    ghost var owned: set<nat>
    ghost var brk: nat

    ghost function State(): H
      reads this
    {
      H(ptr, size, nodes, live, owned, brk)
    }

    ghost predicate Valid()
      reads this
    {
      && BASE < brk
      && (freep == 0 ==> live == map[] && owned == {})
      && (freep != 0 ==> Inv(State()) && freep in nodes)
    }

    constructor (top: nat)
      requires BASE < top
      ensures Valid() && live == map[] && owned == {} && brk == top
    {
      freep := 0;
      ptr, size := map[], map[];
      nodes, live, owned, brk := {}, map[], {}, top;
    }

    /** free's search for the block below bp. */
    method FindPlace(bp: nat) returns (p: nat)
      requires Inv(State()) && freep in nodes && bp in live
      ensures Below(State(), p, bp) && p in ptr && ptr[p] in ptr && ptr[p] in size && p in size && bp in size && ptr[p] != bp
    {
      ghost var h := State();
      ghost var t := PlaceFor(h, bp);
      p := freep;
      SearchStops(h, p, t, bp);
      while !(bp > p && bp < ptr[p])
        invariant p in nodes && p in ptr
        invariant ((p < bp < ptr[p]) || (p >= ptr[p] && (bp > p || bp < ptr[p]))) <==> p == t
        decreases ToGo(p, t, brk)
      {
        if p >= ptr[p] && (bp > p || bp < ptr[p]) {
          break;
        }
        SearchMoves(h, p, t);
        p := ptr[p];
        SearchStops(h, p, t, bp);
      }
      FreedKeeps(h, p, bp);
    }

    /** The pointer and size updates of free, with next the block after p. */
    method Link(p: nat, bp: nat)
      requires p in ptr && p in size && bp in size && p < bp && ptr[p] in ptr && ptr[p] in size && ptr[p] != bp
      modifies this`ptr, this`size
      ensures ptr == FreedPtr(old(ptr), old(size), p, bp, old(ptr)[p])
      ensures size == FreedSize(old(size), p, bp, old(ptr)[p])
    {
      var next := ptr[p];
      if bp + size[bp] == next {
        size := size[bp := size[bp] + size[next]];
        ptr := ptr[bp := ptr[next]];
      } else {
        ptr := ptr[bp := next];
      }
      if p + size[p] == bp {
        size := size[p := size[p] + size[bp]];
        ptr := ptr[p := ptr[bp]];
      } else {
        ptr := ptr[p := bp];
      }
    }

    /** Return a block to the ring, merging it with the neighbours it touches. */
    method Free(bp: nat)
      requires Valid() && freep != 0 && bp in live
      modifies this`freep, this`ptr, this`size, this`nodes, this`live
      ensures Valid() && freep != 0 && live == old(live) - {bp} && HasFit(State(), old(live)[bp])
      ensures freep < bp && forall c :: c in nodes && c < bp ==> c <= freep
    {
      ghost var h := State();
      var p := FindPlace(bp);
      FreedKeeps(h, p, bp);
      FreedIs(h, p, bp, ptr[p]);
      ghost var r := Freed(h, p, bp);
      Link(p, bp);
      freep := p;
      nodes, live := r.nodes, r.live;
      assert State() == r;
    }

    /** More memory, at the address sbrk returned (0 for failure). */
    method Morecore(nu: nat, at: nat) returns (p: nat)
      requires Valid() && freep != 0 && 0 < nu < 0x1000_0000 && (at == 0 || brk <= at)
      modifies this
      ensures Valid() && freep != 0 && live == old(live)
      ensures at == 0 ==> p == 0 && unchanged(this)
      ensures at != 0 ==> p == freep && HasFit(State(), nu) && owned == old(owned) + Range(at, Ask(nu))
      ensures at != 0 ==>
                forall a: nat :: a in owned <==> a in old(owned) || at <= a < at + if nu < 4096 then 4096 else nu
    {
      if at == 0 {
        return 0;
      }
      var units := Ask(nu);
      AddBlock(at, units);
      Free(at);
      FitsLess(State(), units, nu);
      HandBack(old(live), at, units);
      p := freep;
    }

    /** The memory sbrk has added, as a block like one malloc returned. */
    method AddBlock(at: nat, units: nat)
      requires Valid() && freep != 0 && brk <= at && 0 < units
      modifies this`size, this`live, this`owned, this`brk
      ensures Valid() && at !in old(live) && live == old(live)[at := units] && owned == old(owned) + Range(at, units)
    {
      ghost var more := Range(at, units);
      GrowKeeps(State(), at, units, more);
      ghost var r := Grow(State(), at, units, more);
      size := size[at := units];
      live, owned, brk := live[at := units], owned + more, at + units;
      assert State() == r;
    }

    /** Take n units from block p, which prevp points to. */
    method Carve(prevp: nat, p: nat, n: nat) returns (b: nat)
      requires Inv(State()) && prevp in nodes && prevp in ptr && ptr[prevp] == p && p in nodes && p in size && 0 < n <= size[p]
      modifies this`freep, this`ptr, this`size, this`nodes, this`live
      ensures Valid() && freep != 0 && b != 0 && b !in old(live) && live == old(live)[b := n]
      ensures freep == prevp && b == p + old(size)[p] - n
    {
      if size[p] == n {
        ghost var h := State();
        UnlinkKeeps(h, prevp, p);
        ptr := ptr[prevp := ptr[p]];
        nodes, live := nodes - {p}, live[p := n];
        assert State() == Unlink(h, prevp, p);
        b := p;
      } else {
        b := CarveEnd(p, n);
      }
      freep := prevp;
    }

    /** The last n units of block p, which has more. */
    method CarveEnd(p: nat, n: nat) returns (b: nat)
      requires Inv(State()) && p in nodes && p in size && 0 < n < size[p]
      modifies this`size, this`live
      ensures Inv(State()) && b != 0 && b !in old(live) && live == old(live)[b := n] && b == p + old(size)[p] - n
    {
      ghost var h := State();
      b := p + (size[p] - n);
      SplitKeeps(h, p, n, b);
      size := size[p := size[p] - n];
      size := size[b := n];
      live := live[b := n];
      assert State() == Split(h, p, n, b);
    }

    /** The ring, with base alone in it, on the first call. */
    method Start()
      requires Valid()
      modifies this`freep, this`ptr, this`size, this`nodes
      ensures Valid() && freep != 0 && (old(freep) != 0 ==> State() == old(State()) && freep == old(freep))
    {
      if freep == 0 {
        FreshKeeps(ptr, size, brk);
        ghost var r := Fresh(ptr, size, brk);
        ptr, size := ptr[BASE := BASE], size[BASE := 0];
        nodes := {BASE};
        freep := BASE;
        assert State() == r;
      }
    }

    /** A block for nbytes, whose header is at b: the end of the first free block
        after freep, from, that is large enough. 0 if there is none and sbrk, asked at
        most once, had none. `at` is what sbrk returns. */
    method Malloc(nbytes: nat, at: nat) returns (b: nat, ghost from: nat)
      requires Valid() && nbytes < WORD && Units(nbytes) < 0x1000_0000 && (at == 0 || brk <= at)
      modifies this
      ensures Valid() && freep != 0
      ensures b != 0 ==> b !in old(live) && live == old(live)[b := Units(nbytes)]
      ensures b == 0 ==> at == 0 && live == old(live)
      ensures old(freep) != 0 && HasFit(old(State()), Units(nbytes)) ==> b != 0 && owned == old(owned)
      ensures old(freep) != 0 && HasFit(old(State()), Units(nbytes)) ==>
                FirstFit(old(State()), old(freep), from, Units(nbytes), b)
      ensures owned == old(owned) || (at != 0 && owned == old(owned) + Range(at, Ask(Units(nbytes))))
    {
      var n := Units(nbytes);
      Start();
      var prevp := freep;
      ScanStarts(State(), prevp, n);
      var p := ptr[prevp];
      ghost var asked := false;
      while true
        invariant Valid() && freep != 0 && live == old(live)
        invariant prevp in nodes && prevp in ptr && p == ptr[prevp] && p in nodes && p in size
        invariant Scanned(State(), freep, p, n)
        invariant asked ==> at != 0 && HasFit(State(), n) && owned == old(owned) + Range(at, Ask(n))
        invariant !asked ==> owned == old(owned) && brk == old(brk)
        invariant !asked && old(freep) != 0 ==> State() == old(State()) && freep == old(freep)
        invariant asked && old(freep) != 0 ==> !HasFit(old(State()), n)
        decreases !asked, ToGo(p, freep, brk)
      {
        if size[p] >= n {
          from := p;
          ghost var h, f := State(), freep;
          b := Carve(prevp, p, n);
          assert FirstFit(h, f, from, n, b);
          return;
        }
        if p == freep {
          ScanEnds(State(), freep, n);
          assert !asked;
          p := Morecore(n, at);
          if p == 0 {
            b, from := 0, 0;
            return;
          }
          asked := true;
          ScanStarts(State(), p, n);
        } else {
          ScanMoves(State(), freep, p, n);
        }
        prevp := p;
        p := ptr[p];
      }
    }
  }
}
