/** The buffer cache's doubly linked list. Buffers are 0, 1, ..; HEAD is the
    list head. The order of the list is that of the ghost stamps, which tell
    when a buffer was last put in front. */
module BufRing {

  const NBUF: nat := 30
  const HEAD: nat := 30

  datatype Ring = Ring(next: seq<nat>, prev: seq<nat>, stamp: seq<nat>, nodes: set<nat>, clock: nat)

  predicate Sizes(r: Ring) {
    |r.next| == |r.prev| == NBUF + 1 && |r.stamp| == NBUF
  }

  /** x is in the list, or its head. */
  predicate On(r: Ring, x: nat) {
    x == HEAD || x in r.nodes
  }

  function Next(r: Ring, x: nat): nat
    requires Sizes(r) && x <= HEAD
  {
    r.next[x]
  }

  function Prev(r: Ring, x: nat): nat
    requires Sizes(r) && x <= HEAD
  {
    r.prev[x]
  }

  /** y comes right after x: the most recent of those older than x, or the head
      if there are none. */
  ghost predicate After(r: Ring, x: nat, y: nat)
    requires Sizes(r) && (forall c :: c in r.nodes ==> c < NBUF) && On(r, x) && On(r, y)
  {
    && (y != HEAD && x != HEAD ==> r.stamp[y] < r.stamp[x])
    && forall c :: c in r.nodes ==>
         (y != HEAD && r.stamp[c] <= r.stamp[y]) || (x != HEAD && r.stamp[c] >= r.stamp[x])
  }

  ghost predicate Ok(r: Ring) {
    && Sizes(r)
    && (forall c :: c in r.nodes ==> c < NBUF && r.stamp[c] < r.clock)
    && (forall b, c :: b in r.nodes && c in r.nodes && b != c ==> r.stamp[b] != r.stamp[c])
    && (forall x {:trigger Next(r, x)} :: On(r, x) ==> On(r, Next(r, x)) && After(r, x, Next(r, x)) && Prev(r, Next(r, x)) == x)
    && (forall x {:trigger Prev(r, x)} :: On(r, x) ==> On(r, Prev(r, x)) && Next(r, Prev(r, x)) == x)
  }

  // ---- Taking a buffer out, putting it in front ----

  function Remove(r: Ring, b: nat): Ring
    requires Sizes(r) && b < NBUF && r.next[b] <= HEAD && r.prev[b] <= HEAD
  {
    Ring(r.next[r.prev[b] := r.next[b]], r.prev[r.next[b] := r.prev[b]], r.stamp, r.nodes - {b}, r.clock)
  }

  lemma RemoveOk(r: Ring, b: nat)
    requires Ok(r) && b in r.nodes
    ensures b < NBUF && r.next[b] <= HEAD && r.prev[b] <= HEAD && Ok(Remove(r, b))
  {
    assert On(r, b);
    assert On(r, Next(r, b)) && On(r, Prev(r, b));
    var s := Remove(r, b);
    forall x | On(s, x)
      ensures On(s, Next(s, x)) && After(s, x, Next(s, x)) && Prev(s, Next(s, x)) == x
      ensures On(s, Prev(s, x)) && Next(s, Prev(s, x)) == x
    {
      RemoveNext(r, s, b, x);
      RemovePrev(r, s, b, x);
    }
  }

  lemma RemoveNext(r: Ring, s: Ring, b: nat, x: nat)
    requires Ok(r) && b in r.nodes && r.next[b] <= HEAD && r.prev[b] <= HEAD && s == Remove(r, b) && On(s, x)
    ensures On(s, Next(s, x)) && After(s, x, Next(s, x)) && Prev(s, Next(s, x)) == x
  {
    assert On(r, x) && On(r, b);
    assert On(r, Next(r, x)) && After(r, x, Next(r, x)) && Prev(r, Next(r, x)) == x;
    assert On(r, Next(r, b)) && After(r, b, Next(r, b));
    assert Next(r, Prev(r, b)) == b;
  }

  lemma RemovePrev(r: Ring, s: Ring, b: nat, x: nat)
    requires Ok(r) && b in r.nodes && r.next[b] <= HEAD && r.prev[b] <= HEAD && s == Remove(r, b) && On(s, x)
    ensures On(s, Prev(s, x)) && Next(s, Prev(s, x)) == x
  {
    assert On(r, x) && On(r, b);
    assert On(r, Prev(r, x)) && Next(r, Prev(r, x)) == x;
    assert On(r, Prev(r, b)) && Next(r, Prev(r, b)) == b;
    assert Prev(r, Next(r, b)) == b;
  }

  function PutFirst(r: Ring, b: nat): Ring
    requires Sizes(r) && b < NBUF && r.next[HEAD] <= HEAD
  {
    Ring(r.next[b := r.next[HEAD]][HEAD := b], r.prev[b := HEAD][r.next[HEAD] := b],
         r.stamp[b := r.clock], r.nodes + {b}, r.clock + 1)
  }

  lemma PutFirstOk(r: Ring, b: nat)
    requires Ok(r) && b !in r.nodes && b < NBUF
    ensures r.next[HEAD] <= HEAD && Ok(PutFirst(r, b))
  {
    assert On(r, Next(r, HEAD));
    var s := PutFirst(r, b);
    forall x | On(s, x)
      ensures On(s, Next(s, x)) && After(s, x, Next(s, x)) && Prev(s, Next(s, x)) == x
      ensures On(s, Prev(s, x)) && Next(s, Prev(s, x)) == x
    {
      PutFirstAt(r, s, b, x);
    }
  }

  lemma PutFirstAt(r: Ring, s: Ring, b: nat, x: nat)
    requires Ok(r) && b !in r.nodes && b < NBUF && r.next[HEAD] <= HEAD && s == PutFirst(r, b) && On(s, x)
    ensures On(s, Next(s, x)) && After(s, x, Next(s, x)) && Prev(s, Next(s, x)) == x
    ensures On(s, Prev(s, x)) && Next(s, Prev(s, x)) == x
  {
    assert On(r, Next(r, HEAD)) && After(r, HEAD, Next(r, HEAD)) && Prev(r, Next(r, HEAD)) == HEAD;
    if x != b {
      assert On(r, x);
      assert On(r, Next(r, x)) && After(r, x, Next(r, x)) && Prev(r, Next(r, x)) == x;
      assert On(r, Prev(r, x)) && Next(r, Prev(r, x)) == x;
    }
  }

  /** The empty list. */
  function Empty(): Ring {
    Ring(seq(NBUF + 1, _ => HEAD), seq(NBUF + 1, _ => HEAD), seq(NBUF, _ => 0), {}, 0)
  }

  lemma EmptyOk()
    ensures Ok(Empty())
  {
  }

  // ---- Walking the list ----

  /** Going forward from the head, everything more recent than x has been met. */
  ghost predicate Newer(r: Ring, x: nat, c: nat)
    requires Sizes(r) && x <= HEAD && c < NBUF
  {
    x == HEAD || r.stamp[c] > r.stamp[x]
  }

  ghost predicate Older(r: Ring, x: nat, c: nat)
    requires Sizes(r) && x <= HEAD && c < NBUF
  {
    x == HEAD || r.stamp[c] < r.stamp[x]
  }

  /** The first buffer is the most recent, the last the least recent. */
  lemma FirstLast(r: Ring)
    requires Ok(r) && r.nodes != {}
    ensures Next(r, HEAD) in r.nodes && forall c :: c in r.nodes ==> !Newer(r, Next(r, HEAD), c)
    ensures Prev(r, HEAD) in r.nodes && forall c :: c in r.nodes ==> !Older(r, Prev(r, HEAD), c)
  {
    var c :| c in r.nodes;
    assert On(r, HEAD) && After(r, HEAD, Next(r, HEAD));
    var p := Prev(r, HEAD);
    assert On(r, p) && Next(r, p) == HEAD;
    assert After(r, p, Next(r, p));
  }

  lemma StepNext(r: Ring, x: nat)
    requires Ok(r) && x in r.nodes
    ensures var y := Next(r, x);
            && On(r, y) && (y != HEAD ==> r.stamp[y] < r.stamp[x])
            && forall c :: c in r.nodes && Newer(r, y, c) ==> Newer(r, x, c) || c == x
  {
    assert On(r, x);
    assert After(r, x, Next(r, x));
  }

  lemma StepPrev(r: Ring, x: nat)
    requires Ok(r) && x in r.nodes
    ensures var y := Prev(r, x);
            && On(r, y) && (y != HEAD ==> r.stamp[y] > r.stamp[x])
            && forall c :: c in r.nodes && Older(r, y, c) ==> Older(r, x, c) || c == x
  {
    assert On(r, x);
    var y := Prev(r, x);
    assert On(r, y) && Next(r, y) == x;
    assert After(r, y, Next(r, y));
  }
}
