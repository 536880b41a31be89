/** The user allocator's free ring and the blocks it has handed out. Addresses
    count headers (8 bytes). */
module HeapState {
  import opened Params

  /** &base, below every address sbrk returns. */
  const BASE: nat := 1

  datatype H = H(
    ptr: map<nat, nat>,      // s.ptr of every header
    size: map<nat, nat>,     // s.size of every header
    nodes: set<nat>,         // the blocks in the free ring, base among them
    live: map<nat, nat>,     // the blocks handed out, with their sizes
    owned: set<nat>,         // every unit sbrk has provided
    brk: nat                 // nothing at or above is ours
  )

  function Succ(h: H, b: nat): nat
    requires b in h.ptr
  {
    h.ptr[b]
  }

  /** n follows b in address order among the nodes, or wraps around to base. */
  ghost predicate Follows(nodes: set<nat>, b: nat, n: nat) {
    && n in nodes
    && if b < n then forall c :: c in nodes ==> c <= b || n <= c
       else n == BASE && forall c :: c in nodes ==> c <= b
  }

  /** The free list is a ring in address order with one wrap point, at base. */
  ghost predicate Ring(h: H) {
    && BASE in h.nodes && (forall c :: c in h.nodes ==> BASE <= c)
    && (forall b :: b in h.nodes ==> b in h.ptr && b in h.size)
    && (forall b {:trigger Succ(h, b)} :: b in h.nodes ==> Follows(h.nodes, b, Succ(h, b)))
  }

  /** Free blocks have a size, base has none, and none overlap. */
  ghost predicate Ordered(h: H)
    requires Ring(h)
  {
    && h.size[BASE] == 0 && BASE < h.brk
    && (forall b :: b in h.nodes && b != BASE ==> h.size[b] > 0)
    && (forall b :: b in h.nodes ==> b + h.size[b] <= h.brk)
    && (forall b, c :: b in h.nodes && c in h.nodes && b < c ==> b + h.size[b] <= c)
  }

  predicate Touch(h: H, b: nat, c: nat)
    requires b in h.size
  {
    b + h.size[b] == c
  }

  /** Fully coalesced: no free block ends where another starts. */
  ghost predicate Coalesced(h: H)
    requires Ring(h)
  {
    forall b, c :: b in h.nodes && c in h.nodes && b != c ==> !Touch(h, b, c)
  }

  /** Two blocks do not overlap. */
  predicate Clear(b: nat, m: nat, c: nat, n: nat) {
    b + m <= c || c + n <= b
  }

  /** Blocks handed out keep their size and overlap nothing. */
  ghost predicate Apart(h: H)
    requires Ring(h)
  {
    && (forall b :: b in h.live ==> BASE < b && h.live[b] > 0 && b in h.size && h.size[b] == h.live[b])
    && (forall b :: b in h.live ==> b !in h.nodes && b + h.live[b] <= h.brk)
    && (forall b, c :: b in h.live && c in h.live && b < c ==> b + h.live[b] <= c)
    && (forall b, c :: b in h.live && c in h.nodes ==> Clear(c, h.size[c], b, h.live[b]))
  }

  ghost predicate IsFree(h: H, a: nat) {
    exists b :: b in h.nodes && b in h.size && b <= a < b + h.size[b]
  }

  ghost predicate IsLive(h: H, a: nat) {
    exists b :: b in h.live && b <= a < b + h.live[b]
  }

  /** Every unit obtained is free or handed out, and no other unit is. */
  ghost predicate Conserved(h: H) {
    forall a: nat :: a in h.owned <==> IsFree(h, a) || IsLive(h, a)
  }

  ghost predicate Sound(h: H) {
    Ring(h) && Ordered(h) && Apart(h) && Conserved(h)
  }

  ghost predicate Inv(h: H) {
    Sound(h) && Coalesced(h)
  }

  /** No unit is both. */
  lemma FreeOrLive(h: H, a: nat)
    requires Sound(h)
    ensures !(IsFree(h, a) && IsLive(h, a))
  {
  }

  // ---- Searching the ring ----

  /** p is the free block below bp. */
  ghost predicate Below(h: H, p: nat, bp: nat) {
    p in h.nodes && p < bp && forall c :: c in h.nodes ==> c <= p || bp < c
  }

  /** Every node after f and before k, going round, is too small. */
  ghost predicate Scanned(h: H, f: nat, k: nat, n: nat)
    requires Ring(h)
  {
    forall c :: c in h.nodes && (if f < k then f < c < k else c > f || c < k) ==> h.size[c] < n
  }

  /** p is the first block after f, going round, with n units, and b its end. */
  ghost predicate FirstFit(h: H, f: nat, p: nat, n: nat, b: nat) {
    && Ring(h) && p in h.nodes && h.size[p] >= n && b == p + h.size[p] - n && Scanned(h, f, p, n)
  }

  ghost predicate HasFit(h: H, n: nat) {
    exists b :: b in h.nodes && b in h.size && h.size[b] >= n
  }

  /** nunits of malloc, in 32-bit arithmetic. */
  function Units(nbytes: nat): (n: nat)
    requires nbytes < WORD
    ensures 1 <= n <= 0x2000_0000
  {
    (nbytes + 7) % WORD / 8 + 1
  }

  /** The payload holds the bytes asked for, and is not a unit too large, exactly
      when the sum does not wrap. */
  lemma UnitsHold(nbytes: nat)
    requires nbytes < WORD
    ensures 8 * (Units(nbytes) - 1) >= nbytes <==> nbytes + 7 < WORD
    ensures nbytes + 7 < WORD ==> 8 * (Units(nbytes) - 1) < nbytes + 8
  {
  }

  /** A request that wraps: malloc(0xFFFF_FFFF) asks for a bare header. */
  lemma UnitsWrap()
    ensures Units(0xFFFF_FFFF) == 1
  {
  }

  /** The units morecore asks for. */
  function Ask(nu: nat): nat {
    if nu < 4096 then 4096 else nu
  }

  /** What sbrk is asked for, as a 32-bit int. */
  function SbrkArg(nu: nat): int {
    var bytes := nu * 8 % WORD;
    if bytes < 0x8000_0000 then bytes else bytes - WORD
  }

  /** A request that wraps there: for 2^28 units sbrk is asked to shrink. */
  lemma SbrkWrap()
    ensures SbrkArg(0x1000_0000) == -0x8000_0000
  {
  }

  /** morecore asks for the units it records exactly below 2^28 of them. */
  lemma SbrkExact(nu: nat)
    requires nu <= 0x2000_0000
    ensures SbrkArg(nu) == 8 * nu <==> nu < 0x1000_0000
  {
  }
}
