/** On-disk formats of the file system: bitmap bits and the little-endian words
    of an indirect block. */
module FsFormat {
  import opened Params

  const BSIZE: nat := 512
  const NDIRECT: nat := 12
  const NINDIRECT: nat := 128
  const MAXFILE: nat := 140
  const BPB: nat := 4096

  type Byte = x: int | 0 <= x < 256
  type Blk = s: seq<Byte> | |s| == 512 witness seq(512, _ => 0)

  function ZeroBlk(): (r: Blk)
    ensures forall i :: 0 <= i < 512 ==> r[i] == 0
  {
    seq(512, _ => 0)
  }

  // ---- Bits ----

  /** x & (1 << k), as a truth value. */
  predicate Test(x: nat, k: nat) {
    if k == 0 then x % 2 == 1 else Test(x / 2, k - 1)
  }

  /** x | (1 << k) */
  function Set(x: nat, k: nat): nat {
    if k == 0 then x / 2 * 2 + 1 else Set(x / 2, k - 1) * 2 + x % 2
  }

  /** x & ~(1 << k) */
  function Clear(x: nat, k: nat): nat {
    if k == 0 then x / 2 * 2 else Clear(x / 2, k - 1) * 2 + x % 2
  }

  function Pow2(n: nat): (r: nat)
    ensures r >= 1
  {
    if n == 0 then 1 else 2 * Pow2(n - 1)
  }

  lemma {:induction false} BitsFit(x: nat, k: nat, n: nat)
    requires x < Pow2(n) && k < n
    ensures Set(x, k) < Pow2(n) && Clear(x, k) < Pow2(n)
  {
    if k > 0 {
      BitsFit(x / 2, k - 1, n - 1);
    }
  }

  lemma ByteFit(x: Byte, k: nat)
    requires k < 8
    ensures Set(x, k) < 256 && Clear(x, k) < 256
  {
    assert Pow2(8) == 2 * Pow2(7) && Pow2(7) == 2 * Pow2(6) && Pow2(6) == 2 * Pow2(5);
    assert Pow2(5) == 2 * Pow2(4) && Pow2(4) == 2 * Pow2(3) && Pow2(3) == 2 * Pow2(2) && Pow2(2) == 4;
    BitsFit(x, k, 8);
  }

  /** Setting or clearing a bit touches that bit only. */
  lemma {:induction false} BitUpdate(x: nat, k: nat, j: nat)
    ensures Test(Set(x, k), j) == (j == k || Test(x, j))
    ensures Test(Clear(x, k), j) == (j != k && Test(x, j))
  {
    if k > 0 && j > 0 {
      BitUpdate(x / 2, k - 1, j - 1);
      assert Set(x, k) / 2 == Set(x / 2, k - 1) && Clear(x, k) / 2 == Clear(x / 2, k - 1);
    }
  }

  /** Bit k is the digit of 2^k. */
  lemma {:induction false} TestBit(x: nat, k: nat)
    ensures Test(x, k) <==> x / Pow2(k) % 2 == 1
    decreases k
  {
    if k > 0 {
      TestBit(x / 2, k - 1);
      DivTwice(x, Pow2(k - 1));
    }
  }

  lemma DivTwice(x: nat, m: nat)
    requires m > 0
    ensures x / (2 * m) == x / 2 / m
  {
    var q := x / 2 / m;
    assert x / 2 == q * m + x / 2 % m;
    assert x == 2 * m * q + (2 * (x / 2 % m) + x % 2);
    DivIs(x, 2 * m, q, 2 * (x / 2 % m) + x % 2);
  }

  lemma DivIs(x: int, d: int, q: int, r: int)
    requires d > 0 && x == d * q + r && 0 <= r < d
    ensures x / d == q
  {
    assert x == d * (x / d) + x % d;
    assert d * (x / d - q) == r - x % d;
    MulZero(d, x / d - q);
  }

  lemma MulZero(d: int, k: int)
    requires d > 0 && -d < d * k < d
    ensures k == 0
  {
  }

  lemma {:induction false} AllOnes(n: nat, k: nat)
    requires k <= n
    ensures Test(Pow2(n + 1) - 1, k)
  {
    if k > 0 {
      AllOnes(n - 1, k - 1);
      assert (Pow2(n + 1) - 1) / 2 == Pow2(n) - 1;
    }
  }

  lemma ByteOnes(k: nat)
    requires k < 8
    ensures Test(255, k)
  {
    assert Pow2(8) == 256 by {
      assert Pow2(8) == 2 * Pow2(7) && Pow2(7) == 2 * Pow2(6) && Pow2(6) == 2 * Pow2(5);
      assert Pow2(5) == 2 * Pow2(4) && Pow2(4) == 2 * Pow2(3) && Pow2(3) == 2 * Pow2(2) && Pow2(2) == 4;
    }
    AllOnes(7, k);
  }

  // ---- Words ----

  /** The uint at index j of a block. */
  function Word(b: Blk, j: nat): (w: nat)
    requires j < NINDIRECT
    ensures w < WORD
  {
    var i := 4 * j;
    (b[i] as int) + 0x100 * (b[i + 1] as int) + 0x1_0000 * (b[i + 2] as int) + 0x100_0000 * (b[i + 3] as int)
  }

  function PutWord(b: Blk, j: nat, w: nat): (r: Blk)
    requires j < NINDIRECT && w < WORD
  {
    var i := 4 * j;
    b[i := w % 0x100][i + 1 := w / 0x100 % 0x100][i + 2 := w / 0x1_0000 % 0x100][i + 3 := w / 0x100_0000]
  }

  lemma WordSplit(w: nat)
    requires w < WORD
    ensures w % 0x100 + 0x100 * (w / 0x100 % 0x100) + 0x1_0000 * (w / 0x1_0000 % 0x100) + 0x100_0000 * (w / 0x100_0000) == w
  {
    assert w / 0x1_0000 == w / 0x100 / 0x100;
    assert w / 0x100_0000 == w / 0x1_0000 / 0x100;
  }

  lemma WordPut(b: Blk, j: nat, w: nat, k: nat)
    requires j < NINDIRECT && k < NINDIRECT && w < WORD
    ensures Word(PutWord(b, j, w), k) == if k == j then w else Word(b, k)
  {
    WordSplit(w);
    var r := PutWord(b, j, w);
    if k == j {
      assert r[4 * k] == w % 0x100 && r[4 * k + 1] == w / 0x100 % 0x100;
    } else {
      assert r[4 * k] == b[4 * k] && r[4 * k + 1] == b[4 * k + 1];
      assert r[4 * k + 2] == b[4 * k + 2] && r[4 * k + 3] == b[4 * k + 3];
    }
  }

  /** The bytes of a word are its digits to base 256, the lowest first. */
  lemma WordBytes(b: Blk, j: nat)
    requires j < NINDIRECT
    ensures var w := Word(b, j);
            && b[4 * j] == w % 0x100 && b[4 * j + 1] == w / 0x100 % 0x100
            && b[4 * j + 2] == w / 0x1_0000 % 0x100 && b[4 * j + 3] == w / 0x100_0000
  {
    var p, q, r, t := b[4 * j] as int, b[4 * j + 1] as int, b[4 * j + 2] as int, b[4 * j + 3] as int;
    var w := p + 0x100 * q + 0x1_0000 * r + 0x100_0000 * t;
    assert w / 0x100 == q + 0x100 * r + 0x1_0000 * t;
    assert w / 0x1_0000 == r + 0x100 * t;
  }

  lemma WordZero(j: nat)
    requires j < NINDIRECT
    ensures Word(ZeroBlk(), j) == 0
  {
  }

  // ---- The free bitmap ----

  /** Where bit b lives: block, byte and bit. */
  function BBlock(b: nat, bmapstart: nat): nat {
    b / BPB + bmapstart
  }

  function BByte(b: nat): (i: nat)
    ensures i < BSIZE
  {
    b % BPB / 8
  }

  predicate BitIn(blk: Blk, b: nat) {
    Test(blk[BByte(b)], b % 8)
  }

  function WithBit(blk: Blk, b: nat, on: bool): Blk {
    ByteFit(blk[BByte(b)], b % 8);
    blk[BByte(b) := if on then Set(blk[BByte(b)], b % 8) else Clear(blk[BByte(b)], b % 8)]
  }

  /** Blocks that share a bitmap block differ in byte or bit. */
  lemma BitInWith(blk: Blk, b: nat, on: bool, c: nat)
    requires b / BPB == c / BPB
    ensures BitIn(WithBit(blk, b, on), c) == if c == b then on else BitIn(blk, c)
  {
    BitUpdate(blk[BByte(b)], b % 8, c % 8);
    if BByte(b) == BByte(c) && b % 8 == c % 8 {
      SameByte(b, c);
    }
  }

  lemma SameByte(b: nat, c: nat)
    requires b / BPB == c / BPB && BByte(b) == BByte(c) && b % 8 == c % 8
    ensures b == c
  {
    Parts(b);
    Parts(c);
  }

  /** A block number from its place in the bitmap. */
  lemma Parts(b: nat)
    ensures b == b / BPB * BPB + BByte(b) * 8 + b % 8
  {
    var r := b % BPB;
    assert r == r / 8 * 8 + r % 8;
    assert r % 8 == b % 8;
  }

  /** base is the first block a bitmap block speaks of. */
  predicate Aligned(base: nat) {
    base % BPB == 0
  }

  lemma NextAligned(base: nat)
    requires Aligned(base)
    ensures Aligned(base + BPB)
  {
  }

  lemma BitPlace(base: nat, bi: nat)
    requires Aligned(base) && bi < BPB
    ensures (base + bi) / BPB == base / BPB && BByte(base + bi) == bi / 8 && (base + bi) % 8 == bi % 8
  {
    assert (base + bi) % BPB == bi;
    assert (base + bi) % BPB % 8 == (base + bi) % 8;
  }
}
