/** Directory entries, their names, and the finite map a directory stands for. */
module DirFormat {
  import opened FsFormat

  const DIRSIZ: nat := 14
  const DSIZE: nat := 16

  type Name = seq<Byte>
  type Field = s: seq<Byte> | |s| == DIRSIZ witness seq(DIRSIZ, _ => 0)

  // ---- Names ----

  /** The part of a string that counts: at most n bytes, up to any NUL. */
  function Prefix(s: Name, n: nat): (r: Name)
    ensures |r| <= n && |r| <= |s|
    decreases n
  {
    if n == 0 || s == [] || s[0] == 0 then [] else [s[0]] + Prefix(s[1..], n - 1)
  }

  function Key(s: Name): Name {
    Prefix(s, DIRSIZ)
  }

  /** Byte i of a C string. */
  function CharAt(s: Name, i: nat): Byte {
    if i < |s| then s[i] else 0
  }

  lemma {:induction false} PrefixAt(s: Name, n: nat)
    ensures forall i :: 0 <= i < |Prefix(s, n)| ==> Prefix(s, n)[i] == s[i] && s[i] != 0
    ensures |Prefix(s, n)| < n ==> CharAt(s, |Prefix(s, n)|) == 0
    decreases n
  {
    if !(n == 0 || s == [] || s[0] == 0) {
      PrefixAt(s[1..], n - 1);
      var t := Prefix(s[1..], n - 1);
      forall i | 0 <= i < |Prefix(s, n)|
        ensures Prefix(s, n)[i] == s[i] && s[i] != 0
      {
        if i > 0 {
          assert Prefix(s, n)[i] == t[i - 1] && s[i] == s[1..][i - 1];
        }
      }
      assert CharAt(s, |Prefix(s, n)|) == CharAt(s[1..], |t|);
    }
  }

  /** strncmp is zero exactly when what counts of the two strings is equal. */
  method Strncmp(p: Name, q: Name, n: nat) returns (r: int)
    ensures r == 0 <==> Prefix(p, n) == Prefix(q, n)
  {
    var k := 0;
    assert p[0..] == p && q[0..] == q;
    while k < n && CharAt(p, k) != 0 && CharAt(p, k) == CharAt(q, k)
      invariant 0 <= k <= n && k <= |p| && k <= |q|
      invariant Prefix(p, n) == Prefix(q, n) <==> Prefix(p[k..], n - k) == Prefix(q[k..], n - k)
    {
      assert p[k..][1..] == p[k + 1..] && q[k..][1..] == q[k + 1..];
      assert Prefix(p[k..], n - k)[1..] == Prefix(p[k + 1..], n - k - 1);
      assert Prefix(q[k..], n - k)[1..] == Prefix(q[k + 1..], n - k - 1);
      k := k + 1;
    }
    if k == n {
      return 0;
    }
    r := CharAt(p, k) as int - CharAt(q, k) as int;
    PrefixAt(p[k..], n - k);
    PrefixAt(q[k..], n - k);
    assert CharAt(p, k) == CharAt(p[k..], 0) && CharAt(q, k) == CharAt(q[k..], 0);
  }

  /** What counts of the string, then zeros. */
  function Pad(s: Name, n: nat): (r: seq<Byte>)
    ensures |r| == n
  {
    Prefix(s, n) + seq(n - |Prefix(s, n)|, _ => 0)
  }

  method Strncpy(t: Name, n: nat) returns (s: seq<Byte>)
    ensures s == Pad(t, n)
  {
    s := [];
    PrefixAt(t, n);
    while |s| < n && CharAt(t, |s|) != 0
      invariant |s| <= |Prefix(t, n)| && s == Prefix(t, n)[..|s|]
      decreases n - |s|
    {
      s := s + [CharAt(t, |s|)];
    }
    assert |s| == |Prefix(t, n)|;
    while |s| < n
      invariant |Prefix(t, n)| <= |s| <= n && s == Prefix(t, n) + seq(|s| - |Prefix(t, n)|, _ => 0)
      decreases n - |s|
    {
      s := s + [0];
    }
  }

  /** Padding keeps what counts. */
  lemma {:induction false} PadPrefix(s: Name, n: nat)
    ensures Prefix(Pad(s, n), n) == Prefix(s, n)
    decreases n
  {
    if n > 0 && s != [] && s[0] != 0 {
      PadPrefix(s[1..], n - 1);
      assert Pad(s, n) == [s[0]] + Pad(s[1..], n - 1);
    } else if n > 0 {
      assert Pad(s, n)[0] == 0;
    }
  }

  lemma KeyOfPad(s: Name)
    ensures |Pad(s, DIRSIZ)| == DIRSIZ && Key(Pad(s, DIRSIZ)) == Key(s)
  {
    PadPrefix(s, DIRSIZ);
  }

  // ---- Entries ----

  datatype Dirent = Dirent(inum: nat, name: Field)

  predicate Fits(d: Dirent) {
    d.inum < 0x1_0000
  }

  function Encode(d: Dirent): (r: seq<Byte>)
    requires Fits(d)
    ensures |r| == DSIZE
  {
    [d.inum % 0x100, d.inum / 0x100] + d.name
  }

  /** Two bytes of inode number, the low one first, and the name. */
  lemma EntryBytes(d: Dirent, b: seq<Byte>)
    requires Fits(d)
    ensures b == Encode(d) <==> |b| == DSIZE && (b[0] as int) + 0x100 * (b[1] as int) == d.inum && b[2..] == d.name
  {
    if |b| == DSIZE && b[2..] == d.name {
      assert b == [b[0], b[1]] + b[2..];
    }
  }

  function Decode(b: seq<Byte>): (d: Dirent)
    requires |b| == DSIZE
    ensures Fits(d)
  {
    Dirent((b[0] as int) + 0x100 * (b[1] as int), b[2..])
  }

  lemma DecodeEncode(d: Dirent)
    requires Fits(d)
    ensures Decode(Encode(d)) == d
  {
    assert Encode(d)[2..] == d.name;
  }

  /** The k-th entry of a directory's contents. */
  function EntryAt(c: seq<Byte>, k: nat): Dirent
    requires 16 * k + 16 <= |c|
  {
    Decode(c[16 * k..16 * k + 16])
  }

  function Entries(c: seq<Byte>): (r: seq<Dirent>)
    ensures |r| == |c| / DSIZE && forall k :: 0 <= k < |r| ==> r[k] == EntryAt(c, k)
  {
    seq(|c| / DSIZE, k requires 0 <= k < |c| / DSIZE => EntryAt(c, k))
  }

  // ---- The map ----

  predicate Names(d: Dirent, key: Name) {
    d.inum != 0 && Key(d.name) == key
  }

  /** None of the first k entries has the name. */
  ghost predicate Unnamed(es: seq<Dirent>, key: Name, k: nat) {
    k <= |es| && forall j :: 0 <= j < k ==> !Names(es[j], key)
  }

  lemma UnnamedNext(es: seq<Dirent>, key: Name, k: nat)
    requires Unnamed(es, key, k) && k < |es| && !Names(es[k], key)
    ensures Unnamed(es, key, k + 1)
  {
  }

  /** No name twice. */
  ghost predicate Unique(es: seq<Dirent>) {
    forall j, k :: 0 <= j < k < |es| && es[j].inum != 0 && es[k].inum != 0 ==> Key(es[j].name) != Key(es[k].name)
  }

  /** From names, cut to 14 bytes, to inode numbers. */
  ghost function MapOf(es: seq<Dirent>): map<Name, nat> {
    if es == [] then map[]
    else
      var m := MapOf(es[..|es| - 1]);
      var d := es[|es| - 1];
      if d.inum == 0 then m else m[Key(d.name) := d.inum]
  }

  ghost predicate HasName(es: seq<Dirent>, key: Name) {
    exists k :: 0 <= k < |es| && Names(es[k], key)
  }

  lemma HasNameSnoc(front: seq<Dirent>, d: Dirent, key: Name)
    ensures HasName(front + [d], key) <==> HasName(front, key) || Names(d, key)
  {
    var es := front + [d];
    if k :| 0 <= k < |front| && Names(front[k], key) {
      assert es[k] == front[k];
    }
    if Names(d, key) {
      assert es[|front|] == d;
    }
  }

  lemma {:induction false} MapHas(es: seq<Dirent>, key: Name)
    ensures key in MapOf(es) <==> HasName(es, key)
    decreases |es|
  {
    if es != [] {
      var front := es[..|es| - 1];
      assert es == front + [es[|es| - 1]];
      MapHas(front, key);
      HasNameSnoc(front, es[|es| - 1], key);
    }
  }

  lemma {:induction false} MapAt(es: seq<Dirent>, k: nat)
    requires Unique(es) && k < |es| && es[k].inum != 0
    ensures Key(es[k].name) in MapOf(es) && MapOf(es)[Key(es[k].name)] == es[k].inum
    decreases |es|
  {
    if k < |es| - 1 {
      MapAt(es[..|es| - 1], k);
    }
  }

  /** A new name in a free slot, or at the end, adds one pair to the map. */
  lemma LinkMap(es: seq<Dirent>, fs: seq<Dirent>, k: nat, d: Dirent)
    requires Unique(es) && d.inum != 0 && Key(d.name) !in MapOf(es) && k <= |es| && (k < |es| ==> es[k].inum == 0)
    requires fs == es[..k] + [d] + (if k < |es| then es[k + 1..] else [])
    ensures Unique(fs) && MapOf(fs) == MapOf(es)[Key(d.name) := d.inum]
  {
    MapHas(es, Key(d.name));
    forall j | 0 <= j < |fs| && j != k
      ensures j < |es| && fs[j] == es[j]
    {
    }
    forall j | 0 <= j < |es| && es[j].inum != 0
      ensures Key(es[j].name) != Key(d.name)
    {
      assert Names(es[j], Key(es[j].name));
    }
    LinkMapAll(es, fs, k, d);
  }

  lemma LinkMapAll(es: seq<Dirent>, fs: seq<Dirent>, k: nat, d: Dirent)
    requires Unique(es) && Unique(fs) && d.inum != 0 && k < |fs| && fs[k] == d && (k < |es| ==> es[k].inum == 0)
    requires |es| <= |fs| && (forall j :: 0 <= j < |fs| && j != k ==> j < |es| && fs[j] == es[j])
    ensures MapOf(fs) == MapOf(es)[Key(d.name) := d.inum]
  {
    var m := MapOf(es)[Key(d.name) := d.inum];
    forall key
      ensures key in MapOf(fs) <==> key in m
      ensures key in m ==> MapOf(fs)[key] == m[key]
    {
      MapHas(es, key);
      MapHas(fs, key);
      assert Names(fs[k], Key(d.name));
      if j :| 0 <= j < |es| && Names(es[j], key) {
        assert fs[j] == es[j];
        MapAt(es, j);
        MapAt(fs, j);
      }
      if j :| 0 <= j < |fs| && Names(fs[j], key) {
        assert j != k ==> Names(es[j], key);
      }
      MapAt(fs, k);
    }
  }

  // ---- Bytes ----

  lemma SpliceLength(c: seq<Byte>, k: nat, r: seq<Byte>, tail: seq<Byte>, d: Dirent)
    requires Fits(d) && |c| % DSIZE == 0 && 16 * k <= |c| && r == c[..16 * k] + Encode(d) + tail
    requires tail == if 16 * k + 16 <= |c| then c[16 * k + 16..] else []
    ensures |r| % DSIZE == 0 && |r| / DSIZE == if k < |c| / DSIZE then |c| / DSIZE else k + 1
    ensures k == |c| / DSIZE <==> 16 * k == |c|
  {
    assert |Encode(d)| == 16;
    assert |r| == if 16 * k + 16 <= |c| then |c| else |c| + 16;
  }

  lemma SpliceBefore(c: seq<Byte>, k: nat, r: seq<Byte>, tail: seq<Byte>, d: Dirent, i: nat)
    requires Fits(d) && 16 * k <= |c| && r == c[..16 * k] + Encode(d) + tail && i + 16 <= 16 * k
    ensures r[i..i + 16] == c[i..i + 16]
  {
    var a := c[..16 * k];
    assert r == a + (Encode(d) + tail);
    assert r[i..i + 16] == a[i..i + 16];
  }

  lemma SpliceAt(c: seq<Byte>, k: nat, r: seq<Byte>, tail: seq<Byte>, d: Dirent)
    requires Fits(d) && 16 * k <= |c| && r == c[..16 * k] + Encode(d) + tail
    ensures |r| >= 16 * k + 16 && r[16 * k..16 * k + 16] == Encode(d)
  {
    assert |Encode(d)| == 16 && |c[..16 * k]| == 16 * k;
  }

  lemma SpliceAfter(c: seq<Byte>, k: nat, r: seq<Byte>, tail: seq<Byte>, d: Dirent, i: nat)
    requires Fits(d) && 16 * k + 16 <= i && i + 16 <= |c| && r == c[..16 * k] + Encode(d) + tail && tail == c[16 * k + 16..]
    ensures |r| == |c| && r[i..i + 16] == c[i..i + 16]
  {
    var a := c[..16 * k] + Encode(d);
    assert |a| == 16 * k + 16;
    assert r[i..i + 16] == tail[i - |a|..i - |a| + 16];
  }

  /** Writing one entry changes that entry, or adds it. */
  lemma EntrySplice(c: seq<Byte>, k: nat, d: Dirent)
    requires Fits(d) && |c| % DSIZE == 0 && 16 * k <= |c|
    ensures var r := c[..16 * k] + Encode(d) + (if 16 * k + 16 <= |c| then c[16 * k + 16..] else []);
            && |r| % DSIZE == 0
            && Entries(r) == Entries(c)[..k] + [d] + (if k < |Entries(c)| then Entries(c)[k + 1..] else [])
  {
    var tail := if 16 * k + 16 <= |c| then c[16 * k + 16..] else [];
    var r := c[..16 * k] + Encode(d) + tail;
    var es := Entries(c)[..k] + [d] + (if k < |Entries(c)| then Entries(c)[k + 1..] else []);
    SpliceLength(c, k, r, tail, d);
    DecodeEncode(d);
    forall j | 0 <= j < |r| / DSIZE
      ensures Entries(r)[j] == es[j]
    {
      if j < k {
        SpliceBefore(c, k, r, tail, d, 16 * j);
      } else if j == k {
        SpliceAt(c, k, r, tail, d);
      } else {
        SpliceAfter(c, k, r, tail, d, 16 * j);
      }
    }
  }
}
