/** The on-disk redo log: its format, the images a commit and a recovery leave
    behind after each block write, and what recovery makes of each of them. */
module LogFormat {
  import opened Params
  import opened BlockDevice

  /** `start` and `size` are the superblock's logstart and nlog; `total` is the
      number of blocks on the disk. */
  datatype Layout = Layout(start: nat, size: nat, total: nat) {
    /** The log region lies on the disk and has room for the header. */
    predicate Fits() {
      start + size <= total && 0 < size
    }

    /** Room for the header and for a transaction of LOGSIZE blocks. */
    predicate BigEnough() {
      Fits() && LOGSIZE < size
    }

    predicate InLog(b: int) {
      start <= b < start + size
    }

    predicate Home(b: int) {
      0 <= b < total && !InLog(b)
    }
  }

  /** Home blocks, none of them twice, that fit the header. */
  predicate Listable(l: Layout, lh: seq<int>) {
    && |lh| <= LOGSIZE
    && (forall i :: 0 <= i < |lh| ==> l.Home(lh[i]))
    && (forall i, j :: 0 <= i < j < |lh| ==> lh[i] != lh[j])
  }

  /** A list of block numbers that may be logged as one transaction: there is a
      slot for each. */
  predicate Loggable(l: Layout, lh: seq<int>) {
    Listable(l, lh) && |lh| < l.size
  }

  predicate CountOk(h: Block) {
    0 <= h[0] <= LOGSIZE
  }

  /** The block numbers a header block lists. */
  function Entries(h: Block): seq<int>
    requires CountOk(h)
  {
    h[1..1 + h[0]]
  }

  /** What write_head leaves in the header block: the count and that many
      entries are overwritten, the rest of the block stays as it was. */
  function EncodeHead(h: Block, lh: seq<int>): (r: Block)
    requires |lh| <= LOGSIZE
    ensures CountOk(r) && Entries(r) == lh
  {
    [|lh|] + lh + h[1 + |lh|..]
  }

  /** A disk image that recovery can start from. */
  predicate DiskOk(l: Layout, d: Image) {
    && l.Fits()
    && |d| == l.total
    && CountOk(d[l.start])
    && Loggable(l, Entries(d[l.start]))
  }

  function Slot(l: Layout, k: nat): int {
    l.start + 1 + k
  }

  ghost predicate SameHome(l: Layout, d: Image, e: Image) {
    |d| == |e| == l.total && forall b :: l.Home(b) ==> d[b] == e[b]
  }

  // ---- install_trans, write_log, write_head, one block write at a time ----

  /** The image after install_trans has copied the first k log blocks home. */
  function Installed(l: Layout, d: Image, lh: seq<int>, k: nat): (r: Image)
    requires l.Fits() && |d| == l.total && Loggable(l, lh) && k <= |lh|
    ensures |r| == |d|
    decreases k
  {
    if k == 0 then d
    else
      var p := Installed(l, d, lh, k - 1);
      p[lh[k - 1] := p[Slot(l, k - 1)]]
  }

  /** The image after write_log has written the first k log blocks. */
  function Logged(l: Layout, d: Image, vals: seq<Block>, k: nat): (r: Image)
    requires l.Fits() && |d| == l.total && k <= |vals| < l.size
    ensures |r| == |d|
    decreases k
  {
    if k == 0 then d else Logged(l, d, vals, k - 1)[Slot(l, k - 1) := vals[k - 1]]
  }

  function WithHead(l: Layout, d: Image, lh: seq<int>): (r: Image)
    requires l.Fits() && |d| == l.total && |lh| <= LOGSIZE
    ensures |r| == |d|
  {
    d[l.start := EncodeHead(d[l.start], lh)]
  }

  /** The image that a completed recovery leaves. */
  function Recovered(l: Layout, d: Image): (r: Image)
    requires DiskOk(l, d)
    ensures |r| == |d|
  {
    var lh := Entries(d[l.start]);
    WithHead(l, Installed(l, d, lh, |lh|), [])
  }

  /** The image after j block writes of recover_from_log. */
  function RecoveryImage(l: Layout, d: Image, j: nat): (r: Image)
    requires DiskOk(l, d) && j <= d[l.start][0] + 1
    ensures |r| == |d|
  {
    var lh := Entries(d[l.start]);
    if j <= |lh| then Installed(l, d, lh, j) else Recovered(l, d)
  }

  /** The image after i block writes of commit() for a transaction that puts
      vals[k] into block lh[k]: |lh| log blocks, the header, |lh| home blocks
      and the header again. */
  function CommitImage(l: Layout, d: Image, lh: seq<int>, vals: seq<Block>, i: nat): (r: Image)
    requires l.Fits() && |d| == l.total && Loggable(l, lh) && |vals| == |lh|
    requires i <= 2 * |lh| + 2
    ensures |r| == |d|
  {
    var n := |lh|;
    if i <= n then Logged(l, d, vals, i)
    else
      var c := WithHead(l, Logged(l, d, vals, n), lh);
      if i <= 2 * n + 1 then Installed(l, c, lh, i - n - 1)
      else WithHead(l, Installed(l, c, lh, n), [])
  }

  // ---- What each image holds ----

  /** Installing touches exactly the first k listed blocks, and gives each the
      contents of its own slot. */
  lemma {:induction false} InstalledBlocks(l: Layout, d: Image, lh: seq<int>, k: nat)
    requires l.Fits() && |d| == l.total && Loggable(l, lh) && k <= |lh|
    ensures forall i :: 0 <= i < k ==> Installed(l, d, lh, k)[lh[i]] == d[Slot(l, i)]
    ensures forall b :: 0 <= b < l.total && b !in lh[..k] ==> Installed(l, d, lh, k)[b] == d[b]
    decreases k
  {
    if k > 0 {
      InstalledBlocks(l, d, lh, k - 1);
      var p := Installed(l, d, lh, k - 1);
      var r := Installed(l, d, lh, k);
      assert Slot(l, k - 1) !in lh[..k - 1];
      assert p[Slot(l, k - 1)] == d[Slot(l, k - 1)];
      forall b | 0 <= b < l.total && b !in lh[..k]
        ensures r[b] == d[b]
      {
        Unlisted(lh, k, b);
      }
    }
  }

  lemma Unlisted(lh: seq<int>, k: nat, b: int)
    requires 0 < k <= |lh| && b !in lh[..k]
    ensures b !in lh[..k - 1] && b != lh[k - 1]
  {
    assert lh[..k] == lh[..k - 1] + [lh[k - 1]];
  }

  lemma {:induction false} LoggedBlocks(l: Layout, d: Image, vals: seq<Block>, k: nat)
    requires l.Fits() && |d| == l.total && k <= |vals| < l.size
    ensures forall i :: 0 <= i < k ==> Logged(l, d, vals, k)[Slot(l, i)] == vals[i]
    ensures forall b :: 0 <= b < l.total && !(Slot(l, 0) <= b < Slot(l, k)) ==> Logged(l, d, vals, k)[b] == d[b]
    decreases k
  {
    if k > 0 {
      LoggedBlocks(l, d, vals, k - 1);
    }
  }

  /** A disk whose header lists nothing recovers to itself. */
  lemma RecoveredEmpty(l: Layout, d: Image)
    requires DiskOk(l, d) && d[l.start][0] == 0
    ensures SameHome(l, Recovered(l, d), d)
  {
  }

  /** Recovery gives every listed block the contents of its slot and changes
      no other home block; it leaves an empty header, so it is finished. */
  lemma RecoveredBlocks(l: Layout, d: Image)
    requires DiskOk(l, d)
    ensures DiskOk(l, Recovered(l, d)) && Recovered(l, d)[l.start][0] == 0
    ensures forall i :: 0 <= i < d[l.start][0] ==> Recovered(l, d)[Entries(d[l.start])[i]] == d[Slot(l, i)]
    ensures forall b :: l.Home(b) && b !in Entries(d[l.start]) ==> Recovered(l, d)[b] == d[b]
  {
    var lh := Entries(d[l.start]);
    InstalledBlocks(l, d, lh, |lh|);
    assert lh[..|lh|] == lh;
  }

  /** Two images with the same header, the same slots and the same unlisted
      blocks recover alike: the listed blocks may hold anything. */
  lemma RecoveredSame(l: Layout, d: Image, e: Image)
    requires DiskOk(l, d) && DiskOk(l, e)
    requires Entries(d[l.start]) == Entries(e[l.start])
    requires forall i :: 0 <= i < d[l.start][0] ==> d[Slot(l, i)] == e[Slot(l, i)]
    requires forall b :: l.Home(b) && b !in Entries(d[l.start]) ==> d[b] == e[b]
    ensures SameHome(l, Recovered(l, d), Recovered(l, e))
  {
    RecoveredBlocks(l, d);
    RecoveredBlocks(l, e);
    var lh := Entries(d[l.start]);
    assert |lh| == d[l.start][0] == e[l.start][0];
    forall b | l.Home(b)
      ensures Recovered(l, d)[b] == Recovered(l, e)[b]
    {
      if b in lh {
        var i :| 0 <= i < |lh| && lh[i] == b;
        assert Recovered(l, d)[lh[i]] == d[Slot(l, i)];
        assert Recovered(l, e)[Entries(e[l.start])[i]] == e[Slot(l, i)];
      }
    }
  }

  /** Stopping recovery after any number of block writes changes nothing about
      what recovery, run again, will produce. */
  lemma RecoveryRestarts(l: Layout, d: Image, j: nat)
    requires DiskOk(l, d) && j <= d[l.start][0] + 1
    ensures DiskOk(l, RecoveryImage(l, d, j))
    ensures SameHome(l, Recovered(l, RecoveryImage(l, d, j)), Recovered(l, d))
  {
    var lh := Entries(d[l.start]);
    if j <= |lh| {
      InstalledBlocks(l, d, lh, j);
      var e := RecoveryImage(l, d, j);
      assert l.start !in lh[..j];
      assert e[l.start] == d[l.start];
      forall b | l.Home(b) && b !in lh
        ensures d[b] == e[b]
      {
        assert b !in lh[..j];
      }
      forall i | 0 <= i < |lh|
        ensures d[Slot(l, i)] == e[Slot(l, i)]
      {
        assert l.InLog(Slot(l, i));
        assert Slot(l, i) !in lh[..j];
      }
      RecoveredSame(l, e, d);
    } else {
      RecoveredBlocks(l, d);
      RecoveredEmpty(l, Recovered(l, d));
    }
  }

  // ---- Crash atomicity of one commit ----

  /** `e` is `d` with block lh[k] replaced by vals[k], for every k. */
  ghost predicate IsUpdate(l: Layout, d: Image, lh: seq<int>, vals: seq<Block>, e: Image)
    requires |d| == l.total && |vals| == |lh| && Loggable(l, lh)
  {
    && |e| == l.total
    && (forall i :: 0 <= i < |lh| ==> e[lh[i]] == vals[i])
    && (forall b :: l.Home(b) && b !in lh ==> e[b] == d[b])
  }

  lemma CrashBeforeHeader(l: Layout, d: Image, lh: seq<int>, vals: seq<Block>, i: nat)
    requires DiskOk(l, d) && d[l.start][0] == 0 && Loggable(l, lh) && |vals| == |lh|
    requires i <= |lh|
    ensures DiskOk(l, CommitImage(l, d, lh, vals, i))
    ensures SameHome(l, Recovered(l, CommitImage(l, d, lh, vals, i)), d)
  {
    LoggedBlocks(l, d, vals, i);
    var e := CommitImage(l, d, lh, vals, i);
    assert e[l.start] == d[l.start];
    RecoveredEmpty(l, e);
  }

  /** The image right after the header write, the true commit point. */
  lemma CommitPoint(l: Layout, d: Image, lh: seq<int>, vals: seq<Block>)
    requires DiskOk(l, d) && Loggable(l, lh) && |vals| == |lh|
    ensures var c := CommitImage(l, d, lh, vals, |lh| + 1);
            DiskOk(l, c) && Entries(c[l.start]) == lh && IsUpdate(l, d, lh, vals, Recovered(l, c))
  {
    var n := |lh|;
    LoggedBlocks(l, d, vals, n);
    var c := CommitImage(l, d, lh, vals, n + 1);
    assert c == WithHead(l, Logged(l, d, vals, n), lh);
    assert Entries(c[l.start]) == lh;
    RecoveredBlocks(l, c);
    forall k | 0 <= k < n
      ensures Recovered(l, c)[lh[k]] == vals[k]
    {
      assert Recovered(l, c)[Entries(c[l.start])[k]] == c[Slot(l, k)];
    }
  }

  /** From the commit point on, commit() writes what recovery would write. */
  lemma CommitIsRecovery(l: Layout, d: Image, lh: seq<int>, vals: seq<Block>, i: nat)
    requires DiskOk(l, d) && Loggable(l, lh) && |vals| == |lh|
    requires |lh| < i <= 2 * |lh| + 2
    ensures var c := CommitImage(l, d, lh, vals, |lh| + 1);
            && DiskOk(l, c) && c[l.start][0] == |lh|
            && CommitImage(l, d, lh, vals, i) == RecoveryImage(l, c, i - |lh| - 1)
  {
    CommitPoint(l, d, lh, vals);
    CommitFirst(l, d, lh, vals);
    SameImages(l, d, lh, vals, CommitImage(l, d, lh, vals, |lh| + 1), i);
  }

  lemma CommitFirst(l: Layout, d: Image, lh: seq<int>, vals: seq<Block>)
    requires l.Fits() && |d| == l.total && Loggable(l, lh) && |vals| == |lh|
    ensures CommitImage(l, d, lh, vals, |lh| + 1) == WithHead(l, Logged(l, d, vals, |lh|), lh)
  {
  }

  lemma SameImages(l: Layout, d: Image, lh: seq<int>, vals: seq<Block>, c: Image, i: nat)
    requires l.Fits() && |d| == l.total && Loggable(l, lh) && |vals| == |lh| && |lh| < i <= 2 * |lh| + 2
    requires c == WithHead(l, Logged(l, d, vals, |lh|), lh) && DiskOk(l, c) && Entries(c[l.start]) == lh
    ensures c[l.start][0] == |lh| && CommitImage(l, d, lh, vals, i) == RecoveryImage(l, c, i - |lh| - 1)
  {
  }

  lemma CrashAfterHeader(l: Layout, d: Image, lh: seq<int>, vals: seq<Block>, i: nat)
    requires DiskOk(l, d) && Loggable(l, lh) && |vals| == |lh|
    requires |lh| < i <= 2 * |lh| + 2
    ensures DiskOk(l, CommitImage(l, d, lh, vals, i))
    ensures IsUpdate(l, d, lh, vals, Recovered(l, CommitImage(l, d, lh, vals, i)))
  {
    CommitPoint(l, d, lh, vals);
    CommitIsRecovery(l, d, lh, vals, i);
    var c := CommitImage(l, d, lh, vals, |lh| + 1);
    RecoveryRestarts(l, c, i - |lh| - 1);
    SameHomeUpdate(l, d, lh, vals, Recovered(l, c), Recovered(l, RecoveryImage(l, c, i - |lh| - 1)));
  }

  lemma SameHomeUpdate(l: Layout, d: Image, lh: seq<int>, vals: seq<Block>, e: Image, f: Image)
    requires |d| == l.total && |vals| == |lh| && Loggable(l, lh)
    requires SameHome(l, e, f) && IsUpdate(l, d, lh, vals, e)
    ensures IsUpdate(l, d, lh, vals, f)
  {
  }

  /** The disk after a run of recovery attempts, each cut off by a crash after
      cuts[k] of its block writes. */
  ghost function AfterCrashes(l: Layout, d: Image, cuts: seq<nat>): (r: Image)
    requires DiskOk(l, d)
    ensures DiskOk(l, r)
    decreases |cuts|
  {
    if cuts == [] then d
    else
      var j := if cuts[0] <= d[l.start][0] then cuts[0] else d[l.start][0] + 1;
      RecoveryRestarts(l, d, j);
      AfterCrashes(l, RecoveryImage(l, d, j), cuts[1..])
  }

  lemma {:induction false} CrashesInRecovery(l: Layout, d: Image, cuts: seq<nat>)
    requires DiskOk(l, d)
    ensures SameHome(l, Recovered(l, AfterCrashes(l, d, cuts)), Recovered(l, d))
    decreases |cuts|
  {
    if cuts != [] {
      var j := if cuts[0] <= d[l.start][0] then cuts[0] else d[l.start][0] + 1;
      RecoveryRestarts(l, d, j);
      CrashesInRecovery(l, RecoveryImage(l, d, j), cuts[1..]);
    }
  }

  /** Crash atomicity: a commit cut off after any number i of its block writes,
      followed by any number of recoveries themselves cut off anywhere, and
      then by one recovery that completes, leaves all of the transaction or
      none of it: none exactly when the header had not been written. */
  lemma CrashAtomicity(l: Layout, d: Image, lh: seq<int>, vals: seq<Block>, i: nat, cuts: seq<nat>)
    requires DiskOk(l, d) && d[l.start][0] == 0 && Loggable(l, lh) && |vals| == |lh|
    requires i <= 2 * |lh| + 2
    ensures DiskOk(l, CommitImage(l, d, lh, vals, i))
    ensures var r := Recovered(l, AfterCrashes(l, CommitImage(l, d, lh, vals, i), cuts));
            && DiskOk(l, r) && r[l.start][0] == 0
            && (i <= |lh| ==> SameHome(l, r, d))
            && (i > |lh| ==> IsUpdate(l, d, lh, vals, r))
  {
    var e := CommitImage(l, d, lh, vals, i);
    if i <= |lh| {
      CrashBeforeHeader(l, d, lh, vals, i);
    } else {
      CrashAfterHeader(l, d, lh, vals, i);
    }
    CrashesInRecovery(l, e, cuts);
    RecoveredBlocks(l, AfterCrashes(l, e, cuts));
    if i > |lh| {
      SameHomeUpdate(l, d, lh, vals, Recovered(l, e), Recovered(l, AfterCrashes(l, e, cuts)));
    }
  }
}
