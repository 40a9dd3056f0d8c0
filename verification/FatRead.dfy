/** fs/fat16/read.c: reading a byte range of a file through one cluster buffer. */
module FatRead {

  const SECTOR := 512

  type Byte = x: int | 0 <= x < 256

  /** What `fat16_init` leaves. The disk is a byte image; `sectorPerCluster` fits a byte and, multiplied
      by the sector size, the 16-bit `cluster_size`. */
  datatype RawVolume = RawVolume(disk: int -> Byte, dataEntry: nat, rootdirEntry: nat, sectorPerCluster: nat,
                                 rootEntries: nat) {
    predicate Ok() {
      1 <= sectorPerCluster <= 127 && dataEntry < 0x1_0000 && rootdirEntry < 0x1_0000 && rootEntries < 0x1_0000
    }

    function ClusterSize(): (n: nat)
      ensures Ok() ==> SECTOR <= n <= 0xFFFF
    {
      SECTOR * sectorPerCluster
    }
  }

  type Volume = v: RawVolume | v.Ok() witness RawVolume(_ => 0, 0, 0, 1, 0)

  datatype Inode = Inode(id: nat, size: nat)

  function U16(x: int): nat {
    x % 0x1_0000
  }

  function U32(x: int): nat {
    x % 0x1_0000_0000
  }

  /** First byte on the disk of a cluster, in the code's 32-bit sector arithmetic. */
  function ClusterBase(vol: Volume, cluster: nat): int {
    SECTOR * U32(vol.dataEntry + (cluster - 2) * vol.sectorPerCluster)
  }

  /** The file as the code lays it out: cluster after cluster from `id` on. */
  ghost function Image(vol: Volume, id: nat, x: nat): Byte {
    vol.disk(ClusterBase(vol, U16(id + x / vol.ClusterSize())) + x % vol.ClusterSize())
  }

  /** Where cluster `id` starts on the disk if no arithmetic wraps. */
  ghost function LinearStart(vol: Volume, id: nat): int {
    SECTOR * (vol.dataEntry + (id - 2) * vol.sectorPerCluster)
  }

  /** Clusters that follow each other are one run of bytes on the disk. */
  lemma ImageIsLinear(vol: Volume, id: nat, x: nat)
    requires 2 <= id && id + x / vol.ClusterSize() <= 0xFFFF
    ensures Image(vol, id, x) == vol.disk(LinearStart(vol, id) + x)
  {
    hide RawVolume.ClusterSize, ClusterBase, Image, U16, LinearStart;
    DivMod(x, vol.ClusterSize());
    LinearBase(vol, id, x / vol.ClusterSize());
    ImageAt(vol, id, x, LinearStart(vol, id));
  }

  lemma ImageAt(vol: Volume, id: nat, x: nat, base: int)
    requires ClusterBase(vol, U16(id + x / vol.ClusterSize())) == base + (x / vol.ClusterSize()) * vol.ClusterSize()
    ensures Image(vol, id, x) == vol.disk(base + x)
  {
    hide ClusterBase, U16, RawVolume.ClusterSize;
    DivMod(x, vol.ClusterSize());
  }

  lemma LinearBase(vol: Volume, id: nat, q: nat)
    requires 2 <= id && id + q <= 0xFFFF
    ensures ClusterBase(vol, U16(id + q)) == LinearStart(vol, id) + q * vol.ClusterSize()
  {
    SectorFits(vol, id + q);
    Distribute(id - 2, q, vol.sectorPerCluster);
    hide ClusterBase;
    assert U16(id + q) == id + q;
  }

  lemma DivMod(x: nat, n: nat)
    requires n > 0
    ensures x == (x / n) * n + x % n && x % n < n && 0 <= x / n
  {
  }

  lemma SectorFits(vol: Volume, c: nat)
    requires 2 <= c <= 0xFFFF
    ensures 0 <= (c - 2) * vol.sectorPerCluster <= 0xFFFD * 127
    ensures ClusterBase(vol, c) == SECTOR * (vol.dataEntry + (c - 2) * vol.sectorPerCluster)
  {
    MulBound(c - 2, vol.sectorPerCluster, 0xFFFD, 127);
  }

  lemma MulBound(a: nat, b: nat, m: nat, n: nat)
    requires a <= m && b <= n
    ensures 0 <= a * b <= m * n
  {
    assert a * b <= m * b;
    assert m * b <= m * n;
  }

  lemma Distribute(a: nat, q: nat, s: nat)
    ensures SECTOR * ((a + q) * s) == SECTOR * (a * s) + q * (SECTOR * s)
  {
  }

  /** `fat16_read_cluster` */
  method ReadCluster(vol: Volume, cluster: nat, buf: array<Byte>)
    requires buf.Length >= vol.ClusterSize()
    modifies buf
    ensures forall x :: 0 <= x < vol.ClusterSize() ==> buf[x] == vol.disk(ClusterBase(vol, cluster) + x)
    ensures forall x :: vol.ClusterSize() <= x < buf.Length ==> buf[x] == old(buf[x])
  {
    for i := 0 to vol.ClusterSize()
      invariant forall x :: 0 <= x < i ==> buf[x] == vol.disk(ClusterBase(vol, cluster) + x)
      invariant forall x :: i <= x < buf.Length ==> buf[x] == old(buf[x])
    {
      buf[i] := vol.disk(ClusterBase(vol, cluster) + i);
    }
  }

  /** `memcpy(dst + at, src + from, count)` */
  method Memcpy(dst: array<Byte>, at: nat, src: array<Byte>, from: nat, count: nat)
    requires at + count <= dst.Length && from + count <= src.Length && dst != src
    modifies dst
    ensures forall x :: 0 <= x < dst.Length ==>
      dst[x] == if at <= x < at + count then src[from + x - at] else old(dst[x])
  {
    for i := 0 to count
      invariant forall x :: 0 <= x < dst.Length ==>
        dst[x] == if at <= x < at + i then src[from + x - at] else old(dst[x])
      invariant src[..] == old(src[..])
    {
      dst[at + i] := src[from + i];
    }
  }

  // ---- What one call writes ----

  /** The range lies in one cluster: the code's `i == cluster_offset && i == cluster_offset_end`. */
  predicate OneCluster(cs: nat, offset: nat, size: nat)
    requires cs > 0
  {
    offset / cs == (offset + size) / cs
  }

  /** The destination bytes that are written. */
  ghost predicate Writes(cs: nat, offset: nat, size: nat, x: int)
    requires cs > 0
  {
    if OneCluster(cs, offset, size) then 0 <= x < size
    else 0 <= x < cs - offset % cs || cs <= x < size + offset % cs
  }

  /** The file position a written byte comes from. */
  ghost function Source(cs: nat, offset: nat, size: nat, x: nat): nat
    requires cs > 0
  {
    if OneCluster(cs, offset, size) || x < cs - offset % cs then offset + x else offset - offset % cs + x
  }

  /** How far the code may write. */
  ghost function Extent(cs: nat, offset: nat, size: nat): nat
    requires cs > 0
  {
    if OneCluster(cs, offset, size) then size else if size + offset % cs < cs then cs else size + offset % cs
  }

  /** The buffer after reading cluster number i of the file holds that cluster of the image. */
  lemma BufferIsImage(vol: Volume, id: nat, i: nat, z: nat)
    requires z < vol.ClusterSize()
    ensures Image(vol, id, i * vol.ClusterSize() + z) == vol.disk(ClusterBase(vol, U16(id + i)) + z)
  {
    Quotient(i, vol.ClusterSize(), z);
  }

  lemma Quotient(i: nat, n: nat, z: nat)
    requires z < n
    ensures (i * n + z) / n == i && (i * n + z) % n == z
  {
    DivMod(i * n + z, n);
    var q, r := (i * n + z) / n, (i * n + z) % n;
    assert (i - q) * n == r - z;
    if i > q { MulBound(1, n, i - q, n); } else if i < q { MulBound(1, n, q - i, n); }
  }

  /** Of the bytes the call writes, those below `limit` have been written, the others not. */
  ghost predicate Filled(vol: Volume, id: nat, offset: nat, size: nat, was: seq<Byte>, now: seq<Byte>, limit: int) {
    && |now| == |was|
    && forall x :: 0 <= x < |now| ==>
         now[x] == if Writes(vol.ClusterSize(), offset, size, x) && x < limit
                   then Image(vol, id, Source(vol.ClusterSize(), offset, size, x)) else was[x]
  }

  /** The piece of cluster i: where it goes and where in the buffer it starts. */
  ghost predicate PieceOf(cs: nat, offset: nat, size: nat, i: nat, at: nat, from: nat, count: nat, limit: int,
                          limit': int)
    requires cs > 0
  {
    && from + count <= cs && at + count <= Extent(cs, offset, size) && limit <= limit'
    && (forall x :: at <= x < at + count ==>
          limit <= x < limit' && Writes(cs, offset, size, x) && Source(cs, offset, size, x) == i * cs + from + x - at)
    && (forall x :: limit <= x < limit' && Writes(cs, offset, size, x) ==> at <= x < at + count)
  }

  /** Destination offset at which the part of cluster i or later begins. */
  ghost function LimitAt(cs: nat, offset: nat, i: nat): int
    requires cs > 0
  {
    (i - offset / cs) * cs
  }

  lemma OnePiece(cs: nat, offset: nat, size: nat)
    requires cs > 0 && OneCluster(cs, offset, size)
    ensures PieceOf(cs, offset, size, offset / cs, 0, offset % cs, size, 0, cs)
    ensures offset % cs + size <= cs && size <= Extent(cs, offset, size)
  {
    DivMod(offset, cs);
    DivMod(offset + size, cs);
  }

  lemma FirstPiece(cs: nat, offset: nat, size: nat)
    requires cs > 0 && !OneCluster(cs, offset, size)
    ensures PieceOf(cs, offset, size, offset / cs, 0, offset % cs, cs - offset % cs, 0, cs)
    ensures cs - offset % cs <= Extent(cs, offset, size)
  {
    DivMod(offset, cs);
  }

  lemma MiddlePiece(cs: nat, offset: nat, size: nat, i: nat)
    requires cs > 0 && offset / cs < i < (offset + size) / cs
    ensures cs <= LimitAt(cs, offset, i) && LimitAt(cs, offset, i) + cs <= Extent(cs, offset, size)
    ensures PieceOf(cs, offset, size, i, LimitAt(cs, offset, i), 0, cs, LimitAt(cs, offset, i),
      LimitAt(cs, offset, i + 1))
  {
    PieceArithmetic(cs, offset, size, i);
    DivMod(offset, cs);
  }

  lemma LastPiece(cs: nat, offset: nat, size: nat)
    requires cs > 0 && !OneCluster(cs, offset, size)
    ensures var i := (offset + size) / cs;
      && cs <= LimitAt(cs, offset, i) && LimitAt(cs, offset, i) + (offset + size) % cs <= Extent(cs, offset, size)
      && PieceOf(cs, offset, size, i, LimitAt(cs, offset, i), 0, (offset + size) % cs, LimitAt(cs, offset, i),
         LimitAt(cs, offset, i + 1))
  {
    LaterCluster(cs, offset, size);
    PieceArithmetic(cs, offset, size, (offset + size) / cs);
    DivMod(offset, cs);
  }

  lemma LaterCluster(cs: nat, offset: nat, size: nat)
    requires cs > 0 && !OneCluster(cs, offset, size)
    ensures offset / cs < (offset + size) / cs
  {
    DivMono(offset, offset + size, cs);
  }

  lemma DivMono(a: nat, b: nat, n: nat)
    requires n > 0 && a <= b
    ensures a / n <= b / n
  {
    DivMod(a, n);
    DivMod(b, n);
    MulGap(a / n, b / n, n);
  }

  lemma MulGap(p: nat, q: nat, n: nat)
    ensures p > q ==> p * n >= q * n + n
  {
    if p > q { MulBound(1, n, p - q, n); assert (p - q) * n == p * n - q * n; }
  }

  lemma PieceArithmetic(cs: nat, offset: nat, size: nat, i: nat)
    requires cs > 0 && offset / cs < i <= (offset + size) / cs
    ensures LimitAt(cs, offset, i) >= cs && LimitAt(cs, offset, i + 1) == LimitAt(cs, offset, i) + cs
    ensures offset - offset % cs + LimitAt(cs, offset, i) == i * cs
    ensures i < (offset + size) / cs ==> LimitAt(cs, offset, i) + cs <= size + offset % cs
    ensures i == (offset + size) / cs ==> size + offset % cs == LimitAt(cs, offset, i) + (offset + size) % cs
  {
    var co, e := offset / cs, (offset + size) / cs;
    DivMod(offset, cs);
    DivMod(offset + size, cs);
    assert (i - co) * cs == i * cs - co * cs;
    assert (i + 1 - co) * cs == (i - co) * cs + cs;
    MulBound(1, cs, i - co, cs);
    if i < e { MulBound(i + 1, cs, e, cs); assert (i + 1) * cs == i * cs + cs; }
  }

  lemma Fits(cs: nat, x: nat)
    requires 0 < cs <= 0xFFFF && x / cs <= 0xFFFF
    ensures U16(x / cs) == x / cs && U16(x % cs) == x % cs < cs
  {
    hide U16;
    DivMod(x, cs);
    Small16(x / cs);
    Small16(x % cs);
  }

  lemma OneClusterIs(cs: nat, offset: nat, size: nat)
    requires cs > 0
    ensures OneCluster(cs, offset, size) <==> offset / cs == (offset + size) / cs
  {
  }

  lemma Small16(x: nat)
    requires x <= 0xFFFF
    ensures U16(x) == x
  {
  }

  lemma StartFilled(vol: Volume, id: nat, offset: nat, size: nat, was: seq<Byte>)
    ensures Filled(vol, id, offset, size, was, was, 0)
  {
    hide Image, Source;
  }

  lemma ClusterNumber(id: nat, i: nat)
    ensures U16(U16(id) + i) == U16(id + i)
  {
  }

  lemma LimitNext(cs: nat, offset: nat, i: nat)
    requires cs > 0
    ensures LimitAt(cs, offset, offset / cs) == 0 && LimitAt(cs, offset, i + 1) == LimitAt(cs, offset, i) + cs
  {
    assert (i + 1 - offset / cs) * cs == (i - offset / cs) * cs + cs;
  }

  /** At the end everything the call writes has been written. */
  lemma AllFilled(vol: Volume, id: nat, offset: nat, size: nat, was: seq<Byte>, now: seq<Byte>, last: nat)
    requires last == (offset + size) / vol.ClusterSize()
    requires Filled(vol, id, offset, size, was, now, LimitAt(vol.ClusterSize(), offset, last + 1))
    ensures now == AfterReadi(vol, id, offset, size, was)
  {
    hide Image, Source, Writes, RawVolume.ClusterSize, LimitAt;
    WritesBelow(vol.ClusterSize(), offset, size);
  }

  lemma WritesBelow(cs: nat, offset: nat, size: nat)
    requires cs > 0
    ensures forall x :: Writes(cs, offset, size, x) ==> x < LimitAt(cs, offset, (offset + size) / cs + 1)
  {
    DivMod(offset, cs);
    DivMod(offset + size, cs);
    LimitNext(cs, offset, (offset + size) / cs);
    if !OneCluster(cs, offset, size) {
      LaterCluster(cs, offset, size);
      PieceArithmetic(cs, offset, size, (offset + size) / cs);
    }
  }

  /** One `memcpy` out of the buffer, given the piece it is. */
  lemma CopyPiece(vol: Volume, id: nat, offset: nat, size: nat, was: seq<Byte>, now: seq<Byte>, next: seq<Byte>,
                  buf: seq<Byte>, i: nat, at: nat, from: nat, count: nat, limit: int, limit': int)
    requires Filled(vol, id, offset, size, was, now, limit) && |next| == |now| && |buf| == vol.ClusterSize()
    requires PieceOf(vol.ClusterSize(), offset, size, i, at, from, count, limit, limit')
    requires forall z :: 0 <= z < |buf| ==> buf[z] == vol.disk(ClusterBase(vol, U16(id + i)) + z)
    requires forall x :: 0 <= x < |next| ==>
      next[x] == if at <= x < at + count && from + x - at < |buf| then buf[from + x - at] else now[x]
    ensures Filled(vol, id, offset, size, was, next, limit')
  {
    hide Image, Source, Writes, ClusterBase, U16, RawVolume.ClusterSize, Extent;
    var cs := vol.ClusterSize();
    forall x | 0 <= x < |next|
      ensures next[x] ==
        if Writes(cs, offset, size, x) && x < limit' then Image(vol, id, Source(cs, offset, size, x)) else was[x]
    {
      if at <= x < at + count {
        assert Source(cs, offset, size, x) == i * cs + from + x - at;
        BufferIsImage(vol, id, i, from + x - at);
      }
    }
  }

  /** What the call leaves in a destination that held `was`. */
  ghost function AfterReadi(vol: Volume, id: nat, offset: nat, size: nat, was: seq<Byte>): seq<Byte> {
    seq(|was|, x requires 0 <= x < |was| =>
      if Writes(vol.ClusterSize(), offset, size, x) then Image(vol, id, Source(vol.ClusterSize(), offset, size, x))
        else was[x])
  }

  // ---- The call ----

  /** The four `memcpy` cases of the loop: only cluster, first, last, middle. */
  method CopyOut(vol: Volume, ghost id: nat, dst: array<Byte>, offset: nat, size: nat, buf: array<Byte>, i: nat,
                 ghost was: seq<Byte>)
    requires var cs := vol.ClusterSize();
      && dst != buf && buf.Length == cs && offset / cs <= i <= (offset + size) / cs
      && Extent(cs, offset, size) <= dst.Length
      && Filled(vol, id, offset, size, was, dst[..], LimitAt(cs, offset, i))
    requires forall z :: 0 <= z < buf.Length ==> buf[z] == vol.disk(ClusterBase(vol, U16(id + i)) + z)
    modifies dst
    ensures Filled(vol, id, offset, size, was, dst[..], LimitAt(vol.ClusterSize(), offset, i + 1))
  {
    hide Image, Source, Writes, ClusterBase, OneCluster, PieceOf, Extent, U16, Filled, RawVolume.ClusterSize, LimitAt;
    var cs := vol.ClusterSize();
    var start, remain := offset / cs, U16(offset % cs);
    var end, endRemain := (offset + size) / cs, U16((offset + size) % cs);
    Small16(offset % cs);
    Small16((offset + size) % cs);
    ghost var now := dst[..];
    OneClusterIs(cs, offset, size);
    DivMod(offset, cs);
    DivMod(offset + size, cs);
    LimitNext(cs, offset, i);
    if i == start && i == end {
      OnePiece(cs, offset, size);
      Memcpy(dst, 0, buf, remain, size);
      CopyPiece(vol, id, offset, size, was, now, dst[..], buf[..], i, 0, remain, size, 0, cs);
    } else if i == start {
      FirstPiece(cs, offset, size);
      Memcpy(dst, 0, buf, remain, cs - remain);
      CopyPiece(vol, id, offset, size, was, now, dst[..], buf[..], i, 0, remain, cs - remain, 0, cs);
    } else if i == end {
      LastPiece(cs, offset, size);
      LimitIs(cs, offset, i);
      Memcpy(dst, (i - start) * cs, buf, 0, endRemain);
      CopyPiece(vol, id, offset, size, was, now, dst[..], buf[..], i, (i - start) * cs, 0, endRemain,
        LimitAt(cs, offset, i), LimitAt(cs, offset, i + 1));
    } else {
      MiddlePiece(cs, offset, size, i);
      LimitIs(cs, offset, i);
      Memcpy(dst, (i - start) * cs, buf, 0, cs);
      CopyPiece(vol, id, offset, size, was, now, dst[..], buf[..], i, (i - start) * cs, 0, cs, LimitAt(cs, offset, i),
        LimitAt(cs, offset, i + 1));
    }
  }

  lemma LimitIs(cs: nat, offset: nat, i: nat)
    requires cs > 0
    ensures LimitAt(cs, offset, i) == (i - offset / cs) * cs
  {
  }

  /** `fat16_readi`. It fails exactly on an inode number beyond 16 bits or a range beyond the file, and
      then writes nothing; otherwise the bytes it writes are `Writes`, each with the byte of the file
      at `Source`. */
  method Readi(vol: Volume, ino: Inode, dst: array<Byte>, offset: nat, size: nat) returns (r: int)
    requires offset + size < 0x1_0000_0000_0000_0000
    requires ino.id <= 0xFFFF && offset + size <= ino.size ==>
      (offset + size) / vol.ClusterSize() <= 0xFFFF && Extent(vol.ClusterSize(), offset, size) <= dst.Length
    modifies dst
    ensures r == 0 || r == -1
    ensures r == -1 <==> ino.id > 0xFFFF || offset + size > ino.size
    ensures r == -1 ==> dst[..] == old(dst[..])
    ensures r == 0 ==> dst[..] == AfterReadi(vol, ino.id, offset, size, old(dst[..]))
  {
    hide Image, Source, Writes, ClusterBase, OneCluster, PieceOf, Extent, U16, Filled, RawVolume.ClusterSize;
    if ino.id > 0xFFFF {
      return -1;
    }
    if offset + size > ino.size {
      return -1;
    }
    var cs := vol.ClusterSize();
    OneClusterIs(cs, offset, size);
    DivMono(offset, offset + size, cs);
    Fits(cs, offset);
    Fits(cs, offset + size);
    var cluster := U16(ino.id);
    var clusterOffset := U16(offset / cs);
    var clusterOffsetEnd := U16((offset + size) / cs);
    var buf := new Byte[cs];
    ghost var was := dst[..];
    StartFilled(vol, ino.id, offset, size, was);
    LimitNext(cs, offset, clusterOffset);
    for i := clusterOffset to clusterOffsetEnd + 1
      invariant dst != buf && buf.Length == cs
      invariant Filled(vol, ino.id, offset, size, was, dst[..], LimitAt(cs, offset, i))
    {
      ReadCluster(vol, U16(cluster + i), buf);
      ClusterNumber(ino.id, i);
      CopyOut(vol, ino.id, dst, offset, size, buf, i, was);
    }
    AllFilled(vol, ino.id, offset, size, was, dst[..], clusterOffsetEnd);
    return 0;
  }

  // ---- When the result is the range that was asked for ----

  /** Exactly the range, and nothing beyond it. */
  ghost function Wanted(vol: Volume, id: nat, offset: nat, size: nat, was: seq<Byte>): seq<Byte> {
    seq(|was|, x requires 0 <= x < |was| => WantedByte(vol, id, offset, size, was, x))
  }

  ghost function WantedByte(vol: Volume, id: nat, offset: nat, size: nat, was: seq<Byte>, x: nat): Byte
    requires x < |was|
  {
    if x < size then Image(vol, id, offset + x) else was[x]
  }

  /** The range fits in one cluster or starts on a cluster boundary. */
  predicate Served(cs: nat, offset: nat, size: nat)
    requires cs > 0
  {
    offset % cs == 0 || offset % cs + size <= cs
  }

  lemma ServedWrites(cs: nat, offset: nat, size: nat, x: nat)
    requires cs > 0 && Served(cs, offset, size)
    ensures Writes(cs, offset, size, x) <==> x < size
    ensures x < size ==> Source(cs, offset, size, x) == offset + x
  {
    DivMod(offset, cs);
    DivMod(offset + size, cs);
    if !OneCluster(cs, offset, size) {
      LaterCluster(cs, offset, size);
      PieceArithmetic(cs, offset, size, (offset + size) / cs);
    }
  }

  /** Otherwise the call writes on past the end of the range, up to `offset % cs` bytes further. */
  lemma UnservedWrites(cs: nat, offset: nat, size: nat)
    requires cs > 0 && !Served(cs, offset, size)
    ensures var x := size + offset % cs - 1; size <= x && Writes(cs, offset, size, x) && x < Extent(cs, offset, size)
  {
    DivMod(offset, cs);
    if OneCluster(cs, offset, size) { OnePiece(cs, offset, size); }
  }

  /** The call leaves exactly the range asked for, whatever the destination held, if and only if the
      range fits in one cluster or starts on a cluster boundary. */
  lemma ReadiExact(vol: Volume, id: nat, offset: nat, size: nat)
    ensures var cs := vol.ClusterSize();
      Served(cs, offset, size) <==>
      forall was: seq<Byte> :: |was| >= Extent(cs, offset, size) ==>
        AfterReadi(vol, id, offset, size, was) == Wanted(vol, id, offset, size, was)
  {
    hide Image, Source, Writes, Extent, RawVolume.ClusterSize, Served;
    var cs := vol.ClusterSize();
    if Served(cs, offset, size) {
      forall was: seq<Byte> ensures AfterReadi(vol, id, offset, size, was) == Wanted(vol, id, offset, size, was) {
        forall x: nat | x < |was|
          ensures AfterReadi(vol, id, offset, size, was)[x] == Wanted(vol, id, offset, size, was)[x]
        {
          ServedWrites(cs, offset, size, x);
        }
      }
    } else {
      UnservedWrites(cs, offset, size);
      var x := size + offset % cs - 1;
      var other: Byte := if Image(vol, id, Source(cs, offset, size, x)) == 0 then 1 else 0;
      var was: seq<Byte> := seq(Extent(cs, offset, size), _ => other);
      assert AfterReadi(vol, id, offset, size, was)[x] != other == Wanted(vol, id, offset, size, was)[x];
    }
  }
}
