/** fs/fat16/name.c and the directory scan of fs/fat16/common.c: path lookup. */
module FatName {
  import opened Bits
  import opened Memory
  import opened FatRead

  const NAME_BYTES := 11
  const ENTRY_BYTES := 32
  const LFN := 0x0F
  const SPACE := 32
  const SLASH := 47

  // ---- C strings ----

  /** The string that starts at index i: the bytes before the first NUL. */
  function StringFrom(s: seq<Byte>, i: nat): (r: seq<Byte>)
    requires i <= |s|
    ensures |r| <= |s| - i && r == s[i..i + |r|] && 0 !in r
    ensures i + |r| < |s| ==> s[i + |r|] == 0
    decreases |s| - i
  {
    if i == |s| || s[i] == 0 then [] else [s[i]] + StringFrom(s, i + 1)
  }

  function CString(s: seq<Byte>): seq<Byte> {
    StringFrom(s, 0)
  }

  lemma {:induction false} StringIs(s: seq<Byte>, i: nat, n: nat)
    requires i <= n < |s| && s[n] == 0 && forall x :: i <= x < n ==> s[x] != 0
    ensures StringFrom(s, i) == s[i..n]
    decreases n - i
  {
    if i < n { StringIs(s, i + 1, n); }
  }

  /** `strcmp`, both buffers NUL-terminated: 0 exactly when the strings are equal. */
  method Strcmp(dest: array<Byte>, src: array<Byte>) returns (r: int)
    requires 0 in dest[..] && 0 in src[..]
    ensures r == 0 || r == 1
    ensures r == 0 <==> CString(dest[..]) == CString(src[..])
  {
    var i := 0;
    ghost var a, b := CString(dest[..]), CString(src[..]);
    while dest[i] != 0 && src[i] != 0
      invariant i <= |a| && i <= |b| && a[..i] == b[..i]
      invariant |a| < dest.Length && |b| < src.Length
      decreases dest.Length - i
    {
      if dest[i] != src[i] {
        assert a[i] != b[i];
        return 1;
      }
      i := i + 1;
    }
    if dest[i] != src[i] {
      return 1;
    }
    return 0;
  }

  // ---- Directory entries ----

  function EntryByte(d: seq<Byte>, i: nat, j: nat): Byte
    requires ENTRY_BYTES * i + j < |d|
  {
    d[ENTRY_BYTES * i + j]
  }

  function NameOf(d: seq<Byte>, i: nat): seq<Byte>
    requires ENTRY_BYTES * (i + 1) <= |d|
  {
    d[ENTRY_BYTES * i..ENTRY_BYTES * i + NAME_BYTES]
  }

  function AttrOf(d: seq<Byte>, i: nat): Byte
    requires ENTRY_BYTES * (i + 1) <= |d|
  {
    EntryByte(d, i, 11)
  }

  /** Little-endian fields of the packed structure. */
  function ClusterOf(d: seq<Byte>, i: nat): (c: nat)
    requires ENTRY_BYTES * (i + 1) <= |d|
    ensures c < 0x1_0000
  {
    EntryByte(d, i, 26) + 0x100 * EntryByte(d, i, 27)
  }

  function SizeOf(d: seq<Byte>, i: nat): (n: nat)
    requires ENTRY_BYTES * (i + 1) <= |d|
    ensures n < 0x1_0000_0000
  {
    EntryByte(d, i, 28) + 0x100 * EntryByte(d, i, 29) + 0x1_0000 * EntryByte(d, i, 30)
    + 0x100_0000 * EntryByte(d, i, 31)
  }

  /** The bytes before the first space or NUL. */
  function Cut(name: seq<Byte>): seq<Byte> {
    if name == [] || name[0] == 0 || name[0] == SPACE then [] else [name[0]] + Cut(name[1..])
  }

  predicate Usable(d: seq<Byte>, i: nat)
    requires ENTRY_BYTES * (i + 1) <= |d|
  {
    EntryByte(d, i, 0) != 0 && AttrOf(d, i) != LFN
  }

  predicate Matches(d: seq<Byte>, i: nat, name: seq<Byte>)
    requires ENTRY_BYTES * (i + 1) <= |d|
  {
    Usable(d, i) && Cut(NameOf(d, i)) == name
  }

  /** The first usable entry from i on with this name. */
  function Find(d: seq<Byte>, n: nat, name: seq<Byte>, i: nat): (r: Option<nat>)
    requires ENTRY_BYTES * n <= |d| && i <= n
    ensures r.Some? ==> i <= r.value < n && Matches(d, r.value, name)
    ensures forall k: nat :: i <= k < (if r.Some? then r.value else n) ==> !Matches(d, k, name)
    decreases n - i
  {
    if i == n then None
    else if Matches(d, i, name) then Some(i)
    else Find(d, n, name, i + 1)
  }

  lemma {:induction false} FindSkips(d: seq<Byte>, n: nat, name: seq<Byte>, i: nat, k: nat)
    requires ENTRY_BYTES * n <= |d| && i <= k <= n && forall x: nat :: i <= x < k ==> !Matches(d, x, name)
    ensures Find(d, n, name, i) == Find(d, n, name, k)
    decreases k - i
  {
    if i < k { FindSkips(d, n, name, i + 1, k); }
  }

  function SpaceToNul(b: Byte): Byte {
    if b == SPACE then 0 else b
  }

  /** The buffer the code compares with: the eleven bytes, spaces made NUL, and a NUL. */
  lemma {:induction false} CutIs(s: seq<Byte>, name: seq<Byte>, i: nat)
    requires i <= |name| && |s| == |name| + 1 && s[|name|] == 0
    requires forall j :: 0 <= j < |name| ==> s[j] == SpaceToNul(name[j])
    ensures StringFrom(s, i) == Cut(name[i..])
    decreases |name| - i
  {
    if i < |name| && s[i] != 0 {
      CutIs(s, name, i + 1);
      assert name[i..][1..] == name[i + 1..];
    }
  }

  // ---- The packed result ----

  function Pack(cluster: nat, size: nat): nat {
    Or(cluster, size * 0x1_0000_0000)
  }

  /** Both fields survive the 64-bit result. */
  lemma PackRoundTrip(cluster: nat, size: nat)
    requires cluster < 0x1_0000 && size < 0x1_0000_0000
    ensures var w := Pack(cluster, size); 0 <= w < WORD_LIMIT && U16(w) == cluster && U32(Shr(w, 32)) == size
    ensures Pack(cluster, size) == 0 <==> cluster == 0 && size == 0
  {
    Pow32();
    OrComm(cluster, size * 0x1_0000_0000);
    ShiftedIsMultiple(size);
    OrDisjoint(32, size * 0x1_0000_0000, cluster);
    ShrIs(Pack(cluster, size), 32);
    PackedParts(cluster, size);
  }

  lemma Pow32()
    ensures Pow2(32) == 0x1_0000_0000
  {
    Powers();
    PowSum(12, 20);
    PowSum(21, 11);
    PowSum(9, 2);
    PowSum(9, 3);
    PowSum(12, 9);
  }

  lemma ShiftedIsMultiple(size: nat)
    ensures (size * 0x1_0000_0000) % 0x1_0000_0000 == 0
  {
  }

  lemma PackedParts(cluster: nat, size: nat)
    requires cluster < 0x1_0000 && size < 0x1_0000_0000
    ensures var w := size * 0x1_0000_0000 + cluster;
      && 0 <= w < WORD_LIMIT && U16(w) == cluster
      && U32(w / 0x1_0000_0000) == size
  {
    var w := size * 0x1_0000_0000 + cluster;
    ModUnique(w, 0x1_0000, size * 0x1_0000, cluster);
    ModUnique(w, 0x1_0000_0000, size, cluster);
    assert w / 0x1_0000_0000 == size;
  }

  // ---- fat16_find_cluster ----

  function Entries(vol: Volume, dirCluster: nat): nat {
    if dirCluster == 0 then vol.rootEntries else vol.ClusterSize() / ENTRY_BYTES
  }

  /** Bytes of the root directory that are read: whole sectors only. */
  function RootRead(vol: Volume): nat {
    SECTOR * (ENTRY_BYTES * vol.rootEntries / SECTOR)
  }

  function DirByte(vol: Volume, dirCluster: nat, x: nat): Byte {
    if dirCluster != 0 then vol.disk(ClusterBase(vol, dirCluster) + x)
    else if x < RootRead(vol) then vol.disk(SECTOR * vol.rootdirEntry + x) else 0
  }

  /** The directory as it is in memory after it has been read. */
  function Directory(vol: Volume, dirCluster: nat): (d: seq<Byte>)
    ensures ENTRY_BYTES * Entries(vol, dirCluster) <= |d|
  {
    EntriesFit(vol, dirCluster);
    var bytes := if dirCluster == 0 then ENTRY_BYTES * vol.rootEntries else vol.ClusterSize();
    seq(bytes, x requires x >= 0 => DirByte(vol, dirCluster, x))
  }

  lemma EntriesFit(vol: Volume, dirCluster: nat)
    ensures RootRead(vol) <= ENTRY_BYTES * vol.rootEntries
    ensures dirCluster != 0 ==> ENTRY_BYTES * Entries(vol, dirCluster) <= vol.ClusterSize()
  {
  }

  /** What a lookup answers: the packed fields of the first usable entry of that name, or 0. */
  function LookupWord(vol: Volume, dirCluster: nat, name: seq<Byte>): nat {
    var d := Directory(vol, dirCluster);
    match Find(d, Entries(vol, dirCluster), name, 0)
    case None => 0
    case Some(i) => Pack(ClusterOf(d, i), SizeOf(d, i))
  }

  // ---- What a lookup answers, in bytes of the disk ----

  /** The 32 bytes at `a` are an entry in use, not part of a long name, and their first eleven up to a
      space or NUL are `name`. */
  ghost predicate EntryAt(disk: int -> Byte, a: int, name: seq<Byte>) {
    && disk(a) != 0 && disk(a + 11) != 15 && |name| <= 11
    && (forall j :: 0 <= j < |name| ==> disk(a + j) == name[j] && name[j] != 0 && name[j] != 32)
    && (|name| < 11 ==> disk(a + |name|) == 0 || disk(a + |name|) == 32)
  }

  ghost predicate FirstAt(disk: int -> Byte, base: int, n: int, name: seq<Byte>, i: nat) {
    i < n && EntryAt(disk, base + 32 * i, name) && forall k: nat :: k < i ==> !EntryAt(disk, base + 32 * k, name)
  }

  /** First byte of a directory on the disk: the root's own sectors, or those of a cluster. */
  ghost function DirStart(vol: Volume, dirCluster: nat): int {
    if dirCluster == 0 then 512 * vol.rootdirEntry
    else 512 * ((vol.dataEntry + (dirCluster - 2) * vol.sectorPerCluster) % 0x1_0000_0000)
  }

  /** How many entries of 32 bytes it holds; of the root's last sector, only a whole one is read. */
  ghost function DirCount(vol: Volume, dirCluster: nat): int {
    if dirCluster == 0 then 16 * (vol.rootEntries / 16) else 16 * vol.sectorPerCluster
  }

  /** Bytes 26 and 27 of the entry below, bytes 28 to 31 in the upper half. */
  ghost function FieldsAt(disk: int -> Byte, a: int): int {
    disk(a + 26) + 0x100 * disk(a + 27)
    + 0x1_0000_0000 * (disk(a + 28) + 0x100 * disk(a + 29) + 0x1_0000 * disk(a + 30) + 0x100_0000 * disk(a + 31))
  }

  /** `r` holds the fields of the first entry of that name, and is 0 when the directory has none. */
  ghost predicate LooksUp(vol: Volume, dirCluster: nat, name: seq<Byte>, r: int) {
    var base, n := DirStart(vol, dirCluster), DirCount(vol, dirCluster);
    && (forall i: nat :: FirstAt(vol.disk, base, n, name, i) ==> r == FieldsAt(vol.disk, base + 32 * i))
    && ((forall i: nat :: i < n ==> !EntryAt(vol.disk, base + 32 * i, name)) ==> r == 0)
  }

  lemma {:induction false} CutTo(s: seq<Byte>, name: seq<Byte>)
    ensures Cut(s) == name <==>
      && |name| <= |s| && (forall j :: 0 <= j < |name| ==> s[j] == name[j] && name[j] != 0 && name[j] != 32)
      && (|name| < |s| ==> s[|name|] == 0 || s[|name|] == 32)
    decreases |s|
  {
    if s != [] && s[0] != 0 && s[0] != SPACE && name != [] && name[0] == s[0] {
      CutTo(s[1..], name[1..]);
      assert name == [name[0]] + name[1..];
      assert forall j :: 0 <= j < |name| - 1 ==> name[1..][j] == name[j + 1];
      assert forall j :: 0 < j < |name| ==> name[j] == name[1..][j - 1];
    }
  }

  /** Little-endian numbers. */
  ghost function Le16(b0: int, b1: int): int {
    b0 + 0x100 * b1
  }

  ghost function Le32(b0: int, b1: int, b2: int, b3: int): int {
    b0 + 0x100 * b1 + 0x1_0000 * b2 + 0x100_0000 * b3
  }

  ghost function DiskEntry(disk: int -> Byte, a: int): seq<Byte> {
    seq(32, j => disk(a + j))
  }

  lemma DirectoryEntry(vol: Volume, dirCluster: nat, i: nat)
    requires i < Entries(vol, dirCluster) && i < DirCount(vol, dirCluster)
    ensures 32 * i + 32 <= |Directory(vol, dirCluster)|
    ensures Directory(vol, dirCluster)[32 * i..32 * i + 32] == DiskEntry(vol.disk, DirStart(vol, dirCluster) + 32 * i)
  {
    var d, e := Directory(vol, dirCluster), DiskEntry(vol.disk, DirStart(vol, dirCluster) + 32 * i);
    forall j | 0 <= j < 32 ensures d[32 * i..32 * i + 32][j] == e[j] {
      DirectoryByte(vol, dirCluster, i, j);
    }
  }

  lemma DirectoryByte(vol: Volume, dirCluster: nat, i: nat, j: nat)
    requires i < Entries(vol, dirCluster) && i < DirCount(vol, dirCluster) && j < 32
    ensures Directory(vol, dirCluster)[32 * i + j] == vol.disk(DirStart(vol, dirCluster) + 32 * i + j)
  {
  }

  lemma EntryParts(d: seq<Byte>, i: nat, name: seq<Byte>)
    requires 32 * i + 32 <= |d|
    ensures var e := d[32 * i..32 * i + 32];
      && (Matches(d, i, name) <==> e[0] != 0 && e[11] != 15 && Cut(e[..11]) == name)
      && ClusterOf(d, i) == Le16(e[26], e[27]) && SizeOf(d, i) == Le32(e[28], e[29], e[30], e[31])
  {
    hide Cut;
    var e := d[32 * i..32 * i + 32];
    assert NameOf(d, i) == e[..11];
  }

  lemma DiskParts(disk: int -> Byte, a: int, name: seq<Byte>)
    ensures var e := DiskEntry(disk, a);
      && (EntryAt(disk, a, name) <==> e[0] != 0 && e[11] != 15 && Cut(e[..11]) == name)
      && FieldsAt(disk, a) == Le16(e[26], e[27]) + 0x1_0000_0000 * Le32(e[28], e[29], e[30], e[31])
  {
    DiskName(disk, a, name);
    hide Cut, EntryAt;
  }

  lemma DiskName(disk: int -> Byte, a: int, name: seq<Byte>)
    ensures var e := DiskEntry(disk, a);
      EntryAt(disk, a, name) <==> e[0] != 0 && e[11] != 15 && Cut(e[..11]) == name
  {
    hide Cut;
    var e := DiskEntry(disk, a);
    var s := e[..11];
    CutTo(s, name);
    assert forall j :: 0 <= j < 11 ==> s[j] == disk(a + j);
    assert |s| == 11 && e[0] == disk(a + 0) && e[11] == disk(a + 11);
    hide DiskEntry;
  }

  /** An entry of the directory as it is in memory is the entry at its place on the disk. */
  lemma EntryIs(vol: Volume, dirCluster: nat, name: seq<Byte>, i: nat)
    requires i < Entries(vol, dirCluster)
    ensures Matches(Directory(vol, dirCluster), i, name) <==>
      i < DirCount(vol, dirCluster) && EntryAt(vol.disk, DirStart(vol, dirCluster) + 32 * i, name)
    ensures i < DirCount(vol, dirCluster) ==>
      var d := Directory(vol, dirCluster);
      ClusterOf(d, i) + 0x1_0000_0000 * SizeOf(d, i) == FieldsAt(vol.disk, DirStart(vol, dirCluster) + 32 * i)
  {
    hide Directory, Entries, DirCount, DirStart, Cut, EntryAt, FieldsAt, DiskEntry, ClusterOf, SizeOf;
    if i < DirCount(vol, dirCluster) {
      DirectoryEntry(vol, dirCluster, i);
      EntryParts(Directory(vol, dirCluster), i, name);
      DiskParts(vol.disk, DirStart(vol, dirCluster) + 32 * i, name);
    } else {
      CountsAgree(vol, dirCluster);
      RootTail(vol, i);
    }
  }

  /** What was not read of the root directory is zero. */
  lemma RootTail(vol: Volume, i: nat)
    requires i < Entries(vol, 0) && i >= DirCount(vol, 0)
    ensures Directory(vol, 0)[32 * i] == 0
  {
  }

  lemma CountsAgree(vol: Volume, dirCluster: nat)
    ensures DirCount(vol, dirCluster) <= Entries(vol, dirCluster)
    ensures dirCluster != 0 ==> DirCount(vol, dirCluster) == Entries(vol, dirCluster)
  {
  }

  lemma PackIs(cluster: nat, size: nat)
    requires cluster < 0x1_0000 && size < 0x1_0000_0000
    ensures Pack(cluster, size) == cluster + 0x1_0000_0000 * size
  {
    Pow32();
    OrComm(cluster, size * 0x1_0000_0000);
    ShiftedIsMultiple(size);
    OrDisjoint(32, size * 0x1_0000_0000, cluster);
  }

  /** A lookup answers what the bytes of the disk say. */
  lemma LookupMeaning(vol: Volume, dirCluster: nat, name: seq<Byte>)
    ensures LooksUp(vol, dirCluster, name, LookupWord(vol, dirCluster, name))
  {
    hide Directory, Entries, DirCount, DirStart, Matches, EntryAt, FieldsAt, Pack, ClusterOf, SizeOf;
    var d, n := Directory(vol, dirCluster), Entries(vol, dirCluster);
    var base, m := DirStart(vol, dirCluster), DirCount(vol, dirCluster);
    CountsAgree(vol, dirCluster);
    forall i: nat | i < n
      ensures Matches(d, i, name) <==> i < m && EntryAt(vol.disk, base + 32 * i, name)
      ensures i < m ==> ClusterOf(d, i) + 0x1_0000_0000 * SizeOf(d, i) == FieldsAt(vol.disk, base + 32 * i)
    {
      EntryIs(vol, dirCluster, name, i);
    }
    forall i: nat | FirstAt(vol.disk, base, m, name, i)
      ensures LookupWord(vol, dirCluster, name) == FieldsAt(vol.disk, base + 32 * i)
    {
      FindSkips(d, n, name, 0, i);
      PackIs(ClusterOf(d, i), SizeOf(d, i));
    }
  }

  method ReadDirectory(vol: Volume, dirCluster: nat) returns (dir: array<Byte>)
    ensures fresh(dir) && dir[..] == Directory(vol, dirCluster)
  {
    hide ClusterBase, RawVolume.ClusterSize;
    EntriesFit(vol, dirCluster);
    if dirCluster == 0 {
      dir := new Byte[ENTRY_BYTES * vol.rootEntries](_ => 0);
      for x := 0 to RootRead(vol)
        invariant forall y :: 0 <= y < dir.Length ==> dir[y] == if y < x then DirByte(vol, 0, y) else 0
      {
        dir[x] := vol.disk(SECTOR * vol.rootdirEntry + x);
      }
    } else {
      dir := new Byte[vol.ClusterSize()](_ => 0);
      ReadCluster(vol, dirCluster, dir);
    }
  }

  /** The name of one entry as a C string. */
  method EntryName(dir: array<Byte>, i: nat, entryName: array<Byte>)
    requires entryName.Length == NAME_BYTES + 1 && ENTRY_BYTES * (i + 1) <= dir.Length && dir != entryName
    modifies entryName
    ensures 0 in entryName[..] && CString(entryName[..]) == Cut(NameOf(dir[..], i))
  {
    for j := 0 to NAME_BYTES
      invariant dir[..] == old(dir[..])
      invariant forall k :: 0 <= k < j ==> entryName[k] == SpaceToNul(NameOf(dir[..], i)[k])
    {
      entryName[j] := dir[ENTRY_BYTES * i + j];
      if entryName[j] == SPACE {
        entryName[j] := 0;
      }
    }
    entryName[NAME_BYTES] := 0;
    assert entryName[..][NAME_BYTES] == 0;
    CutIs(entryName[..], NameOf(dir[..], i), 0);
  }

  /** `fat16_find_cluster`: the first entry that is neither empty nor a long-name entry and whose
      eleven bytes cut at the first space equal the name. */
  method FindCluster(vol: Volume, filename: array<Byte>, dirCluster: nat) returns (r: nat)
    requires 0 in filename[..]
    ensures r == LookupWord(vol, dirCluster, CString(filename[..]))
    ensures LooksUp(vol, dirCluster, CString(filename[..]), r)
  {
    hide LooksUp, Directory, Cut, Usable, Pack, RawVolume.ClusterSize, Entries;
    LookupMeaning(vol, dirCluster, CString(filename[..]));
    var dir := ReadDirectory(vol, dirCluster);
    var entries := Entries(vol, dirCluster);
    ghost var d, name := dir[..], CString(filename[..]);
    var i := 0;
    while i < entries
      invariant 0 <= i <= entries && dir[..] == d && filename[..] == old(filename[..])
      invariant forall k: nat :: k < i ==> !Matches(d, k, name)
    {
      if dir[ENTRY_BYTES * i] == 0 || dir[ENTRY_BYTES * i + 11] == LFN {
        NotUsable(d, i);
        i := i + 1;
        continue;
      }
      IsUsable(d, i);
      var entryName := new Byte[NAME_BYTES + 1];
      EntryName(dir, i, entryName);
      var c := Strcmp(filename, entryName);
      if c == 0 {
        FindSkips(d, entries, name, 0, i);
        return Pack(ClusterOf(dir[..], i), SizeOf(dir[..], i));
      }
      i := i + 1;
    }
    FindSkips(d, entries, name, 0, entries);
    return 0;
  }

  lemma NotUsable(d: seq<Byte>, i: nat)
    requires ENTRY_BYTES * (i + 1) <= |d| && (d[ENTRY_BYTES * i] == 0 || d[ENTRY_BYTES * i + 11] == LFN)
    ensures !Usable(d, i)
  {
  }

  lemma IsUsable(d: seq<Byte>, i: nat)
    requires ENTRY_BYTES * (i + 1) <= |d| && d[ENTRY_BYTES * i] != 0 && d[ENTRY_BYTES * i + 11] != LFN
    ensures Usable(d, i)
  {
  }

  // ---- Paths ----

  function FirstSlash(s: seq<Byte>): (k: nat)
    ensures k <= |s| && SLASH !in s[..k] && (k < |s| ==> s[k] == SLASH)
  {
    if s == [] || s[0] == SLASH then 0 else 1 + FirstSlash(s[1..])
  }

  /** The components between slashes. */
  function Split(s: seq<Byte>): (r: seq<seq<Byte>>)
    ensures r != []
    decreases |s|
  {
    var k := FirstSlash(s);
    if k == |s| then [s] else [s[..k]] + Split(s[k + 1..])
  }

  function Join(cs: seq<seq<Byte>>): seq<Byte>
    requires cs != []
  {
    if |cs| == 1 then cs[0] else cs[0] + [SLASH] + Join(cs[1..])
  }

  lemma {:induction false} FirstSlashIs(s: seq<Byte>, k: nat)
    requires k <= |s| && SLASH !in s[..k] && (k < |s| ==> s[k] == SLASH)
    ensures FirstSlash(s) == k
  {
    if k > 0 {
      assert s[0] in s[..k];
      assert s[1..][..k - 1] == s[..k][1..];
      FirstSlashIs(s[1..], k - 1);
    }
  }

  lemma {:induction false} JoinSplit(s: seq<Byte>)
    ensures Join(Split(s)) == s && forall c :: c in Split(s) ==> SLASH !in c
    decreases |s|
  {
    var k := FirstSlash(s);
    if k < |s| {
      JoinSplit(s[k + 1..]);
      assert Split(s)[1..] == Split(s[k + 1..]);
      assert s == s[..k] + [SLASH] + s[k + 1..];
    } else {
      assert s[..k] == s;
    }
  }

  lemma {:induction false} SplitJoin(cs: seq<seq<Byte>>)
    requires cs != [] && forall c :: c in cs ==> SLASH !in c
    ensures Split(Join(cs)) == cs
    decreases |cs|
  {
    hide Split, Join, FirstSlash;
    JoinParts(cs);
    if |cs| == 1 {
      SplitPlain(cs[0]);
    } else {
      SplitAt(Join(cs), |cs[0]|);
      SplitJoin(cs[1..]);
      assert [cs[0]] + cs[1..] == cs;
    }
  }

  lemma JoinParts(cs: seq<seq<Byte>>)
    requires cs != []
    ensures |cs| == 1 ==> Join(cs) == cs[0] && cs == [cs[0]]
    ensures |cs| > 1 ==>
      var s, k := Join(cs), |cs[0]|;
      k < |s| && s[..k] == cs[0] && s[k] == SLASH && s[k + 1..] == Join(cs[1..])
  {
  }

  function Cut11(c: seq<Byte>): seq<Byte> {
    if |c| <= NAME_BYTES then c else c[..NAME_BYTES]
  }

  /** Folds the lookup over the components, each directory found in the one before. */
  function Resolve(vol: Volume, dirCluster: nat, comps: seq<seq<Byte>>): Option<Inode>
    requires comps != []
    decreases |comps|
  {
    if comps == [[]] then None
    else
      var w := LookupWord(vol, dirCluster, Cut11(comps[0]));
      if U16(w) == 0 then None
      else if |comps| == 1 then Some(Inode(U16(w), U32(Shr(w, 32))))
      else Resolve(vol, U16(w), comps[1..])
  }

  function PathByte(path: seq<Byte>, i: nat): Byte {
    if i < |path| then path[i] else 0
  }

  /** Copies the component at i, cut to eleven bytes, and moves i past it. */
  method NextName(path: seq<Byte>, start: nat, filename: array<Byte>) returns (i: nat)
    requires 0 !in path && start <= |path| && filename.Length == NAME_BYTES + 1
    modifies filename
    ensures start <= i <= |path| && SLASH !in path[start..i] && (i < |path| ==> path[i] == SLASH)
    ensures 0 in filename[..] && CString(filename[..]) == Cut11(path[start..i])
  {
    i := start;
    var j := 0;
    while PathByte(path, i) != SLASH && PathByte(path, i) != 0
      invariant start <= i <= |path| && SLASH !in path[start..i]
      invariant j == (if i - start < NAME_BYTES then i - start else NAME_BYTES)
      invariant forall k :: 0 <= k < j ==> filename[k] == path[start + k]
      decreases |path| - i
    {
      if j < NAME_BYTES {
        filename[j] := path[i];
        j := j + 1;
      }
      i := i + 1;
    }
    filename[j] := 0;
    FilenameIs(filename[..], path[start..i], j);
  }

  /** What a path names: an absolute path is resolved component by component from the root. */
  function Named(vol: Volume, path: seq<Byte>): Option<Inode> {
    if path != [] && path[0] == SLASH then Resolve(vol, 0, Split(path[1..])) else None
  }

  /** `fat16_namei`. A NULL result is None; `ialloc` is the constructor. */
  method Namei(vol: Volume, path: seq<Byte>) returns (r: Option<Inode>)
    requires 0 !in path
    ensures r == Named(vol, path)
  {
    hide LookupWord, Cut, RawVolume.ClusterSize, U16, U32, Shr, Resolve, Split, StringFrom, Cut11;
    var filename := new Byte[NAME_BYTES + 1](_ => 0);
    var dirCluster := 0;
    var i := 1;
    if PathByte(path, 0) != SLASH {
      return None;
    }
    while PathByte(path, i) != 0
      invariant 1 <= i <= |path|
      invariant Resolve(vol, 0, Split(path[1..])) == Resolve(vol, dirCluster, Split(path[i..]))
      decreases |path| - i
    {
      ghost var start := i;
      i := NextName(path, i, filename);
      AtComponent(vol, dirCluster, path, start, i);
      var w := FindCluster(vol, filename, dirCluster);
      var cluster := U16(w);
      var size := U32(Shr(w, 32));
      if cluster == 0 {
        return None;
      }
      if PathByte(path, i) == SLASH {
        dirCluster := cluster;
        i := i + 1;
        if PathByte(path, i) == 0 {
          NothingLeft(vol, dirCluster, path, i);
          return None;
        }
      } else if PathByte(path, i) != 0 {
        assert false;
      } else {
        return Some(Inode(cluster, size));
      }
      for k := 0 to NAME_BYTES + 1 {
        filename[k] := 0;
      }
    }
    NothingLeft(vol, dirCluster, path, i);
    return None;
  }

  lemma NothingLeft(vol: Volume, dirCluster: nat, path: seq<Byte>, i: nat)
    requires i <= |path| && 0 !in path && PathByte(path, i) == 0
    ensures Resolve(vol, dirCluster, Split(path[i..])) == None
  {
    hide LookupWord, Cut11;
    assert path[i..] == [];
  }

  lemma AtComponent(vol: Volume, dirCluster: nat, path: seq<Byte>, start: nat, i: nat)
    requires start < |path| && start <= i <= |path| && SLASH !in path[start..i] && 0 !in path
    requires i < |path| ==> path[i] == SLASH
    ensures var w, r := LookupWord(vol, dirCluster, Cut11(path[start..i])),
      Resolve(vol, dirCluster, Split(path[start..]));
      && (U16(w) == 0 ==> r == None)
      && (U16(w) != 0 && i == |path| ==> r == Some(Inode(U16(w), U32(Shr(w, 32)))))
      && (U16(w) != 0 && i < |path| ==> r == Resolve(vol, U16(w), Split(path[i + 1..])))
  {
    hide LookupWord, Cut11, U16, U32, Shr, Split;
    NextComponent(path, start, i);
    if i < |path| {
      assert ([path[start..i]] + Split(path[i + 1..]))[1..] == Split(path[i + 1..]);
    }
  }

  lemma NextComponent(path: seq<Byte>, start: nat, i: nat)
    requires start < |path| && start <= i <= |path| && SLASH !in path[start..i] && 0 !in path
    requires i < |path| ==> path[i] == SLASH
    ensures Split(path[start..]) == if i == |path| then [path[start..i]] else [path[start..i]] + Split(path[i + 1..])
    ensures Split(path[start..]) != [[]]
  {
    var s, k := path[start..], i - start;
    assert s[..k] == path[start..i];
    FirstSlashIs(s, k);
    if i < |path| { assert s[k + 1..] == path[i + 1..]; } else { assert path[start..i] == s; }
  }

  lemma FilenameIs(f: seq<Byte>, comp: seq<Byte>, j: nat)
    requires |f| == 12 && j == (if |comp| < NAME_BYTES then |comp| else NAME_BYTES) && f[j] == 0 && 0 !in comp
    requires forall k :: 0 <= k < j ==> f[k] == comp[k]
    ensures 0 in f && CString(f) == Cut11(comp)
  {
    forall k | 0 <= k < j ensures f[k] != 0 { assert comp[k] in comp; }
    StringIs(f, 0, j);
    assert f[0..j] == Cut11(comp);
  }

  /** A path that ends in a slash resolves to NULL, whatever its components are. */
  lemma {:induction false} TrailingSlash(vol: Volume, dirCluster: nat, comps: seq<seq<Byte>>)
    requires comps != [] && comps[|comps| - 1] == []
    ensures Resolve(vol, dirCluster, comps) == None
    decreases |comps|
  {
    hide LookupWord, Cut11, U16, U32, Shr;
    if |comps| > 1 {
      TrailingSlash(vol, U16(LookupWord(vol, dirCluster, Cut11(comps[0]))), comps[1..]);
    } else {
      assert comps == [[]];
    }
  }

  lemma {:induction false} SplitTrailing(s: seq<Byte>)
    requires s != [] && s[|s| - 1] == SLASH
    ensures Split(s)[|Split(s)| - 1] == []
    decreases |s|
  {
    var k := FirstSlash(s);
    SlashFound(s);
    if k + 1 < |s| {
      SplitTrailing(s[k + 1..]);
    }
  }

  lemma SlashFound(s: seq<Byte>)
    ensures SLASH in s ==> FirstSlash(s) < |s|
  {
    assert FirstSlash(s) == |s| ==> s[..FirstSlash(s)] == s;
  }

  /** The empty path, a relative path, "/" and every path that ends in a slash name nothing. */
  lemma NamesNothing(vol: Volume, path: seq<Byte>)
    requires path == [] || path[0] != SLASH || path[|path| - 1] == SLASH
    ensures Named(vol, path) == None
  {
    hide LookupWord, Resolve;
    if path != [] && path[0] == SLASH {
      var s := path[1..];
      if s != [] { SplitTrailing(s); } else { assert Split(s) == [[]]; }
      TrailingSlash(vol, 0, Split(s));
    }
  }

  lemma SplitAt(s: seq<Byte>, k: nat)
    requires k < |s| && SLASH !in s[..k] && s[k] == SLASH
    ensures Split(s) == [s[..k]] + Split(s[k + 1..])
  {
    hide FirstSlash;
    FirstSlashIs(s, k);
  }

  function Under(s: seq<Byte>, t: seq<Byte>): seq<Byte> {
    s + [SLASH] + t
  }

  lemma UnderSlash(s: seq<Byte>, t: seq<Byte>, k: nat)
    requires k <= |s|
    ensures var u := Under(s, t);
      && |u| == |s| + 1 + |t| && u[..k] == s[..k] && u[k] == (if k < |s| then s[k] else SLASH)
      && u[k + 1..] == if k < |s| then Under(s[k + 1..], t) else t
  {
  }

  lemma SplitOne(s: seq<Byte>)
    requires FirstSlash(s) == |s|
    ensures Split(s) == [s[..|s|]]
  {
    assert s[..|s|] == s;
  }

  lemma {:induction false} SplitConcat(s: seq<Byte>, t: seq<Byte>)
    ensures Split(Under(s, t)) == Split(s) + Split(t)
    decreases |s|
  {
    hide Split, FirstSlash, Under;
    var k, u := FirstSlash(s), Under(s, t);
    UnderSlash(s, t, k);
    SplitAt(u, k);
    if k == |s| {
      SplitOne(s);
    } else {
      SplitAt(s, k);
      SplitConcat(s[k + 1..], t);
      Regroup([s[..k]], Split(s[k + 1..]), Split(t));
    }
  }

  lemma Regroup(a: seq<seq<Byte>>, b: seq<seq<Byte>>, c: seq<seq<Byte>>)
    ensures a + (b + c) == a + b + c
  {
  }

  /** Resolving a prefix of the components first and the rest in the directory it names. */
  lemma {:induction false} ResolveConcat(vol: Volume, dirCluster: nat, a: seq<seq<Byte>>, b: seq<seq<Byte>>)
    requires a != [] && a[|a| - 1] != [] && b != []
    ensures var r := Resolve(vol, dirCluster, a);
      Resolve(vol, dirCluster, a + b) == if r.Some? then Resolve(vol, r.value.id, b) else None
    decreases |a|
  {
    hide LookupWord, Cut11, U16, U32, Shr;
    assert (a + b)[0] == a[0] && (a + b)[1..] == a[1..] + b && a + b != [[]] && a != [[]];
    if |a| > 1 {
      ResolveConcat(vol, U16(LookupWord(vol, dirCluster, Cut11(a[0]))), a[1..], b);
    } else {
      assert a[1..] + b == b;
    }
  }

  lemma {:induction false} SplitLast(s: seq<Byte>)
    requires s != [] && s[|s| - 1] != SLASH
    ensures Split(s)[|Split(s)| - 1] != []
    decreases |s|
  {
    var k := FirstSlash(s);
    if k < |s| {
      SplitLast(s[k + 1..]);
    }
  }

  /** What one component `c` names in a directory, in bytes of the disk: the file of the first entry called
      by the first eleven bytes of `c`, if its cluster is not 0. */
  ghost predicate FileAt(vol: Volume, dirCluster: nat, c: seq<Byte>, r: Option<Inode>) {
    var base, n, name := DirStart(vol, dirCluster), DirCount(vol, dirCluster), if |c| <= 11 then c else c[..11];
    && (forall i: nat :: FirstAt(vol.disk, base, n, name, i) ==>
          var w := FieldsAt(vol.disk, base + 32 * i);
          r == if w % 0x1_0000 == 0 then None else Some(Inode(w % 0x1_0000, w / 0x1_0000_0000)))
    && ((forall i: nat :: i < n ==> !EntryAt(vol.disk, base + 32 * i, name)) ==> r == None)
  }

  lemma OneComponent(vol: Volume, dirCluster: nat, c: seq<Byte>)
    requires c != []
    ensures FileAt(vol, dirCluster, c, Resolve(vol, dirCluster, [c]))
  {
    hide LookupWord, FieldsAt, EntryAt, DirStart, DirCount, Resolve, FirstAt;
    LookupMeaning(vol, dirCluster, Cut11(c));
    OneWord(vol, dirCluster, c);
  }

  lemma OneWord(vol: Volume, dirCluster: nat, c: seq<Byte>)
    requires c != []
    ensures var w := LookupWord(vol, dirCluster, Cut11(c));
      Resolve(vol, dirCluster, [c]) == if w % 0x1_0000 == 0 then None else Some(Inode(w % 0x1_0000, w / 0x1_0000_0000))
  {
    hide LookupWord, Cut11, Shr;
    var w := LookupWord(vol, dirCluster, Cut11(c));
    WordRange(vol, dirCluster, Cut11(c));
    ShrIs(w, 32);
    Pow32();
    UpperHalf(w);
  }

  lemma UpperHalf(w: int)
    requires 0 <= w < WORD_LIMIT
    ensures 0 <= w / 0x1_0000_0000 < 0x1_0000_0000
  {
  }

  lemma WordRange(vol: Volume, dirCluster: nat, name: seq<Byte>)
    ensures 0 <= LookupWord(vol, dirCluster, name) < WORD_LIMIT
  {
    hide Directory, Entries, Pack;
    var d := Directory(vol, dirCluster);
    match Find(d, Entries(vol, dirCluster), name, 0)
    case None =>
    case Some(i) => PackRoundTrip(ClusterOf(d, i), SizeOf(d, i));
  }

  lemma SplitPlain(c: seq<Byte>)
    requires SLASH !in c
    ensures Split(c) == [c]
  {
    assert c[..|c|] == c;
    FirstSlashIs(c, |c|);
  }

  /** "/c" is what `c` names in the root directory. */
  lemma NamedInRoot(vol: Volume, c: seq<Byte>)
    requires c != [] && SLASH !in c
    ensures FileAt(vol, 0, c, Named(vol, [SLASH] + c))
  {
    hide Resolve, Split, FileAt;
    assert ([SLASH] + c)[1..] == c;
    SplitPlain(c);
    OneComponent(vol, 0, c);
  }

  /** `dir/c` is what `c` names in the directory that `dir` names. */
  lemma NamedInside(vol: Volume, dir: seq<Byte>, c: seq<Byte>)
    requires |dir| > 1 && dir[0] == SLASH && dir[|dir| - 1] != SLASH && c != [] && SLASH !in c
    ensures var r := Named(vol, dir);
      if r.Some? then FileAt(vol, r.value.id, c, Named(vol, Under(dir, c))) else Named(vol, Under(dir, c)) == None
  {
    hide Resolve, Split, FileAt, Named;
    NamedBelow(vol, dir, c);
    SplitPlain(c);
    if Named(vol, dir).Some? { OneComponent(vol, Named(vol, dir).value.id, c); }
  }

  /** `dir/rest` is `rest`, resolved in the directory that `dir` names, for every way to cut a path at a
      slash: it names nothing when `dir` names nothing. */
  lemma NamedBelow(vol: Volume, dir: seq<Byte>, rest: seq<Byte>)
    requires |dir| > 1 && dir[0] == SLASH && dir[|dir| - 1] != SLASH
    ensures var r := Named(vol, dir);
      Named(vol, Under(dir, rest)) == if r.Some? then Resolve(vol, r.value.id, Split(rest)) else None
  {
    hide LookupWord, Resolve, Split;
    var s := dir[1..];
    assert Under(dir, rest)[1..] == Under(s, rest);
    SplitConcat(s, rest);
    SplitLast(s);
    ResolveConcat(vol, 0, Split(s), Split(rest));
  }

  /** What a successful lookup answers is the first usable entry of that name, with its own cluster
      and size. */
  lemma LookupFirst(vol: Volume, dirCluster: nat, name: seq<Byte>, i: nat)
    requires i < Entries(vol, dirCluster)
    requires var d := Directory(vol, dirCluster); Matches(d, i, name) && forall k: nat :: k < i ==> !Matches(d, k, name)
    ensures var d, w := Directory(vol, dirCluster), LookupWord(vol, dirCluster, name);
      U16(w) == ClusterOf(d, i) && U32(Shr(w, 32)) == SizeOf(d, i)
  {
    hide Matches, Pack, ClusterOf, SizeOf, U16, U32, Shr, Entries, Directory;
    var d := Directory(vol, dirCluster);
    FindSkips(d, Entries(vol, dirCluster), name, 0, i);
    PackRoundTrip(ClusterOf(d, i), SizeOf(d, i));
  }
}
