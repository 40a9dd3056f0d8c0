/** The abstract state of the physical block allocator: which blocks tile the managed interval and
    which of them are on the three free lists. Everything here is pure; the class in PhysAlloc.dfy
    refines these transitions. */
module Blocks {
  import opened Memory

  const PM_4K := 0x1000
  const PM_512K := 0x8_0000
  const PM_64M := 0x400_0000
  const PIECES := 128

  function Size(k: nat): int {
    if k == 0 then PM_4K else if k == 1 then PM_512K else PM_64M
  }

  /** Where the kernel image keeps its static tables and where it and the memory end. */
  datatype RawLayout = RawLayout(pmmap: int, slabs: int, kernelEnd: int, memTotal: int) {
    predicate Ok() {
      && 0 < pmmap && pmmap % 8 == 0 && pmmap + 24 <= kernelEnd
      && 0 < slabs && slabs % 8 == 0 && slabs + 336 <= kernelEnd
      && (pmmap + 24 <= slabs || slabs + 336 <= pmmap)
      && kernelEnd % PM_4K == 0
      && memTotal <= 0x10_0000_0000_0000
    }
  }

  type Layout = l: RawLayout | l.Ok() witness RawLayout(0x10_0000, 0x10_0100, 0x10_1000, 0x10_1000)

  /** `blocks` maps the start of every block to its level; `free[k]` lists the free ones of level k,
      head first. A block on no free list is in use. `[lo, hi)` is the managed interval. */
  datatype PmState = PmState(lo: int, hi: int, free: seq<seq<int>>, blocks: map<int, nat>)

  ghost predicate IsUsed(g: PmState, b: int) {
    b in g.blocks && g.blocks[b] < |g.free| && b !in g.free[g.blocks[b]]
  }

  ghost predicate Within(blocks: map<int, nat>, lo: int, hi: int) {
    forall b :: b in blocks ==> blocks[b] < 3 && lo <= b && b + Size(blocks[b]) <= hi
  }

  ghost predicate Apart(blocks: map<int, nat>) {
    forall b, c :: b in blocks && c in blocks && b < c ==> b + Size(blocks[b]) <= c
  }

  ghost predicate Owns(blocks: map<int, nat>, b: int, x: int) {
    b in blocks && b <= x < b + Size(blocks[b])
  }

  ghost predicate Covered(blocks: map<int, nat>, x: int) {
    exists b :: Owns(blocks, b, x)
  }

  /** Every address of the interval lies in exactly one block, and no block sticks out. */
  ghost predicate Tiled(blocks: map<int, nat>, lo: int, hi: int) {
    && Within(blocks, lo, hi)
    && Apart(blocks)
    && forall x :: lo <= x < hi ==> Covered(blocks, x)
  }

  /** Blocks of 512K and 64M lie at multiples of 512K below the top. */
  ghost predicate Aligned(g: PmState) {
    forall b :: b in g.blocks ==> b % PM_4K == 0 && (g.blocks[b] >= 1 ==> (g.hi - b) % PM_512K == 0)
  }

  ghost predicate NoDup<T>(s: seq<T>) {
    forall i, j :: 0 <= i < j < |s| ==> s[i] != s[j]
  }

  ghost predicate ListOk(g: PmState, k: nat)
    requires k < |g.free|
  {
    && NoDup(g.free[k])
    && forall b :: b in g.free[k] ==> b in g.blocks && g.blocks[b] == k
  }

  /** What carving establishes and every `pmfree` keeps. */
  ghost predicate PmCore(L: Layout, g: PmState) {
    && |g.free| == 3
    && Tiled(g.blocks, g.lo, g.hi)
    && Aligned(g)
    && ListOk(g, 0) && ListOk(g, 1) && ListOk(g, 2)
    && forall b :: b in g.blocks ==> L.kernelEnd <= b < L.memTotal
  }

  ghost predicate PmInv(L: Layout, g: PmState) {
    PmCore(L, g) && g.hi <= L.memTotal
  }

  // ---- Memory representation: intrusive lists threaded through the free blocks ----

  /** Following the links from `head` visits exactly `s` and ends in NULL. */
  ghost predicate Chain(m: Mem, head: int, s: seq<int>)
    decreases |s|
  {
    if s == [] then head == 0
    else head == s[0] && head != 0 && Chain(m, At(m, head), s[1..])
  }

  ghost predicate PmRep(L: Layout, m: Mem, g: PmState) {
    && |g.free| == 3
    && Chain(m, At(m, L.pmmap), g.free[0])
    && Chain(m, At(m, L.pmmap + 8), g.free[1])
    && Chain(m, At(m, L.pmmap + 16), g.free[2])
  }

  /** An allocator step leaves alone the blocks in use and all kernel data but `pmmap`. */
  ghost predicate PmFrame(L: Layout, g: PmState, m: Mem, m': Mem) {
    && (forall b, x :: IsUsed(g, b) && b <= x < b + Size(g.blocks[b]) ==> At(m', x) == At(m, x))
    && (forall x :: x < L.kernelEnd && !(L.pmmap <= x < L.pmmap + 24) ==> At(m', x) == At(m, x))
  }

  /** Two steps in a row leave alone what stays in use throughout. */
  lemma FrameTrans(L: Layout, g1: PmState, g2: PmState, g3: PmState, m1: Mem, m2: Mem, m3: Mem)
    requires PmFrame(L, g1, m1, m2) && PmFrame(L, g2, m2, m3)
    requires forall c :: IsUsed(g3, c) ==> IsUsed(g1, c) && g1.blocks[c] == g3.blocks[c]
    requires forall c :: IsUsed(g3, c) ==> IsUsed(g2, c) && g2.blocks[c] == g3.blocks[c]
    ensures PmFrame(L, g3, m1, m3)
  {
  }

  lemma {:induction false} ChainFrame(m: Mem, m': Mem, head: int, s: seq<int>)
    requires Chain(m, head, s)
    requires forall b :: b in s ==> At(m', b) == At(m, b)
    ensures Chain(m', head, s)
    decreases |s|
  {
    if s != [] { ChainFrame(m, m', At(m, head), s[1..]); }
  }

  /** A list that ends in NULL cannot revisit a block. */
  lemma {:induction false} ChainUnique(m: Mem, head: int, s: seq<int>, t: seq<int>)
    requires Chain(m, head, s) && Chain(m, head, t)
    ensures s == t
    decreases |s|
  {
    if s != [] { ChainUnique(m, At(m, head), s[1..], t[1..]); }
  }

  // ---- Transitions ----

  ghost function Pop(g: PmState, k: nat): PmState
    requires k < |g.free| && g.free[k] != []
  {
    g.(free := g.free[k := g.free[k][1..]])
  }

  ghost function Push(g: PmState, k: nat, b: int): PmState
    requires k < |g.free|
  {
    g.(free := g.free[k := [b] + g.free[k]])
  }

  ghost predicate IsPiece(b: int, k: nat, x: int) {
    b <= x < b + Size(k + 1) && (x - b) % Size(k) == 0
  }

  ghost function PieceSet(b: int, k: nat): set<int> {
    set x | b <= x < b + Size(k + 1) && IsPiece(b, k, x)
  }

  /** The pieces of block `b`, lowest address first. */
  ghost function Pieces(b: int, k: nat): seq<int> {
    seq(PIECES, i => b + i * Size(k))
  }

  ghost function SplitMap(blocks: map<int, nat>, b: int, k: nat): map<int, nat> {
    map x | x in (blocks.Keys - {b}) + PieceSet(b, k) :: if x in PieceSet(b, k) then k else blocks[x]
  }

  /** Block `b` of level k + 1 becomes 128 blocks of level k, all in use. */
  ghost function Split(g: PmState, b: int, k: nat): PmState {
    g.(blocks := SplitMap(g.blocks, b, k))
  }

  /** Makes free list `k` non-empty if any block of that size or larger is free. */
  ghost function Refill(g: PmState, k: nat): (r: PmState)
    requires |g.free| == 3 && k < 3
    ensures |r.free| == 3
    decreases 3 - k
  {
    if g.free[k] != [] || k == 2 then g
    else
      var up := Refill(g, k + 1);
      if up.free[k + 1] == [] then g
      else
        var s := Split(Pop(up, k + 1), up.free[k + 1][0], k);
        s.(free := s.free[k := Pieces(up.free[k + 1][0], k)])
  }

  ghost predicate CanAlloc(g: PmState, k: nat)
    requires |g.free| == 3 && k < 3
  {
    Refill(g, k).free[k] != []
  }

  ghost function AllocAddr(g: PmState, k: nat): int
    requires |g.free| == 3 && k < 3 && CanAlloc(g, k)
  {
    Refill(g, k).free[k][0]
  }

  ghost function Alloc(g: PmState, k: nat): PmState
    requires |g.free| == 3 && k < 3 && CanAlloc(g, k)
  {
    Pop(Refill(g, k), k)
  }

  // ---- Invariant preservation ----

  lemma PushInv(L: Layout, g: PmState, k: nat, b: int)
    requires PmCore(L, g) && k < 3 && IsUsed(g, b) && g.blocks[b] == k
    ensures PmCore(L, Push(g, k, b))
    ensures forall c :: IsUsed(Push(g, k, b), c) <==> IsUsed(g, c) && c != b
  {
  }

  lemma PopInv(L: Layout, g: PmState, k: nat)
    requires PmCore(L, g) && k < 3 && g.free[k] != []
    ensures PmCore(L, Pop(g, k))
    ensures var b := g.free[k][0];
      b in g.blocks && g.blocks[b] == k && forall c :: IsUsed(Pop(g, k), c) <==> IsUsed(g, c) || c == b
  {
  }

  lemma PieceFacts(b: int, k: nat, i: nat)
    requires k < 2 && i < PIECES
    ensures IsPiece(b, k, b + i * Size(k)) && b + i * Size(k) + Size(k) <= b + Size(k + 1)
    ensures b + i * Size(k) in PieceSet(b, k)
  {
    if k == 0 {
      assert (i * PM_4K) % PM_4K == 0;
    } else {
      assert (i * PM_512K) % PM_512K == 0;
    }
  }

  lemma PieceIndex(b: int, k: nat, x: int) returns (i: nat)
    requires k < 2 && IsPiece(b, k, x)
    ensures i < PIECES && x == b + i * Size(k) && x == Pieces(b, k)[i]
    ensures x + Size(k) <= b + Size(k + 1)
  {
    if k == 0 { i := (x - b) / PM_4K; } else { i := (x - b) / PM_512K; }
  }

  /** After the split, an entry is a piece inside `b` or an untouched block outside `b`. */
  lemma SplitEntry(g: PmState, b: int, k: nat, c: int)
    requires k < 2 && b in g.blocks && g.blocks[b] == k + 1 && Apart(g.blocks)
    requires c in SplitMap(g.blocks, b, k)
    ensures var s := SplitMap(g.blocks, b, k);
      if IsPiece(b, k, c) then s[c] == k && b <= c && c + Size(k) <= b + Size(k + 1)
      else c != b && c in g.blocks && s[c] == g.blocks[c] && (c + Size(s[c]) <= b || b + Size(k + 1) <= c)
  {
    if IsPiece(b, k, c) {
      var _ := PieceIndex(b, k, c);
    } else {
      assert c in g.blocks && c != b;
      assert c < b || b < c;
    }
  }

  lemma PiecesApart(b: int, k: nat, c: int, d: int)
    requires k < 2 && IsPiece(b, k, c) && IsPiece(b, k, d) && c < d
    ensures c + Size(k) <= d
  {
  }

  lemma SplitApart(g: PmState, b: int, k: nat)
    requires k < 2 && b in g.blocks && g.blocks[b] == k + 1 && Apart(g.blocks)
    ensures Apart(SplitMap(g.blocks, b, k))
  {
    var s := SplitMap(g.blocks, b, k);
    forall c, d | c in s && d in s && c < d ensures c + Size(s[c]) <= d {
      SplitEntry(g, b, k, c);
      SplitEntry(g, b, k, d);
      if IsPiece(b, k, c) {
        if IsPiece(b, k, d) { PiecesApart(b, k, c, d); }
      } else if !IsPiece(b, k, d) {
        assert g.blocks[c] == s[c];
      }
    }
  }

  /** The piece that holds an address of the block. */
  lemma PieceAt(b: int, k: nat, x: int) returns (p: int)
    requires k < 2 && b <= x < b + Size(k + 1)
    ensures IsPiece(b, k, p) && p <= x < p + Size(k)
  {
    var i := if k == 0 then (x - b) / PM_4K else (x - b) / PM_512K;
    p := b + i * Size(k);
    if k == 0 { Multiples4K(i); } else { Multiples512K(i); }
  }

  lemma Multiples4K(i: int)
    ensures (i * PM_4K) % PM_4K == 0
  {
  }

  lemma Multiples512K(i: int)
    ensures (i * PM_512K) % PM_512K == 0 && (i * PM_512K) % PM_4K == 0
  {
    assert i * PM_512K == (128 * i) * PM_4K;
    Multiples4K(128 * i);
  }

  lemma SplitCovered(g: PmState, b: int, k: nat, x: int)
    requires k < 2 && b in g.blocks && g.blocks[b] == k + 1 && Apart(g.blocks)
    requires Covered(g.blocks, x)
    ensures Covered(SplitMap(g.blocks, b, k), x)
  {
    var s := SplitMap(g.blocks, b, k);
    var o :| Owns(g.blocks, o, x);
    if o == b {
      var p := PieceAt(b, k, x);
      assert p in PieceSet(b, k);
      assert Owns(s, p, x);
    } else {
      assert !IsPiece(b, k, o) by { assert o < b || b < o; }
      assert Owns(s, o, x);
    }
  }

  lemma SplitTiled(g: PmState, b: int, k: nat)
    requires k < 2 && b in g.blocks && g.blocks[b] == k + 1
    requires Tiled(g.blocks, g.lo, g.hi)
    ensures Tiled(SplitMap(g.blocks, b, k), g.lo, g.hi)
  {
    var s := SplitMap(g.blocks, b, k);
    SplitApart(g, b, k);
    forall c | c in s ensures s[c] < 3 && g.lo <= c && c + Size(s[c]) <= g.hi {
      SplitEntry(g, b, k, c);
    }
    forall x | g.lo <= x < g.hi ensures Covered(s, x) {
      SplitCovered(g, b, k, x);
    }
  }

  lemma SplitAligned(g: PmState, b: int, k: nat)
    requires k < 2 && b in g.blocks && g.blocks[b] == k + 1 && Apart(g.blocks) && Aligned(g)
    ensures Aligned(Split(g, b, k))
  {
    var s := SplitMap(g.blocks, b, k);
    forall c | c in s ensures c % PM_4K == 0 && (s[c] >= 1 ==> (g.hi - c) % PM_512K == 0) {
      SplitEntry(g, b, k, c);
      assert b % PM_4K == 0 && (g.hi - b) % PM_512K == 0;
      if IsPiece(b, k, c) { PieceAligned(g.hi, b, k, c); }
    }
  }

  lemma PieceAligned(hi: int, b: int, k: nat, c: int)
    requires k < 2 && IsPiece(b, k, c)
    requires b % PM_4K == 0 && (hi - b) % PM_512K == 0
    ensures c % PM_4K == 0 && (k >= 1 ==> (hi - c) % PM_512K == 0)
  {
    var i := PieceIndex(b, k, c);
    if k == 0 {
      MultipleOffset(b, i);
    } else {
      MultipleOffset(b, 128 * i);
      LargeOffset(hi - b, i);
    }
  }

  lemma LargeOffset(b: int, q: int)
    requires b % 524288 == 0
    ensures (b + 524288 * q) % 524288 == 0 && (b - 524288 * q) % 524288 == 0
  {
  }

  lemma MultipleOffset(b: int, q: int)
    requires b % 4096 == 0
    ensures (b + 4096 * q) % 4096 == 0
  {
  }

  /** Splitting a block in use leaves its 128 pieces in use and every other block as it was. */
  lemma SplitInv(L: Layout, g: PmState, b: int, k: nat)
    requires PmInv(L, g) && k < 2 && IsUsed(g, b) && g.blocks[b] == k + 1
    ensures PmInv(L, Split(g, b, k))
    ensures forall c :: IsUsed(Split(g, b, k), c) <==> (IsUsed(g, c) && c != b) || IsPiece(b, k, c)
    ensures forall c :: IsPiece(b, k, c) ==> Split(g, b, k).blocks[c] == k
    ensures forall c :: c != b && IsUsed(g, c) ==> Split(g, b, k).blocks[c] == g.blocks[c]
  {
    var s := Split(g, b, k);
    SplitTiled(g, b, k);
    SplitAligned(g, b, k);
    forall c | c in s.blocks ensures L.kernelEnd <= c < L.memTotal {
      SplitEntry(g, b, k, c);
      assert Within(s.blocks, s.lo, s.hi);
    }
    forall c | c in g.blocks && c != b ensures !IsPiece(b, k, c) && c in s.blocks {
      assert c < b || b < c;
    }
    assert ListOk(s, 0) && ListOk(s, 1) && ListOk(s, 2);
    forall c | IsPiece(b, k, c) ensures IsUsed(s, c) {
      assert c in PieceSet(b, k);
      assert c !in g.free[k];
    }
  }

  lemma PageMultiple(b: int)
    requires b % PM_4K == 0
    ensures b % 8 == 0 && b % 64 == 0
  {
    var q := b / 4096;
    Multiples(512 * q, 64 * q);
    assert b == 8 * (512 * q) && b == 64 * (64 * q);
  }

  lemma Multiples(x: int, y: int)
    ensures (8 * x) % 8 == 0 && (64 * y) % 64 == 0
  {
  }

  /** The pieces of a split block, all freed onto the empty list, lowest first. */
  lemma FillInv(L: Layout, g: PmState, b: int, k: nat)
    requires PmInv(L, g) && k < 2 && g.free[k] == []
    requires forall c :: IsPiece(b, k, c) ==> IsUsed(g, c) && g.blocks[c] == k
    ensures var r := g.(free := g.free[k := Pieces(b, k)]);
      PmInv(L, r) && forall c :: IsUsed(r, c) <==> IsUsed(g, c) && !IsPiece(b, k, c)
  {
    hide IsPiece, Tiled, Pieces;
    var r := g.(free := g.free[k := Pieces(b, k)]);
    ArePieces(b, k);
    assert ListOk(r, k);
  }

  lemma ArePieces(b: int, k: nat)
    requires k < 2
    ensures NoDup(Pieces(b, k)) && forall c :: c in Pieces(b, k) <==> IsPiece(b, k, c)
  {
    var s := Pieces(b, k);
    forall i: nat | i < PIECES ensures IsPiece(b, k, s[i]) {
      PieceFacts(b, k, i);
    }
    forall c | IsPiece(b, k, c) ensures c in s {
      var i := PieceIndex(b, k, c);
      assert c == s[i];
    }
  }

  /** Refilling a list keeps the tiling and changes no block in use. */
  lemma {:induction false} RefillInv(L: Layout, g: PmState, k: nat)
    requires PmInv(L, g) && k < 3
    ensures PmInv(L, Refill(g, k))
    ensures var r := Refill(g, k); r.lo == g.lo && r.hi == g.hi
    ensures forall c :: IsUsed(Refill(g, k), c) <==> IsUsed(g, c)
    ensures forall c :: IsUsed(g, c) ==> Refill(g, k).blocks[c] == g.blocks[c]
    ensures forall j :: 0 <= j < k ==> Refill(g, k).free[j] == g.free[j]
    decreases 3 - k
  {
    hide PmInv, IsUsed, Split, Pieces;
    FreeLen(L, g);
    if g.free[k] == [] && k < 2 {
      RefillInv(L, g, k + 1);
      if Refill(g, k + 1).free[k + 1] != [] { RefillOnce(L, Refill(g, k + 1), k); }
    }
  }

  lemma FreeLen(L: Layout, g: PmState)
    requires PmInv(L, g)
    ensures |g.free| == 3
  {
  }

  /** Taking the head of a larger list and freeing its pieces onto the empty one. */
  lemma RefillOnce(L: Layout, g: PmState, k: nat)
    requires PmInv(L, g) && |g.free| == 3 && k < 2 && g.free[k] == [] && g.free[k + 1] != []
    ensures var b := g.free[k + 1][0];
      var s := Split(Pop(g, k + 1), b, k);
      var r := s.(free := s.free[k := Pieces(b, k)]);
      && PmInv(L, r) && r.lo == g.lo && r.hi == g.hi && |r.free| == 3
      && (forall c :: IsUsed(r, c) <==> IsUsed(g, c)) && (forall c :: IsUsed(g, c) ==> r.blocks[c] == g.blocks[c])
      && forall j :: 0 <= j < k ==> r.free[j] == g.free[j]
  {
    var b, p := g.free[k + 1][0], Pop(g, k + 1);
    PopInv(L, g, k + 1);
    SplitInv(L, p, b, k);
    FillInv(L, Split(p, b, k), b, k);
    HeadNotUsed(L, g, k + 1);
    forall c | IsUsed(g, c) ensures !IsPiece(b, k, c) { UsedOutside(L, g, b, k, c); }
    hide IsUsed, IsPiece, Tiled, Aligned, ListOk;
  }

  lemma HeadNotUsed(L: Layout, g: PmState, k: nat)
    requires PmCore(L, g) && k < 3 && g.free[k] != []
    ensures !IsUsed(g, g.free[k][0])
  {
  }

  lemma UsedOutside(L: Layout, g: PmState, b: int, k: nat, c: int)
    requires PmCore(L, g) && k < 2 && b in g.blocks && g.blocks[b] == k + 1 && IsUsed(g, c) && !IsUsed(g, b)
    ensures !IsPiece(b, k, c)
  {
    assert c < b || b < c;
  }

  /** `pmalloc` hands out exactly one more block, of the level asked for, that was not in use. */
  lemma AllocInv(L: Layout, g: PmState, k: nat)
    requires PmInv(L, g) && k < 3 && CanAlloc(g, k)
    ensures var r, a := Alloc(g, k), AllocAddr(g, k);
      && PmInv(L, r) && r.lo == g.lo && r.hi == g.hi
      && a in r.blocks && r.blocks[a] == k && !IsUsed(g, a)
      && (forall c :: IsUsed(r, c) <==> IsUsed(g, c) || c == a)
      && (forall c :: IsUsed(g, c) ==> r.blocks[c] == g.blocks[c])
  {
    RefillInv(L, g, k);
    PopInv(L, Refill(g, k), k);
  }

  /** There is a block to hand out exactly when some list of that size or larger is not empty. */
  lemma {:induction false} CanAllocIff(g: PmState, k: nat)
    requires |g.free| == 3 && k < 3
    ensures CanAlloc(g, k) <==> exists j :: k <= j < 3 && g.free[j] != []
    decreases 3 - k
  {
    if g.free[k] == [] && k < 2 {
      CanAllocIff(g, k + 1);
    }
  }

  /** When the list is empty the 128 pieces are served lowest address first. */
  lemma SplitOrder(g: PmState, k: nat)
    requires |g.free| == 3 && k < 2 && g.free[k] == [] && CanAlloc(g, k + 1)
    ensures CanAlloc(g, k) && AllocAddr(g, k) == AllocAddr(g, k + 1)
    ensures Alloc(g, k).free[k] == seq(PIECES - 1, i => AllocAddr(g, k + 1) + (i + 1) * Size(k))
  {
  }

  // ---- Blocks in use ----

  lemma BlocksApart(L: Layout, g: PmState, b: int, c: int)
    requires PmCore(L, g) && IsUsed(g, b) && IsUsed(g, c) && b != c
    ensures b + Size(g.blocks[b]) <= c || c + Size(g.blocks[c]) <= b
  {
    hide Aligned, ListOk, Covered;
    assert b < c || c < b;
  }

  lemma UsedAbove(L: Layout, g: PmState, b: int)
    requires PmCore(L, g) && IsUsed(g, b)
    ensures L.kernelEnd <= b
  {
    hide Tiled, Aligned, ListOk;
  }

  // ---- Writes by the holders of blocks ----

  lemma LowWritePm(L: Layout, g: PmState, m: Mem, x: int, v: int)
    requires PmCore(L, g) && PmRep(L, m, g) && x < L.kernelEnd && !(L.pmmap <= x < L.pmmap + 24)
    ensures PmRep(L, Put(m, x, v), g)
  {
    forall j | 0 <= j < 3 ensures Chain(Put(m, x, v), At(m, L.pmmap + 8 * j), g.free[j]) {
      assert ListOk(g, j);
      ChainFrame(m, Put(m, x, v), At(m, L.pmmap + 8 * j), g.free[j]);
    }
  }

  /** Whatever is written inside a block in use, the free lists in memory stay the same. */
  lemma UsedWritePm(L: Layout, g: PmState, m: Mem, m': Mem, b: int)
    requires PmCore(L, g) && PmRep(L, m, g) && IsUsed(g, b)
    requires forall x :: !(b <= x < b + Size(g.blocks[b])) ==> At(m', x) == At(m, x)
    ensures PmRep(L, m', g)
  {
    forall j | 0 <= j < 3 ensures Chain(m', At(m, L.pmmap + 8 * j), g.free[j]) {
      assert ListOk(g, j);
      forall c | c in g.free[j] ensures At(m', c) == At(m, c) {
        assert c in g.blocks && c != b;
        assert c < b || b < c;
      }
      ChainFrame(m, m', At(m, L.pmmap + 8 * j), g.free[j]);
    }
  }
}
