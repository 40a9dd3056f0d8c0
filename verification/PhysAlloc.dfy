/** The physical block allocator of mm/pm.c and the carving loops of arch/x86/pm.c. */
module PhysAlloc {
  import opened Memory
  import opened Blocks
  import opened Bits

  function SizeToIdx(size: int): (r: Outcome<nat>)
    ensures r.Done? ==> r.value < 3 && Size(r.value) == size
    ensures r.Panic? ==> forall k: nat :: size != Size(k)
  {
    if size == PM_4K then Done(0)
    else if size == PM_512K then Done(1)
    else if size == PM_64M then Done(2)
    else Panic
  }

  ghost function HeadCell(L: Layout, k: nat): int {
    L.pmmap + 8 * k
  }

  /** `pmfree` as it changes memory: link the block, then make it the head. */
  ghost function PushMem(L: Layout, m: Mem, k: nat, b: int): Mem {
    Put(Put(m, b, At(m, HeadCell(L, k))), HeadCell(L, k), b)
  }

  lemma HeadIsWord(L: Layout, m: Mem, g: PmState, k: nat)
    requires PmCore(L, g) && PmRep(L, m, g) && k < 3
    ensures |g.free| == 3 && HeadCell(L, k) % 8 == 0
    ensures 0 <= At(m, HeadCell(L, k)) < 0x10_0000_0000_0000
    ensures g.free[k] == [] <==> At(m, HeadCell(L, k)) == 0
    ensures g.free[k] != [] ==>
      At(m, HeadCell(L, k)) == g.free[k][0] && g.free[k][0] % 8 == 0 && 0 <= At(m, g.free[k][0]) < 0x10_0000_0000_0000
  {
    var head, f := At(m, HeadCell(L, k)), g.free[k];
    assert Chain(m, head, f) && ListOk(g, k);
    if f != [] {
      var next := At(m, head);
      assert f[0] in f && f[0] in g.blocks;
      PageMultiple(f[0]);
      assert Chain(m, next, f[1..]);
      if |f| > 1 { assert next == f[1] && f[1] in f && f[1] in g.blocks; }
    }
  }

  lemma UsedAligned(L: Layout, g: PmState, b: int)
    requires PmCore(L, g) && IsUsed(g, b)
    ensures b % 8 == 0 && b % PM_4K == 0 && L.kernelEnd <= b && b + Size(g.blocks[b]) <= g.hi
  {
    assert g.blocks[b] < 3;
    PageMultiple(b);
  }

  lemma FreeAligned(L: Layout, g: PmState, k: nat, b: int)
    requires PmCore(L, g) && k < 3 && b in g.free[k]
    ensures b % 8 == 0
  {
    assert ListOk(g, k);
    PageMultiple(b);
  }

  lemma RepSameFree(L: Layout, m: Mem, g: PmState, g': PmState)
    requires PmRep(L, m, g) && g'.free == g.free
    ensures PmRep(L, m, g')
  {
  }

  lemma FrameRefl(L: Layout, g: PmState, m: Mem)
    ensures PmFrame(L, g, m, m)
  {
  }

  lemma PushFrame(L: Layout, m: Mem, g: PmState, k: nat, b: int)
    requires PmCore(L, g) && k < 3 && IsUsed(g, b) && g.blocks[b] == k
    ensures PmFrame(L, Push(g, k, b), m, PushMem(L, m, k, b))
  {
    PushInv(L, g, k, b);
    forall c, x | IsUsed(g, c) && c != b && c <= x < c + Size(g.blocks[c])
      ensures At(PushMem(L, m, k, b), x) == At(m, x)
    {
      assert c < b || b < c;
    }
  }

  lemma PushRep(L: Layout, m: Mem, g: PmState, k: nat, b: int)
    requires PmCore(L, g) && PmRep(L, m, g) && k < 3 && IsUsed(g, b) && g.blocks[b] == k
    ensures PmRep(L, PushMem(L, m, k, b), Push(g, k, b))
  {
    var m', g' := PushMem(L, m, k, b), Push(g, k, b);
    forall j | 0 <= j < 3 ensures Chain(m', At(m, HeadCell(L, j)), g.free[j]) {
      assert ListOk(g, j);
      ChainFrame(m, m', At(m, HeadCell(L, j)), g.free[j]);
    }
    assert g'.free[k][1..] == g.free[k];
  }

  /** The memory after `pmalloc` has unlinked and zeroed the head of list `k`. */
  ghost predicate Popped(L: Layout, m: Mem, m': Mem, k: nat, b: int) {
    forall x :: At(m', x) ==
      if b <= x < b + Size(k) then 0 else if x == HeadCell(L, k) then At(m, b) else At(m, x)
  }

  lemma PopFrame(L: Layout, m: Mem, m': Mem, g: PmState, k: nat)
    requires PmCore(L, g) && k < 3 && g.free[k] != [] && Popped(L, m, m', k, g.free[k][0])
    ensures PmFrame(L, g, m, m') && ZeroRange(m', g.free[k][0], Size(k))
  {
    var b := g.free[k][0];
    assert ListOk(g, k) && b in g.free[k];
    forall c, x | IsUsed(g, c) && c <= x < c + Size(g.blocks[c]) ensures At(m', x) == At(m, x) {
      assert c < b || b < c;
    }
  }

  lemma PopRep(L: Layout, m: Mem, m': Mem, g: PmState, k: nat)
    requires PmCore(L, g) && PmRep(L, m, g) && k < 3 && g.free[k] != [] && Popped(L, m, m', k, g.free[k][0])
    ensures PmRep(L, m', Pop(g, k))
  {
    var b, g' := g.free[k][0], Pop(g, k);
    assert ListOk(g, k) && b in g.free[k];
    forall j, c | 0 <= j < 3 && c in g'.free[j] ensures At(m', c) == At(m, c) {
      PopApart(L, g, k, j, c);
    }
    forall j | 0 <= j < 3 ensures Chain(m', At(m', HeadCell(L, j)), g'.free[j]) {
      assert Chain(m, At(m, HeadCell(L, j)), g.free[j]);
      ChainFrame(m, m', At(m', HeadCell(L, j)), g'.free[j]);
    }
  }

  lemma PopApart(L: Layout, g: PmState, k: nat, j: nat, c: int)
    requires PmCore(L, g) && k < 3 && g.free[k] != [] && j < 3 && c in Pop(g, k).free[j]
    ensures var b := g.free[k][0]; c >= L.kernelEnd && (c < b || b + Size(k) <= c)
  {
    var b := g.free[k][0];
    assert ListOk(g, k) && ListOk(g, j) && b in g.free[k];
    assert c in g.free[j];
    assert c != b;
  }

  /** Half-way through freeing the pieces of `big`: the i highest ones are on the free list. */
  ghost function PartlyFreed(s: PmState, big: int, k: nat, i: nat): PmState
    requires k < |s.free| && i <= PIECES
  {
    s.(free := s.free[k := Pieces(big, k)[PIECES - i..]])
  }

  lemma PartlyFreedStep(L: Layout, s: PmState, big: int, k: nat, i: nat)
    requires PmInv(L, s) && k < 2 && i < PIECES && s.free[k] == []
    requires forall c :: IsPiece(big, k, c) ==> IsUsed(s, c) && s.blocks[c] == k
    ensures var g, a := PartlyFreed(s, big, k, i), big + (PIECES - 1 - i) * Size(k);
      && IsUsed(g, a) && g.blocks[a] == k && L.kernelEnd <= a < L.memTotal
      && PartlyFreed(s, big, k, i + 1) == Push(g, k, a)
  {
    hide PmInv, IsPiece, Pieces;
    var a := big + (PIECES - 1 - i) * Size(k);
    PieceFacts(big, k, PIECES - 1 - i);
    NextPiece(big, k, i);
    UsedWithin(L, s, a);
  }

  lemma UsedWithin(L: Layout, g: PmState, a: int)
    requires PmInv(L, g) && IsUsed(g, a)
    ensures |g.free| == 3 && L.kernelEnd <= a < L.memTotal
  {
    hide Tiled, Aligned, ListOk;
  }

  lemma NextPiece(big: int, k: nat, i: nat)
    requires k < 2 && i < PIECES
    ensures var s, a := Pieces(big, k), big + (PIECES - 1 - i) * Size(k);
      a !in s[PIECES - i..] && s[PIECES - i - 1..] == [a] + s[PIECES - i..]
  {
    var s := Pieces(big, k);
    assert s[PIECES - 1 - i] == big + (PIECES - 1 - i) * Size(k);
    forall j | PIECES - i <= j < PIECES ensures s[j] != s[PIECES - 1 - i] {
      PieceOrder(big, k, PIECES - 1 - i, j);
    }
  }

  lemma PieceOrder(big: int, k: nat, i: nat, j: nat)
    requires k < 2 && i < j < PIECES
    ensures big + i * Size(k) < big + j * Size(k)
  {
  }

  /** Taking a larger block and freeing its pieces refills the list. */
  lemma RefillStep(L: Layout, g: PmState, k: nat)
    requires PmInv(L, g) && k < 2 && g.free[k] == []
    ensures CanAlloc(g, k) <==> CanAlloc(g, k + 1)
    ensures CanAlloc(g, k + 1) ==> var b, p := AllocAddr(g, k + 1), Alloc(g, k + 1);
      && PmInv(L, p) && |p.free| == 3 && p.free[k] == []
      && IsUsed(p, b) && p.blocks[b] == k + 1
      && Refill(g, k) == PartlyFreed(Split(p, b, k), b, k, PIECES)
      && PmInv(L, Refill(g, k))
      && (forall c :: IsUsed(g, c) ==> IsUsed(p, c) && p.blocks[c] == g.blocks[c])
      && (forall c :: IsUsed(g, c) <==> IsUsed(Refill(g, k), c))
      && (forall c :: IsUsed(g, c) ==> Refill(g, k).blocks[c] == g.blocks[c])
  {
    RefillInv(L, g, k);
    RefillInv(L, g, k + 1);
    if CanAlloc(g, k + 1) {
      AllocInv(L, g, k + 1);
      var b := AllocAddr(g, k + 1);
      assert Pieces(b, k)[0..] == Pieces(b, k);
    }
  }

  /** Carving: a new block in use just below the part of memory already tiled. */
  ghost function Extend(g: PmState, k: nat): PmState {
    PmState(g.lo - Size(k), g.hi, g.free, g.blocks[g.lo - Size(k) := k])
  }

  ghost predicate AllFree(g: PmState) {
    forall b :: !IsUsed(g, b)
  }

  lemma ExtendInv(L: Layout, g: PmState, k: nat)
    requires PmCore(L, g) && k < 3
    requires L.kernelEnd <= g.lo - Size(k) < L.memTotal && g.lo <= g.hi
    requires g.lo % PM_4K == 0 && (k >= 1 ==> (g.hi - g.lo) % PM_512K == 0)
    ensures PmCore(L, Extend(g, k))
    ensures var b := g.lo - Size(k);
      IsUsed(Extend(g, k), b) && forall c :: c != b ==> (IsUsed(Extend(g, k), c) <==> IsUsed(g, c))
  {
    LowerAligned(g.lo, g.hi, k);
    ExtendTiled(g, k);
    ExtendLists(L, g, k);
    hide Tiled, ListOk;
  }

  lemma ExtendTiled(g: PmState, k: nat)
    requires Tiled(g.blocks, g.lo, g.hi) && k < 3 && g.lo <= g.hi
    ensures var e := Extend(g, k); Tiled(e.blocks, e.lo, e.hi)
  {
    var e := Extend(g, k);
    forall x | e.lo <= x < e.hi ensures Covered(e.blocks, x) {
      if x < g.lo {
        assert Owns(e.blocks, e.lo, x);
      } else {
        assert Covered(g.blocks, x);
        var o :| Owns(g.blocks, o, x);
        assert Owns(e.blocks, o, x);
      }
    }
  }

  lemma ExtendLists(L: Layout, g: PmState, k: nat)
    requires PmCore(L, g) && k < 3
    ensures var e := Extend(g, k); e.lo !in g.blocks && ListOk(e, 0) && ListOk(e, 1) && ListOk(e, 2)
    ensures forall j :: 0 <= j < 3 ==> g.lo - Size(k) !in g.free[j]
  {
    hide Covered;
    var b := g.lo - Size(k);
    assert b !in g.blocks;
    assert ListOk(g, 0) && ListOk(g, 1) && ListOk(g, 2);
  }

  lemma LowerAligned(lo: int, hi: int, k: nat)
    requires k < 3 && lo % PM_4K == 0 && (k >= 1 ==> (hi - lo) % PM_512K == 0)
    ensures (lo - Size(k)) % PM_4K == 0
    ensures k >= 1 ==> (hi - (lo - Size(k))) % PM_512K == 0
  {
    if k == 1 {
      MultipleOffset(lo, -128);
      LargeOffset(hi - lo, 1);
    } else if k == 2 {
      MultipleOffset(lo, -16384);
      LargeOffset(hi - lo, 128);
    }
  }

  lemma NothingCarved(L: Layout, m: Mem, g: PmState)
    requires g.lo == g.hi && g.free == [[], [], []] && g.blocks == map[]
    requires At(m, L.pmmap) == At(m, L.pmmap + 8) == At(m, L.pmmap + 16) == 0
    ensures PmCore(L, g) && PmRep(L, m, g) && AllFree(g)
  {
  }

  /** The first block `pm_init` frees, when at least a 4K block fits. */
  function FirstCarved(L: Layout, max: int): int {
    if max >= L.kernelEnd + PM_64M then max - PM_64M
    else if max >= L.kernelEnd + PM_512K then max - PM_512K
    else max - PM_4K
  }

  lemma PageBelow(m: int, end: int)
    requires m % PM_4K == 0 && end % PM_4K == 0 && end <= m < end + PM_4K
    ensures m == end
  {
  }

  /** How many blocks of level k a greedy division of n bytes, largest first, uses. */
  function Greedy(n: int, k: nat): int {
    if k == 2 then n / PM_64M else if k == 1 then n % PM_64M / PM_512K else n % PM_512K / PM_4K
  }

  lemma GreedyCounts(top: int, m2: int, m1: int, end: int, n2: int, n1: int, n0: int)
    requires top - m2 == PM_64M * n2 && end <= m2 < end + PM_64M
    requires m2 - m1 == PM_512K * n1 && end <= m1 < end + PM_512K
    requires m1 - end == PM_4K * n0
    ensures n2 == Greedy(top - end, 2) && n1 == Greedy(top - end, 1) <= 127 && n0 == Greedy(top - end, 0) <= 127
  {
    ModUnique(top - end, PM_64M, n2, m2 - end);
    ModUnique(m2 - end, PM_512K, n1, m1 - end);
    ModUnique(top - end, PM_512K, 128 * n2 + n1, m1 - end);
    ModUnique(m1 - end, PM_4K, n0, 0);
  }

  /** What one loop leaves: it stops below the bound or was never entered. */
  predicate Stopped(end: int, k: nat, max: int, m: int, n: nat) {
    max - m == Size(k) * n && if max < end then m == max else end <= m < end + Size(k)
  }

  /** The three loops in a row use the greedy counts of the interval, and nothing is left over. */
  lemma CarvedCounts(end: int, top: int, m2: int, m1: int, m0: int, n2: nat, n1: nat, n0: nat)
    requires end % PM_4K == 0 && m0 % PM_4K == 0
    requires Stopped(end, 2, top, m2, n2) && Stopped(end, 1, m2, m1, n1) && Stopped(end, 0, m1, m0, n0)
    ensures var lo := if top < end then top else end;
      && m0 == lo && n2 == Greedy(top - lo, 2) && n1 == Greedy(top - lo, 1) <= 127 && n0 == Greedy(top - lo, 0) <= 127
  {
    if top >= end {
      PageBelow(m0, end);
      GreedyCounts(top, m2, m1, end, n2, n1, n0);
    } else {
      GreedyCounts(0, 0, 0, 0, 0, 0, 0);
    }
  }

  class PhysMem {
    const L: Layout
    const ram: Ram
    ghost var g: PmState

    ghost predicate ValidCore()
      reads this, ram
    {
      PmCore(L, g) && PmRep(L, ram.mem, g)
    }

    ghost predicate Valid()
      reads this, ram
    {
      PmInv(L, g) && PmRep(L, ram.mem, g)
    }

    constructor (L: Layout, ram: Ram)
      ensures this.L == L && this.ram == ram
    {
      this.L := L;
      this.ram := ram;
      g := PmState(0, 0, [[], [], []], map[]);
    }

    /** Panics exactly on a size that is no block size or an address outside memory; otherwise the
        block becomes the head of its list. */
    method Pmfree(addr: int, size: int) returns (r: Outcome<()>)
      requires ValidCore()
      requires SizeToIdx(size).Done? && L.kernelEnd <= addr < L.memTotal ==>
        IsUsed(g, addr) && g.blocks[addr] == SizeToIdx(size).value
      modifies this, ram
      ensures r.Panic? <==> SizeToIdx(size).Panic? || !(L.kernelEnd <= addr < L.memTotal)
      ensures r.Panic? ==> g == old(g) && ram.mem == old(ram.mem)
      ensures r.Done? ==>
        && ValidCore()
        && g == Push(old(g), SizeToIdx(size).value, addr)
        && ram.mem == PushMem(L, old(ram.mem), SizeToIdx(size).value, addr)
        && PmFrame(L, g, old(ram.mem), ram.mem)
    {
      hide PmCore, PmRep, PmFrame, IsUsed;
      var idx :- SizeToIdx(size);
      if addr == 0 || addr < L.kernelEnd || addr >= L.memTotal {
        return Panic;
      }
      HeadIsWord(L, ram.mem, g, idx);
      UsedAligned(L, g, addr);
      var head := ram.Load(L.pmmap + 8 * idx);
      PushRep(L, ram.mem, g, idx, addr);
      PushFrame(L, ram.mem, g, idx, addr);
      PushInv(L, g, idx, addr);
      ram.Store(addr, head);
      ram.Store(L.pmmap + 8 * idx, addr);
      g := Push(g, idx, addr);
      return Done(());
    }

    /** Unlinks and zeroes the head of a free list. */
    method TakeHead(idx: nat) returns (addr: int)
      requires Valid() && idx < 3 && |g.free| == 3 && g.free[idx] != []
      modifies this, ram
      ensures Valid()
      ensures addr == old(g).free[idx][0] && g == Pop(old(g), idx)
      ensures ZeroRange(ram.mem, addr, Size(idx))
      ensures PmFrame(L, old(g), old(ram.mem), ram.mem)
    {
      hide PmCore, PmRep, PmFrame;
      HeadIsWord(L, ram.mem, g, idx);
      addr := ram.Load(L.pmmap + 8 * idx);
      var next := ram.Load(addr);
      ghost var m := ram.mem;
      ram.Store(L.pmmap + 8 * idx, next);
      ram.Memset(addr, Size(idx));
      PopRep(L, m, ram.mem, g, idx);
      PopFrame(L, m, ram.mem, g, idx);
      PopInv(L, g, idx);
      g := Pop(g, idx);
    }

    /** Frees the 128 pieces of a block just taken, highest address first. */
    method FreePieces(big: int, k: nat)
      requires Valid() && k < 2 && |g.free| == 3 && g.free[k] == []
      requires IsUsed(g, big) && g.blocks[big] == k + 1
      modifies this, ram
      ensures Valid()
      ensures g == PartlyFreed(Split(old(g), big, k), big, k, PIECES)
      ensures PmFrame(L, g, old(ram.mem), ram.mem)
    {
      hide PmCore, PmRep, PmFrame, IsUsed, IsPiece;
      SplitInv(L, g, big, k);
      g := Split(g, big, k);
      ghost var s := g;
      var addr := big + Size(k + 1) - Size(k);
      assert Pieces(big, k)[PIECES..] == [];
      FrameRefl(L, g, ram.mem);
      RepSameFree(L, ram.mem, old(g), g);
      for i := 0 to PIECES
        invariant PmCore(L, g) && PmRep(L, ram.mem, g)
        invariant addr == big + (PIECES - 1 - i) * Size(k)
        invariant g == PartlyFreed(s, big, k, i)
        invariant PmFrame(L, g, old(ram.mem), ram.mem)
      {
        PartlyFreedStep(L, s, big, k, i);
        PushInv(L, g, k, addr);
        ghost var before, m := g, ram.mem;
        var r := Pmfree(addr, Size(k));
        FrameTrans(L, before, g, g, old(ram.mem), m, ram.mem);
        addr := addr - Size(k);
      }
    }

    /** Panics exactly on a size that is no block size or when nothing that large is free; otherwise
        hands out a zeroed block and disturbs no block in use. */
    method Pmalloc(size: int) returns (r: Outcome<int>)
      requires Valid()
      modifies this, ram
      ensures Valid()
      ensures r.Panic? <==> SizeToIdx(size).Panic? || !CanAlloc(old(g), SizeToIdx(size).value)
      ensures r.Panic? ==> g == old(g) && ram.mem == old(ram.mem)
      ensures r.Done? ==> var k := SizeToIdx(size).value;
        && g == Alloc(old(g), k) && r.value == AllocAddr(old(g), k)
        && ZeroRange(ram.mem, r.value, size)
        && PmFrame(L, old(g), old(ram.mem), ram.mem)
      decreases PM_64M - size
    {
      hide PmCore, PmRep, PmFrame, IsUsed;
      ghost var g0, m0 := g, ram.mem;
      FreeLen(L, g);
      var idx :- SizeToIdx(size);
      HeadIsWord(L, ram.mem, g, idx);
      FrameRefl(L, g, ram.mem);
      var head := ram.Load(L.pmmap + 8 * idx);
      if head == 0 {
        if size == PM_64M {
          return Panic;
        }
        RefillStep(L, g, idx);
        if size == PM_512K {
          var big :- Pmalloc(PM_64M);
          ghost var m := ram.mem;
          FreePieces(big, 1);
          FrameTrans(L, g0, g, g0, m0, m, ram.mem);
        } else if size == PM_4K {
          var big :- Pmalloc(PM_512K);
          ghost var m := ram.mem;
          FreePieces(big, 0);
          FrameTrans(L, g0, g, g0, m0, m, ram.mem);
        }
      }
      assert g == Refill(g0, idx) && PmFrame(L, g0, m0, ram.mem);
      RefillInv(L, g0, idx);
      HeadIsWord(L, ram.mem, g, idx);
      ghost var m1 := ram.mem;
      var addr := TakeHead(idx);
      FrameTrans(L, g0, Refill(g0, idx), g0, m0, m1, ram.mem);
      return Done(addr);
    }

    /** Walks every list in memory and counts its blocks. */
    method PmDump() returns (counts: seq<nat>)
      requires Valid()
      ensures |counts| == 3 && forall i :: 0 <= i < 3 ==> counts[i] == |g.free[i]|
    {
      counts := [];
      for i := 0 to 3
        invariant |counts| == i && forall j :: 0 <= j < i ==> counts[j] == |g.free[j]|
      {
        HeadIsWord(L, ram.mem, g, i);
        var p := ram.Load(L.pmmap + 8 * i);
        var count := 0;
        ghost var rest := g.free[i];
        while p != 0
          invariant Chain(ram.mem, p, rest) && count + |rest| == |g.free[i]|
          invariant forall b :: b in rest ==> b in g.free[i]
          decreases |rest|
        {
          count := count + 1;
          FreeAligned(L, g, i, p);
          p := ram.Load(p);
          rest := rest[1..];
        }
        counts := counts + [count];
      }
    }

    /** What the carving loops keep: all carved blocks are free and reach from `lo` up to `hi`. */
    ghost predicate Carving(k: nat)
      reads this, ram
    {
      && ValidCore() && |g.free| == 3 && AllFree(g) && g.lo <= g.hi && g.lo % PM_4K == 0
      && (k >= 1 ==> (g.hi - g.lo) % PM_512K == 0) && (g.lo < g.hi ==> g.lo < L.memTotal)
    }

    /** One turn of a carving loop: the block of level k just below `lo`. */
    method CarveOne(max: int, k: nat) returns (r: Outcome<int>)
      requires Carving(k) && k < 3 && L.kernelEnd + Size(k) <= max == g.lo
      modifies this, ram
      ensures r.Panic? <==> L.memTotal <= max - Size(k)
      ensures r.Done? ==>
        && Carving(k) && g.lo == r.value == max - Size(k) && g.hi == old(g).hi && g.lo < L.memTotal
        && |g.free[k]| == |old(g).free[k]| + 1 && forall j :: 0 <= j < 3 && j != k ==> g.free[j] == old(g).free[j]
    {
      hide PmCore, PmRep, PmFrame, IsUsed;
      var m := max - Size(k);
      if m < L.memTotal {
        LowerAligned(g.lo, g.hi, k);
        ExtendInv(L, g, k);
        RepSameFree(L, ram.mem, g, Extend(g, k));
        PushInv(L, Extend(g, k), k, m);
        g := Extend(g, k);
      }
      var _ :- Pmfree(m, Size(k));
      return Done(m);
    }

    /** One carving loop: frees blocks of level k from the top down while a whole one fits. */
    method Carve(max: int, k: nat) returns (r: Outcome<int>)
      requires Carving(k) && k < 3 && g.free[k] == [] && g.lo == max
      modifies this, ram
      ensures r.Panic? <==> L.kernelEnd + Size(k) <= max && L.memTotal <= max - Size(k)
      ensures r.Done? ==>
        && Carving(k) && g.hi == old(g).hi && g.lo == r.value <= max
        && Stopped(L.kernelEnd, k, max, r.value, |g.free[k]|)
        && forall j :: 0 <= j < 3 && j != k ==> g.free[j] == old(g).free[j]
    {
      hide PmCore, PmRep, PmFrame, IsUsed, AllFree;
      var m := max;
      while m >= L.kernelEnd + Size(k)
        invariant Carving(k) && g.lo == m <= max && g.hi == old(g).hi
        invariant m < max ==> m < L.memTotal && max - Size(k) < L.memTotal
        invariant max - m == Size(k) * |g.free[k]|
        invariant if max < L.kernelEnd then m == max else L.kernelEnd <= m
        invariant forall j :: 0 <= j < 3 && j != k ==> g.free[j] == old(g).free[j]
        decreases m
      {
        m :- CarveOne(m, k);
      }
      return Done(m);
    }

    /** Carves `[kernelEnd, allocatableMax)` greedily into 64M, 512K and 4K blocks. */
    method PmInit(allocatableMax: int) returns (r: Outcome<()>)
      requires allocatableMax % PM_4K == 0
      requires At(ram.mem, L.pmmap) == At(ram.mem, L.pmmap + 8) == At(ram.mem, L.pmmap + 16) == 0
      modifies this, ram
      ensures r.Panic? <==>
        allocatableMax >= L.kernelEnd + PM_4K && FirstCarved(L, allocatableMax) >= L.memTotal
      ensures r.Done? ==>
        && ValidCore() && |g.free| == 3 && AllFree(g)
        && g.hi == allocatableMax
        && g.lo == (if allocatableMax < L.kernelEnd then allocatableMax else L.kernelEnd)
        && (forall k :: 0 <= k < 3 ==> |g.free[k]| == Greedy(g.hi - g.lo, k))
        && |g.free[1]| <= 127 && |g.free[0]| <= 127
      ensures allocatableMax <= L.memTotal ==> r.Done? && Valid()
    {
      hide PmCore, PmRep, IsUsed, AllFree, Greedy, ValidCore, Valid;
      g := PmState(allocatableMax, allocatableMax, [[], [], []], map[]);
      StartsEmpty();
      var max :- Carve(allocatableMax, 2);
      ghost var m2 := max;
      max :- Carve(max, 1);
      ghost var m1 := max;
      max :- Carve(max, 0);
      CarvedCounts(L.kernelEnd, allocatableMax, m2, m1, max, |g.free[2]|, |g.free[1]|, |g.free[0]|);
      if allocatableMax <= L.memTotal { ValidWithin(); }
      return Done(());
    }

    lemma StartsEmpty()
      requires g.lo == g.hi && g.free == [[], [], []] && g.blocks == map[]
      requires At(ram.mem, L.pmmap) == At(ram.mem, L.pmmap + 8) == At(ram.mem, L.pmmap + 16) == 0
      ensures ValidCore() && AllFree(g)
    {
      hide PmCore, PmRep, AllFree;
      NothingCarved(L, ram.mem, g);
    }

    lemma ValidWithin()
      requires ValidCore() && g.hi <= L.memTotal
      ensures Valid()
    {
      hide PmCore, PmRep;
    }
  }
}
