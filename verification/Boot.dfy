/** How much memory the start of the kernel needs, and a live block that `kmfree` rejects. */
module Boot {
  import opened Bits
  import opened Memory
  import opened Blocks
  import opened Supply
  import opened SlabSupply
  import opened PageSupply
  import opened PhysAlloc
  import opened Slabs
  import opened Heap
  import opened SlabStart
  import opened SlabAlloc
  import opened PageTables
  import opened PageWalk
  import opened PageInit
  import opened Procs
  import opened Runs

  /** Six frames for `vm_init`, seven for the small slabs, and seven blocks of 512K for the large ones. */
  const START_FRAMES := VM_FRAMES + 7 + 7 * PIECES

  /** `mm_init` after the carving succeeds exactly when 909 frames are free. */
  lemma StartSupply(L: Layout, g: PmState)
    requires PmInv(L, g) && |g.free| == 3 && FewSmall(g)
    ensures MmStart(L, g).Done? <==> FreeFrames(g) >= START_FRAMES
  {
    hide StOk, Units, FreeFrames, PmInv, VmInit, InitPrefix, PmCore, VmInv, FramesOk, UnitsLeft;
    VmInitSupply(L, g);
    if VmInit(L, g).Done? {
      StParts(L, VmInit(L, g).value);
      InitSupply(L, VmInit(L, g).value.g, CLASSES);
      EnoughLeft(VmInit(L, g).value.g);
    }
  }

  lemma EnoughLeft(g: PmState)
    requires |g.free| == 3 && FewSmall(g)
    ensures UnitsLeft(g, CLASSES) >= 0 <==> FreeFrames(g) >= 7 + 7 * PIECES
  {
    FramesAndUnits(g);
  }

  /** The carving leaves one frame for each 4K of the interval, and few of them outside larger blocks. */
  lemma GreedyFrames(g: PmState)
    requires |g.free| == 3 && g.lo <= g.hi && forall k :: 0 <= k < 3 ==> |g.free[k]| == Greedy(g.hi - g.lo, k)
    ensures FreeFrames(g) == (g.hi - g.lo) / PM_4K && FewSmall(g)
  {
    hide Greedy;
    assert |g.free[0]| == Greedy(g.hi - g.lo, 0) && |g.free[1]| == Greedy(g.hi - g.lo, 1);
    assert |g.free[2]| == Greedy(g.hi - g.lo, 2);
    GreedySum(g.hi - g.lo);
  }

  lemma GreedySum(n: nat)
    ensures Greedy(n, 0) + PIECES * Greedy(n, 1) + PIECES * PIECES * Greedy(n, 2) == n / PM_4K
    ensures Greedy(n, 0) < PIECES
  {
    var q, r := n / PM_4K, n % PM_4K;
    var a, b := q / 16384, q % 16384;
    var c, d := b / 128, b % 128;
    assert q == 16384 * a + b && b == 128 * c + d;
    ModUnique(n, PM_64M, a, PM_4K * b + r);
    ModUnique(PM_4K * b + r, PM_512K, c, PM_4K * d + r);
    ModUnique(n, PM_512K, 128 * a + c, PM_4K * d + r);
    ModUnique(PM_4K * d + r, PM_4K, d, r);
  }

  // ---- A live block that `kmfree` rejects ----

  /** Memory of n free 512K blocks below `hi`. */
  ghost function Carved(hi: int, n: nat): PmState {
    if n == 0 then PmState(hi, hi, [[], [], []], map[])
    else
      var e := Extend(Carved(hi, n - 1), 1);
      e.(free := [[], [e.lo] + if |e.free| == 3 then e.free[1] else [], []])
  }

  lemma {:induction false} CarvedOk(L: Layout, hi: int, n: nat)
    requires hi % PM_4K == 0 && hi <= L.memTotal && L.kernelEnd <= hi - n * PM_512K
    ensures var g := Carved(hi, n);
      && PmInv(L, g) && g.hi == hi && g.lo == hi - n * PM_512K && g.lo % PM_4K == 0 && (hi - g.lo) % PM_512K == 0
      && |g.free| == 3 && |g.free[1]| == n && g.free[0] == [] && g.free[2] == []
  {
    hide PmCore, IsUsed, Extend;
    if n == 0 {
      NothingThere(L, hi);
    } else {
      var g := Carved(hi, n - 1);
      CarvedOk(L, hi, n - 1);
      LowerAligned(g.lo, hi, 1);
      ExtendInv(L, g, 1);
      Extended(g);
      PushInv(L, Extend(g, 1), 1, g.lo - PM_512K);
      assert Carved(hi, n) == Push(Extend(g, 1), 1, g.lo - PM_512K);
    }
  }

  lemma Extended(g: PmState)
    ensures g.lo - PM_512K in Extend(g, 1).blocks && Extend(g, 1).blocks[g.lo - PM_512K] == 1 && Extend(g, 1).hi == g.hi
    ensures Extend(g, 1).lo == g.lo - PM_512K && Extend(g, 1).free == g.free
  {
  }

  lemma NothingThere(L: Layout, hi: int)
    requires hi % PM_4K == 0 && hi <= L.memTotal
    ensures PmCore(L, Carved(hi, 0))
  {
  }

  /** Over a top that is no multiple of the slot size, the first block `kmalloc` hands out after
      `slab_init` is one that `kmfree` rejects. */
  lemma RejectedAfterStart(L: Layout, g: PmState, k: nat)
    requires PmInv(L, g) && |g.free| == 3 && UnitsLeft(g, CLASSES) >= 0
    requires SLAB_4K < k < CLASSES && ClassSize(k) > 0 && g.hi % ClassSize(k) != 0
    ensures InitPrefix(L, g, CLASSES).Done? && HeapInv(L, InitPrefix(L, g, CLASSES).value)
    ensures var r := KAlloc(L, InitPrefix(L, g, CLASSES).value, k);
      r.Done? && HeapInv(L, r.value.h) && IsClient(r.value.h.s, r.value.addr) && !Freeable(r.value.h.s, r.value.addr)
  {
    hide PmInv, Units, UnitsLeft, HeapInv, InitPrefix, ClassSize, Freeable, IsClient, KAlloc, Quiescent, SameForeign;
    hide Foreign;
    hide IsUsed;
    InitSupply(L, g, CLASSES);
    StartOk(L, g);
    var h := InitPrefix(L, g, CLASSES).value;
    HeapLists(L, h);
    StartOpen(L, h, k);
    KAllocOk(L, h, k);
    var r := KAlloc(L, h, k).value;
    Added(h, r, k);
    LiveFreeable(L, r.h, r.addr);
  }

  lemma StartOpen(L: Layout, h: HeapState, k: nat)
    requires HeapInv(L, h) && ListsOk(L, h.s) && Quiescent(L, h.s) && k < CLASSES
    ensures KAlloc(L, h, k).Done?
  {
    hide HeapInv, KAlloc64;
    ClassTable(k);
    var q := StaticHdr(L, k);
    assert h.s.lists[k] == [q];
    ListedClass(L, h.s, k, q);
    assert 0 !in h.s.slabs[q].bits && !IsFull(h.s, q);
    assert HasOpen(L, h.s, k);
    if k == 0 { Class0(L, h); }
  }

  lemma Class0(L: Layout, h: HeapState)
    requires HeapInv(L, h) && ListsOk(L, h.s) && HasOpen(L, h.s, 0)
    ensures KAlloc64(L, h).Done?
  {
  }

  lemma Added(h: HeapState, r: Grab, k: nat)
    requires OnlyAdds(h, r.h, r.addr, k)
    ensures IsClient(r.h.s, r.addr) && r.addr in r.h.s.occ && r.h.s.occ[r.addr].hdr in r.h.s.slabs
    ensures BlockClass(r.h.s, r.addr) == k
    ensures r.h.g.hi == h.g.hi
  {
  }

  /** Such a machine exists: its memory ends half a slot above a multiple of 8K. */
  lemma RejectedBlock() returns (L: Layout, h: HeapState, a: int)
    ensures HeapInv(L, h) && IsClient(h.s, a) && !Freeable(h.s, a)
  {
    hide PmInv, HeapInv, Freeable, IsClient, KAlloc, InitPrefix, Carved;
    var end := 0x10_1000;
    var hi := end + CLASSES * PM_512K;
    L := RawLayout(0x10_0000, 0x10_0100, end, hi);
    CarvedOk(L, hi, CLASSES);
    ClassSizes();
    var g := Carved(hi, CLASSES);
    RejectedAfterStart(L, g, SLAB_4K + 1);
    var r := KAlloc(L, InitPrefix(L, g, CLASSES).value, SLAB_4K + 1).value;
    h, a := r.h, r.addr;
  }
}
