/** When `kmalloc` succeeds, counted in clear bitmap bits and free memory. */
module SlabSupply {
  import opened Memory
  import opened Blocks
  import opened Supply
  import opened Slabs
  import opened Heap
  import opened SlabMem
  import opened SlabStart

  /** The free slots of class k: a slab of the class and a slot whose bit is clear. */
  ghost function OpenSlots(s: SlabState, k: nat): set<(int, int)> {
    set h, j | h in s.slabs && s.slabs[h].cls == k && 0 <= j < Slots(k) && j !in s.slabs[h].bits :: (h, j)
  }

  /** The 64-byte class has no slot for the header that a new slab of class k would need. */
  ghost predicate NeedsHeaderSlab(s: SlabState, k: nat) {
    k > 0 && OpenSlots(s, 0) == {}
  }

  /** A slot of class k is free, or free memory holds the new slab and, where the 64-byte class is full,
      first the slab of its header. */
  ghost predicate CanServe(h: HeapState, k: nat)
    requires |h.g.free| == 3
  {
    || OpenSlots(h.s, k) != {}
    || (k <= SLAB_4K && FreeFrames(h.g) >= if NeedsHeaderSlab(h.s, k) then 2 else 1)
    || (k > SLAB_4K && Units(h.g) >= if NeedsHeaderSlab(h.s, k) && h.g.free[0] == [] then 2 else 1)
  }

  lemma OpenIff(L: Layout, s: SlabState, k: nat)
    requires ListsOk(L, s) && k < CLASSES
    ensures HasOpen(L, s, k) <==> OpenSlots(s, k) != {}
  {
    hide Slots, NoDup;
    var l := s.lists[k];
    FirstOpenBound(s, l);
    if HasOpen(L, s, k) {
      var h := l[FirstOpen(s, l)];
      var j: nat :| j < Slots(s.slabs[h].cls) && j !in s.slabs[h].bits;
      assert (h, j) in OpenSlots(s, k);
    }
    if OpenSlots(s, k) != {} {
      var e :| e in OpenSlots(s, k);
      var j: nat := e.1;
      assert e.0 in l && j < Slots(s.slabs[e.0].cls) && j !in s.slabs[e.0].bits;
      var q :| 0 <= q < |l| && l[q] == e.0;
      assert !IsFull(s, l[q]);
    }
  }

  /** `kmalloc` of a class succeeds exactly when it can be served. */
  lemma KAllocServes(L: Layout, h: HeapState, k: nat)
    requires HeapInv(L, h) && k < CLASSES
    ensures |h.g.free| == 3 && (KAlloc(L, h, k).Done? <==> CanServe(h, k))
  {
    hide HeapInv, ListsOk, OnlyAdds, HasOpen, Take, CanAlloc, Alloc, OpenSlots, NewSlab64, AllocAddr;
    HeapLists(L, h);
    OpenIff(L, h.s, k);
    OpenIff(L, h.s, 0);
    AllocFrame(h.g);
    AllocUnit(h.g);
    KAlloc64Ok(L, h);
    if HasOpen(L, h.s, 0) { SameMemory(L, h, 0); }
    if CanAlloc(h.g, 0) {
      AllocFrame(Alloc(h.g, 0));
      AllocUnit(Alloc(h.g, 0));
    }
  }

  lemma SameMemory(L: Layout, h: HeapState, k: nat)
    requires ListsOk(L, h.s) && k < CLASSES && HasOpen(L, h.s, k)
    ensures Take(L, h, k).h.g == h.g
  {
  }

  // ---- What an allocation leaves ----

  lemma TakeOpens(s: SlabState, h: int, j: nat, k: nat)
    requires h in s.slabs && j < Slots(s.slabs[h].cls) && j !in s.slabs[h].bits
    ensures |OpenSlots(TakeSlot(s, h, j), k)| == |OpenSlots(s, k)| - (if s.slabs[h].cls == k then 1 else 0)
  {
    hide Slots, SlotAddr;
    var a, b := OpenSlots(s, k), OpenSlots(TakeSlot(s, h, j), k);
    if s.slabs[h].cls == k {
      assert (h, j) in a;
      assert b == a - {(h, j)};
    } else {
      assert b == a;
    }
  }

  /** The free slots of a slab whose first n slots are taken. */
  lemma {:induction false} RangeSize(h: int, n: int, top: int)
    requires 0 <= n <= top
    ensures var r := set j | n <= j < top :: (h, j); |r| == top - n
    decreases top - n
  {
    var r := set j | n <= j < top :: (h, j);
    if n == top {
      assert r == {};
    } else {
      RangeSize(h, n + 1, top);
      var rest := set j | n + 1 <= j < top :: (h, j);
      assert r == rest + {(h, n)};
      assert (h, n) !in rest;
    }
  }

  lemma NewSlabSet(s: SlabState, t: SlabState, h: int, k: nat, p: int, bits: set<nat>, n: nat, i: nat)
    requires h !in s.slabs && n <= Slots(k) && forall j: nat :: j in bits <==> j < n
    requires t.slabs == s.slabs[h := Slab(k, p, bits)]
    ensures OpenSlots(t, i) == OpenSlots(s, i) + if i == k then set j | n <= j < Slots(k) :: (h, j) else {}
  {
    hide Slots;
    forall e ensures e in OpenSlots(t, i) <==> e in OpenSlots(s, i) || (i == k && e.0 == h && n <= e.1 < Slots(k)) {
      if e.0 == h && 0 <= e.1 { var j: nat := e.1; }
    }
  }

  lemma NewSlabOpens(s: SlabState, t: SlabState, h: int, k: nat, p: int, bits: set<nat>, n: nat, i: nat)
    requires h !in s.slabs && n <= Slots(k) && forall j: nat :: j in bits <==> j < n
    requires t.slabs == s.slabs[h := Slab(k, p, bits)]
    ensures |OpenSlots(t, i)| == |OpenSlots(s, i)| + if i == k then Slots(k) - n else 0
  {
    hide Slots;
    NewSlabSet(s, t, h, k, p, bits, n, i);
    if i == k {
      RangeSize(h, n, Slots(k));
      var r := set j | n <= j < Slots(k) :: (h, j);
      assert OpenSlots(s, i) !! r;
    }
  }

  /** The frames an allocation of at most 4K takes. */
  ghost function FramesFor(s: SlabState, k: nat): nat {
    if OpenSlots(s, k) != {} then 0 else if NeedsHeaderSlab(s, k) then 2 else 1
  }

  /** The 64-byte slots it leaves: its own or the header's is taken, and a new slab of them brings 63 more
      than the one it keeps for itself. */
  ghost function SmallLeft(s: SlabState, k: nat): int {
    |OpenSlots(s, 0)| - (if k == 0 || OpenSlots(s, k) == {} then 1 else 0)
      + (if OpenSlots(s, 0) == {} && (k == 0 || OpenSlots(s, k) == {}) then 63 else 0)
  }

  lemma SupplyAfterTake(L: Layout, h: HeapState, k: nat, i: nat)
    requires HeapInv(L, h) && ListsOk(L, h.s) && k < CLASSES && HasOpen(L, h.s, k)
    ensures var r := Take(L, h, k).h; r.g == h.g && |OpenSlots(r.s, i)| == |OpenSlots(h.s, i)| - if i == k then 1 else 0
  {
    hide HeapInv, ListsOk, HasOpen, OpenSlots, TakeSlot, Slots, SlotAddr;
    TakeOpens(h.s, OpenHdr(L, h.s, k), OpenSlot(L, h.s, k), i);
  }

  lemma SupplyAfterGrow64(L: Layout, h: HeapState, i: nat)
    requires HeapInv(L, h) && |h.g.free| == 3 && CanAlloc(h.g, 0) && |h.s.lists| == CLASSES
    ensures var r := Grow64(h).h;
      r.g == Alloc(h.g, 0) && |OpenSlots(r.s, i)| == |OpenSlots(h.s, i)| + if i == 0 then 62 else 0
  {
    hide SlabInv, PmInv, OpenSlots, Alloc, AllocAddr, CanAlloc, IsUsed, IsPage;
    FreshPage(L, h, 0);
    var p := AllocAddr(h.g, 0);
    NewSlab64Inv(L, Alloc(h.g, 0), h.s, p);
    ClassTable(0);
    NewSlabOpens(h.s, NewSlab64(h.s, p), p, 0, p, {0, 1}, 2, i);
  }

  lemma SupplyAfterGrow(L: Layout, h: HeapState, k: nat, hdr: int, i: nat)
    requires HeapInv(L, h) && |h.g.free| == 3 && 0 < k < CLASSES && CanAlloc(h.g, PageLevel(k))
    requires |h.s.lists| == CLASSES
    requires hdr in h.s.occ && hdr !in h.s.slabs
    ensures var r := Grow(h, k, hdr).h;
      r.g == Alloc(h.g, PageLevel(k)) && |OpenSlots(r.s, i)| == |OpenSlots(h.s, i)| + if i == k then Slots(k) - 1 else 0
  {
    hide HeapInv, OpenSlots, Alloc, AllocAddr, CanAlloc, Slots;
    ClassTable(k);
    var p := AllocAddr(h.g, PageLevel(k));
    NewSlabOpens(h.s, NewSlab(h.s, k, hdr, p), hdr, k, p, {0}, 1, i);
  }

  /** How many slots of class i an allocation of class k leaves free. */
  ghost function OpenAfter(s: SlabState, k: nat, i: nat): int {
    if i == 0 then SmallLeft(s, k)
    else if i != k then |OpenSlots(s, i)|
    else if OpenSlots(s, k) != {} then |OpenSlots(s, k)| - 1 else Slots(k) - 1
  }

  lemma KAlloc64Supply(L: Layout, h: HeapState, i: nat)
    requires HeapInv(L, h)
    ensures |h.g.free| == 3
    ensures KAlloc64(L, h).Panic? <==> FreeFrames(h.g) < FramesFor(h.s, 0)
    ensures KAlloc64(L, h).Done? ==> var r := KAlloc64(L, h).value.h;
      && |r.g.free| == 3 && FreeFrames(r.g) == FreeFrames(h.g) - FramesFor(h.s, 0)
      && |OpenSlots(r.s, i)| == OpenAfter(h.s, 0, i)
  {
    hide HeapInv, ListsOk, OnlyAdds, HasOpen, Take, Grow64, CanAlloc, Alloc, OpenSlots, FreeFrames, AllocAddr, Slots;
    HeapLists(L, h);
    ListsLen(L, h.s);
    OpenIff(L, h.s, 0);
    AllocFrame(h.g);
    if HasOpen(L, h.s, 0) {
      SupplyAfterTake(L, h, 0, i);
    } else if CanAlloc(h.g, 0) {
      SupplyAfterGrow64(L, h, i);
    }
  }

  /** An allocation of at most 4K: when it fails, and exactly what it takes. */
  lemma KAllocSupply(L: Layout, h: HeapState, k: nat, i: nat)
    requires HeapInv(L, h) && k <= SLAB_4K && (i == 0 || i == k || i == 3 || i == 4)
    ensures |h.g.free| == 3
    ensures KAlloc(L, h, k).Panic? <==> FreeFrames(h.g) < FramesFor(h.s, k)
    ensures KAlloc(L, h, k).Done? ==> var r := KAlloc(L, h, k).value.h;
      && |r.g.free| == 3 && FreeFrames(r.g) == FreeFrames(h.g) - FramesFor(h.s, k)
      && |OpenSlots(r.s, i)| == OpenAfter(h.s, k, i)
  {
    hide HeapInv, ListsOk, OnlyAdds, HasOpen, Take, Grow, CanAlloc, Alloc, OpenSlots, FreeFrames, AllocAddr, Slots;
    hide KAlloc64;
    HeapLists(L, h);
    OpenIff(L, h.s, k);
    KAlloc64Supply(L, h, i);
    if k > 0 && HasOpen(L, h.s, k) {
      SupplyAfterTake(L, h, k, i);
    } else if k > 0 && KAlloc64(L, h).Done? {
      var inner := KAlloc64(L, h).value;
      KAlloc64Ok(L, h);
      NewHeader(L, h, inner);
      AllocFrame(inner.h.g);
      if CanAlloc(inner.h.g, 0) { SupplyAfterGrow(L, inner.h, k, inner.addr, i); }
    }
  }

  /** A block just handed out is no header yet. */
  lemma NewHeader(L: Layout, h: HeapState, r: Grab)
    requires HeapInv(L, r.h) && OnlyAdds(h, r.h, r.addr, 0)
    ensures r.addr in r.h.s.occ && r.addr !in r.h.s.slabs
  {
    hide ListsOk, PagesOk, SlotsOk, HeadersOk, PmCore, ClassSize, IsUsed;
    OccPlace(L, r.h.g, r.h.s, r.addr);
    if r.addr in r.h.s.slabs {
      HeadersAreNotClients(L, r.h.g, r.h.s, r.addr);
    }
  }

  // ---- slab_init ----

  /** 512K units left after the first n pages of `slab_init`, seven of 4K and then seven of 512K. */
  ghost function UnitsLeft(g: PmState, n: nat): int
    requires |g.free| == 3
  {
    var small := if n <= 7 then n else 7;
    Units(g) - (if |g.free[0]| >= small then 0 else 1) - (n - small)
  }

  lemma {:induction false} InitSupply(L: Layout, g: PmState, n: nat)
    requires PmInv(L, g) && n <= CLASSES
    ensures |g.free| == 3
    ensures var r, small := InitPrefix(L, g, n), if n <= 7 then n else 7;
      && (r.Done? <==> UnitsLeft(g, n) >= 0)
      && (r.Done? ==>
            && |r.value.g.free| == 3 && Units(r.value.g) == UnitsLeft(g, n)
            && |r.value.g.free[0]| == |g.free[0]| - small + if |g.free[0]| >= small then 0 else PIECES)
  {
    hide PmInv, Units, Alloc, AllocAddr, CanAlloc, AddStatic;
    FreeLen(L, g);
    if n > 0 {
      InitSupply(L, g, n - 1);
      if InitPrefix(L, g, n - 1).Done? {
        var i := InitPrefix(L, g, n - 1).value.g;
        FreeLen(L, i);
        FramesAndUnits(i);
        if PageLevel(n - 1) == 0 { AllocFrame(i); } else { AllocUnit(i); }
      }
    }
  }

  lemma FramesAndUnits(g: PmState)
    requires |g.free| == 3
    ensures FreeFrames(g) == |g.free[0]| + PIECES * Units(g)
  {
  }
}
