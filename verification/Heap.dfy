/** `kmalloc` and `kmfree` as deterministic transitions on the abstract allocator state, what every
    run of them keeps, and what is left when every client block has been freed. */
module Heap {
  import opened Bits
  import opened Memory
  import opened Blocks
  import opened Slabs

  datatype HeapState = HeapState(g: PmState, s: SlabState)

  datatype Grab = Grab(h: HeapState, addr: int)

  ghost predicate HeapInv(L: Layout, h: HeapState) {
    PmInv(L, h.g) && SlabInv(L, h.g, h.s)
  }

  /** A block in use that belongs to somebody other than the slab allocator. */
  ghost predicate Foreign(h: HeapState, b: int) {
    IsUsed(h.g, b) && !IsPage(h.s, b) && b !in h.s.dropped
  }

  ghost predicate ClientOf(h: HeapState, a: int, k: nat) {
    IsClient(h.s, a) && h.s.occ[a].hdr in h.s.slabs && BlockClass(h.s, a) == k
  }

  function SizeToClass(size: int): (r: Outcome<nat>)
    ensures r.Panic? <==> size > PM_512K
    ensures r.Done? ==> r.value < CLASSES && size <= ClassSize(r.value)
    ensures r.Done? && r.value > 0 ==> size > ClassSize(r.value - 1)
  {
    ClassSizes();
    hide ClassSize;
    if size <= 64 then Done(0)
    else if size <= 128 then Done(1)
    else if size <= 256 then Done(2)
    else if size <= 512 then Done(3)
    else if size <= 0x400 then Done(4)
    else if size <= 0x800 then Done(5)
    else if size <= 0x1000 then Done(6)
    else if size <= 0x2000 then Done(7)
    else if size <= 0x4000 then Done(8)
    else if size <= 0x8000 then Done(9)
    else if size <= 0x1_0000 then Done(10)
    else if size <= 0x2_0000 then Done(11)
    else if size <= 0x4_0000 then Done(12)
    else if size <= 0x8_0000 then Done(13)
    else Panic
  }

  // ---- The first free slot of the first slab that has one ----

  ghost function LowestFrom(bits: set<nat>, j: nat, n: int): nat
    decreases n - j
  {
    if j >= n then j else if j !in bits then j else LowestFrom(bits, j + 1, n)
  }

  ghost function FirstOpen(s: SlabState, l: seq<int>): nat
    requires forall h :: h in l ==> h in s.slabs
  {
    if l == [] then 0 else if !IsFull(s, l[0]) then 0 else 1 + FirstOpen(s, l[1..])
  }

  lemma {:induction false} LowestIs(bits: set<nat>, j: nat, n: int, r: nat)
    requires j <= r < n && r !in bits && forall i: nat :: j <= i < r ==> i in bits
    ensures LowestFrom(bits, j, n) == r
    decreases r - j
  {
    if j < r { LowestIs(bits, j + 1, n, r); }
  }

  lemma {:induction false} LowestFree(bits: set<nat>, j: nat, n: int)
    requires exists i: nat :: j <= i < n && i !in bits
    ensures var r := LowestFrom(bits, j, n); j <= r < n && r !in bits && forall i: nat :: j <= i < r ==> i in bits
    decreases n - j
  {
    if j in bits {
      var i: nat :| j <= i < n && i !in bits;
      assert j + 1 <= i;
      LowestFree(bits, j + 1, n);
    }
  }

  lemma {:induction false} FirstOpenIs(s: SlabState, l: seq<int>, i: nat)
    requires forall h :: h in l ==> h in s.slabs
    requires i <= |l| && (forall q :: 0 <= q < i ==> IsFull(s, l[q])) && (i < |l| ==> !IsFull(s, l[i]))
    ensures FirstOpen(s, l) == i
  {
    if i > 0 {
      assert IsFull(s, l[0]);
      forall q | 0 <= q < i - 1 ensures IsFull(s, l[1..][q]) { assert IsFull(s, l[q + 1]); }
      FirstOpenIs(s, l[1..], i - 1);
    }
  }

  lemma {:induction false} FirstOpenBound(s: SlabState, l: seq<int>)
    requires forall h :: h in l ==> h in s.slabs
    ensures FirstOpen(s, l) <= |l| && (FirstOpen(s, l) < |l| ==> !IsFull(s, l[FirstOpen(s, l)]))
    ensures forall q :: 0 <= q < FirstOpen(s, l) ==> IsFull(s, l[q])
  {
    if l != [] && IsFull(s, l[0]) {
      FirstOpenBound(s, l[1..]);
      forall q | 0 <= q < FirstOpen(s, l) ensures IsFull(s, l[q]) {
        if q > 0 { assert IsFull(s, l[1..][q - 1]); }
      }
    }
  }

  ghost predicate HasOpen(L: Layout, s: SlabState, k: nat)
    requires ListsOk(L, s) && k < CLASSES
  {
    FirstOpen(s, s.lists[k]) < |s.lists[k]|
  }

  ghost function OpenHdr(L: Layout, s: SlabState, k: nat): (h: int)
    requires ListsOk(L, s) && k < CLASSES && HasOpen(L, s, k)
    ensures h in s.slabs && s.slabs[h].cls == k && !IsFull(s, h)
  {
    FirstOpenBound(s, s.lists[k]);
    s.lists[k][FirstOpen(s, s.lists[k])]
  }

  ghost function OpenSlot(L: Layout, s: SlabState, k: nat): (j: nat)
    requires ListsOk(L, s) && k < CLASSES && HasOpen(L, s, k)
    ensures j < Slots(k) && j !in s.slabs[OpenHdr(L, s, k)].bits
  {
    LowestFree(s.slabs[OpenHdr(L, s, k)].bits, 0, Slots(k));
    LowestFrom(s.slabs[OpenHdr(L, s, k)].bits, 0, Slots(k))
  }

  // ---- Transitions ----

  ghost function Take(L: Layout, h: HeapState, k: nat): Grab
    requires ListsOk(L, h.s) && k < CLASSES && HasOpen(L, h.s, k)
  {
    var hdr, j := OpenHdr(L, h.s, k), OpenSlot(L, h.s, k);
    Grab(HeapState(h.g, TakeSlot(h.s, hdr, j)), SlotAddr(h.s, hdr, j))
  }

  /** The slot taken is the lowest free one of the first slab in list order that has any. */
  lemma TakeIsFirst(L: Layout, h: HeapState, k: nat)
    requires ListsOk(L, h.s) && k < CLASSES && HasOpen(L, h.s, k)
    ensures exists q, j: nat ::
      && 0 <= q < |h.s.lists[k]| && FirstFree(h.s, k, q, j)
      && Take(L, h, k).addr == SlotAddr(h.s, h.s.lists[k][q], j)
  {
    FirstOpenBound(h.s, h.s.lists[k]);
    var q, j := FirstOpen(h.s, h.s.lists[k]), OpenSlot(L, h.s, k);
    LowestFree(h.s.slabs[OpenHdr(L, h.s, k)].bits, 0, Slots(k));
    assert FirstFree(h.s, k, q, j);
  }

  ghost predicate FirstFree(s: SlabState, k: nat, q: int, j: nat)
    requires k < |s.lists| && 0 <= q < |s.lists[k]|
  {
    && (forall p :: 0 <= p < q ==> s.lists[k][p] in s.slabs && IsFull(s, s.lists[k][p]))
    && s.lists[k][q] in s.slabs && j < Slots(k) && j !in s.slabs[s.lists[k][q]].bits
    && forall i: nat :: i < j ==> i in s.slabs[s.lists[k][q]].bits
  }

  ghost function Grow64(h: HeapState): Grab
    requires |h.g.free| == 3 && CanAlloc(h.g, 0) && |h.s.lists| == CLASSES
  {
    var p := AllocAddr(h.g, 0);
    Grab(HeapState(Alloc(h.g, 0), NewSlab64(h.s, p)), p + 64)
  }

  ghost function Grow(h: HeapState, k: nat, hdr: int): Grab
    requires |h.g.free| == 3 && k < CLASSES && CanAlloc(h.g, PageLevel(k)) && |h.s.lists| == CLASSES && hdr in h.s.occ
  {
    var p := AllocAddr(h.g, PageLevel(k));
    Grab(HeapState(Alloc(h.g, PageLevel(k)), NewSlab(h.s, k, hdr, p)), p)
  }

  ghost function KAlloc64(L: Layout, h: HeapState): (r: Outcome<Grab>)
    requires HeapInv(L, h)
  {
    if HasOpen(L, h.s, 0) then Done(Take(L, h, 0))
    else if CanAlloc(h.g, 0) then Done(Grow64(h))
    else Panic
  }

  /** `kmalloc` for a class: reuse a slot, or add a slab whose header is itself allocated first. */
  ghost function KAlloc(L: Layout, h: HeapState, k: nat): Outcome<Grab>
    requires HeapInv(L, h) && k < CLASSES
  {
    if k == 0 then KAlloc64(L, h)
    else if HasOpen(L, h.s, k) then Done(Take(L, h, k))
    else if KAlloc64(L, h).Panic? then Panic
    else
      var inner := KAlloc64(L, h).value;
      KAlloc64Ok(L, h);
      if CanAlloc(inner.h.g, PageLevel(k)) then Done(Grow(inner.h, k, inner.addr)) else Panic
  }

  /** `kmfree` of a client block that leaves its slab in service, or of the last one but the header. */
  ghost function KFree64(L: Layout, h: HeapState, a: int): HeapState
    requires |h.g.free| == 3 && |h.s.lists| == CLASSES && a in h.s.occ && h.s.occ[a].hdr in h.s.slabs
  {
    var hdr, s := h.s.occ[a].hdr, Release(h.s, a);
    if hdr >= L.kernelEnd && s.slabs[hdr].cls == 0 && s.slabs[hdr].bits == {0}
    then HeapState(Push(h.g, 0, hdr), GiveBack(s, hdr))
    else HeapState(h.g, s)
  }

  /** `kmfree`: an emptied dynamic slab is unlinked and its header block freed in turn. */
  ghost function KFree(L: Layout, h: HeapState, a: int): HeapState
    requires HeapInv(L, h) && IsClient(h.s, a)
  {
    FreeFacts(L, h, a);
    var hdr, s := h.s.occ[a].hdr, Release(h.s, a);
    if hdr >= L.kernelEnd && s.slabs[hdr].bits == {} then
      RetireFacts(L, h, a);
      KFree64(L, HeapState(h.g, Retire(s, hdr)), hdr)
    else KFree64(L, h, a)
  }

  // ---- What one call does ----

  ghost predicate SameForeign(h: HeapState, h': HeapState) {
    && h'.g.lo == h.g.lo && h'.g.hi == h.g.hi
    && (forall b :: Foreign(h', b) <==> Foreign(h, b))
    && (forall b :: Foreign(h, b) ==> h'.g.blocks[b] == h.g.blocks[b])
  }

  ghost predicate ClientsPlus(h: HeapState, h': HeapState, a: int, k: nat) {
    && !IsClient(h.s, a) && ClientOf(h', a, k)
    && forall b, j :: b != a ==> (ClientOf(h', b, j) <==> ClientOf(h, b, j))
  }

  /** `kmalloc`: one more client block, of class k, and nobody else's blocks are touched. */
  ghost predicate OnlyAdds(h: HeapState, h': HeapState, a: int, k: nat) {
    ClientsPlus(h, h', a, k) && SameForeign(h, h')
  }

  /** `kmfree`: one client block fewer. */
  ghost predicate OnlyRemoves(h: HeapState, h': HeapState, a: int) {
    && ClientsLess(h, h', a) && SameForeign(h, h')
  }

  ghost predicate ClientsLess(h: HeapState, h': HeapState, a: int) {
    !IsClient(h'.s, a) && forall b, j :: b != a ==> (ClientOf(h', b, j) <==> ClientOf(h, b, j))
  }

  lemma TakeOk(L: Layout, h: HeapState, k: nat)
    requires HeapInv(L, h) && k < CLASSES && HasOpen(L, h.s, k)
    ensures var r := Take(L, h, k); HeapInv(L, r.h) && OnlyAdds(h, r.h, r.addr, k) && r.addr !in h.s.occ
  {
    var r, hdr, j := Take(L, h, k), OpenHdr(L, h.s, k), OpenSlot(L, h.s, k);
    TakeSlotInv(L, h.g, h.s, hdr, j);
    hide SlabInv, PmInv;
    forall b ensures IsPage(r.h.s, b) <==> IsPage(h.s, b) {
      TakeSamePages(h.s, hdr, j, b);
    }
    hide IsPage, IsUsed;
    TakeClients(h, hdr, j);
  }

  lemma TakeClients(h: HeapState, hdr: int, j: nat)
    requires hdr in h.s.slabs && SlotAddr(h.s, hdr, j) !in h.s.occ
    ensures ClientsPlus(h, HeapState(h.g, TakeSlot(h.s, hdr, j)), SlotAddr(h.s, hdr, j), h.s.slabs[hdr].cls)
  {
  }

  lemma TakeSamePages(s: SlabState, hdr: int, j: nat, b: int)
    requires hdr in s.slabs
    ensures IsPage(TakeSlot(s, hdr, j), b) <==> IsPage(s, b)
  {
    var t := TakeSlot(s, hdr, j);
    if IsPage(s, b) { var q :| q in s.slabs && s.slabs[q].page == b; assert q in t.slabs && t.slabs[q].page == b; }
  }

  /** A block fresh from the physical allocator backs no slab and was never dropped. */
  lemma FreshPage(L: Layout, h: HeapState, k: nat)
    requires HeapInv(L, h) && k < 3 && CanAlloc(h.g, k)
    ensures var p, g := AllocAddr(h.g, k), Alloc(h.g, k);
      && PmInv(L, g) && SlabInv(L, g, h.s) && IsUsed(g, p) && g.blocks[p] == k
      && !IsPage(h.s, p) && p !in h.s.dropped
      && (forall b :: IsUsed(g, b) <==> IsUsed(h.g, b) || b == p) && !IsUsed(h.g, p)
      && g.lo == h.g.lo && g.hi == h.g.hi
      && (forall b :: IsUsed(h.g, b) ==> g.blocks[b] == h.g.blocks[b])
  {
    AllocInv(L, h.g, k);
    PagesMono(h.g, Alloc(h.g, k), h.s);
  }

  lemma AddedPages(s: SlabState, t: SlabState, hdr: int, k: nat, p: int, bits: set<nat>, b: int)
    requires hdr !in s.slabs && t.slabs == s.slabs[hdr := Slab(k, p, bits)]
    ensures IsPage(t, b) <==> IsPage(s, b) || b == p
  {
    if IsPage(s, b) { var q :| q in s.slabs && s.slabs[q].page == b; assert q in t.slabs && t.slabs[q].page == b; }
    if b == p { assert hdr in t.slabs && t.slabs[hdr].page == b; }
  }

  lemma Grow64Ok(L: Layout, h: HeapState)
    requires HeapInv(L, h) && CanAlloc(h.g, 0)
    ensures |h.s.lists| == CLASSES
    ensures var r := Grow64(h); HeapInv(L, r.h) && OnlyAdds(h, r.h, r.addr, 0)
  {
    hide ListsOk, PagesOk, SlotsOk, HeadersOk, PmCore, Alloc, AllocAddr, CanAlloc, ClientsPlus, InService;
    FreeLen(L, h.g);
    FreshPage(L, h, 0);
    var p, g := AllocAddr(h.g, 0), Alloc(h.g, 0);
    NewSlab64Inv(L, g, h.s, p);
    ListsLen(L, h.s);
    HdrsListed(L, h.g, h.s);
    Grow64Clients(h, p, g);
    forall b ensures IsPage(NewSlab64(h.s, p), b) <==> IsPage(h.s, b) || b == p {
      AddedPages(h.s, NewSlab64(h.s, p), p, 0, p, {0, 1}, b);
    }
    hide IsPage;
    PageAddedForeign(h, Grow64(h).h, p);
  }

  lemma Grow64Clients(h: HeapState, p: int, g: PmState)
    requires |h.s.lists| == CLASSES && p !in h.s.slabs && p !in h.s.occ && p + 64 !in h.s.occ
    requires forall a :: a in h.s.occ ==> h.s.occ[a].hdr in h.s.slabs
    ensures ClientsPlus(h, HeapState(g, NewSlab64(h.s, p)), p + 64, 0)
  {
  }

  /** When the only new block in use is the only new page, the others' blocks are the same. */
  lemma PageAddedForeign(h: HeapState, h': HeapState, p: int)
    requires forall b :: IsUsed(h'.g, b) <==> IsUsed(h.g, b) || b == p
    requires forall b :: IsPage(h'.s, b) <==> IsPage(h.s, b) || b == p
    requires !IsUsed(h.g, p) && h'.s.dropped == h.s.dropped && h'.g.lo == h.g.lo && h'.g.hi == h.g.hi
    requires forall b :: IsUsed(h.g, b) ==> b in h'.g.blocks && h'.g.blocks[b] == h.g.blocks[b]
    ensures SameForeign(h, h')
  {
    hide IsPage;
  }

  lemma HdrsListed(L: Layout, g: PmState, s: SlabState)
    requires Placed(L, g, s)
    ensures forall a :: a in s.occ ==> s.occ[a].hdr in s.slabs
  {
    forall a | a in s.occ ensures s.occ[a].hdr in s.slabs { assert Taken(s, s.occ[a].hdr, s.occ[a].slot); }
  }

  lemma KAlloc64Ok(L: Layout, h: HeapState)
    requires HeapInv(L, h)
    ensures var r := KAlloc64(L, h); r.Done? ==>
      && HeapInv(L, r.value.h) && |r.value.h.g.free| == 3 && |r.value.h.s.lists| == CLASSES
      && r.value.addr in r.value.h.s.occ && OnlyAdds(h, r.value.h, r.value.addr, 0)
  {
    if HasOpen(L, h.s, 0) { TakeOk(L, h, 0); } else if CanAlloc(h.g, 0) { Grow64Ok(L, h); }
  }

  lemma GrowOk(L: Layout, h: HeapState, k: nat, hdr: int)
    requires HeapInv(L, h) && 0 < k < CLASSES && CanAlloc(h.g, PageLevel(k)) && ClientOf(h, hdr, 0)
    ensures |h.s.lists| == CLASSES
    ensures var r := Grow(h, k, hdr);
      HeapInv(L, r.h) && HeaderMoves(h, r.h, hdr, r.addr, k) && SameForeign(h, r.h)
  {
    FreshPage(L, h, PageLevel(k));
    var p, g := AllocAddr(h.g, PageLevel(k)), Alloc(h.g, PageLevel(k));
    NewSlabInv(L, g, h.s, k, hdr, p);
    ListsLen(L, h.s);
    HdrsListed(L, h.g, h.s);
    hide SlabInv, PmInv, IsUsed;
    GrowClients(h, k, hdr, p, g);
    forall b ensures IsPage(NewSlab(h.s, k, hdr, p), b) <==> IsPage(h.s, b) || b == p {
      AddedPages(h.s, NewSlab(h.s, k, hdr, p), hdr, k, p, {0}, b);
    }
    hide IsPage, HeaderMoves;
    PageAddedForeign(h, Grow(h, k, hdr).h, p);
  }

  /** Client block `hdr` becomes a header and `a` a client block of class k. */
  ghost predicate HeaderMoves(h: HeapState, h': HeapState, hdr: int, a: int, k: nat) {
    && !IsClient(h.s, a) && ClientOf(h', a, k) && !IsClient(h'.s, hdr)
    && forall b, j :: b != a && b != hdr ==> (ClientOf(h', b, j) <==> ClientOf(h, b, j))
  }

  lemma GrowClients(h: HeapState, k: nat, hdr: int, p: int, g: PmState)
    requires |h.s.lists| == CLASSES && 0 < k < CLASSES && hdr in h.s.occ && hdr !in h.s.slabs && p !in h.s.occ
    requires p != hdr
    requires forall a :: a in h.s.occ ==> h.s.occ[a].hdr in h.s.slabs
    ensures HeaderMoves(h, HeapState(g, NewSlab(h.s, k, hdr, p)), hdr, p, k)
  {
  }

  lemma HeapLists(L: Layout, h: HeapState)
    requires HeapInv(L, h)
    ensures ListsOk(L, h.s) && |h.g.free| == 3 && forall a :: a in h.s.occ ==> h.s.occ[a].hdr in h.s.slabs
  {
    HdrsListed(L, h.g, h.s);
  }

  /** `kmalloc` adds exactly one client block, of the class asked for, and takes blocks from nobody. */
  lemma KAllocOk(L: Layout, h: HeapState, k: nat)
    requires HeapInv(L, h) && k < CLASSES
    ensures var r := KAlloc(L, h, k); r.Done? ==> HeapInv(L, r.value.h) && OnlyAdds(h, r.value.h, r.value.addr, k)
  {
    hide HeapInv, ListsOk, OnlyAdds, HasOpen, Take, Grow, HeaderMoves, SameForeign, CanAlloc, KAlloc64;
    HeapLists(L, h);
    KAlloc64Ok(L, h);
    if k > 0 {
      if HasOpen(L, h.s, k) {
        TakeOk(L, h, k);
      } else if KAlloc64(L, h).Done? {
        var inner := KAlloc64(L, h).value;
        if CanAlloc(inner.h.g, PageLevel(k)) {
          AddsClient(h, inner.h, inner.addr, 0);
          GrowOk(L, inner.h, k, inner.addr);
          HeaderThenBlock(h, inner.h, KAlloc(L, h, k).value.h, inner.addr, KAlloc(L, h, k).value.addr, k);
        }
      }
    }
  }

  lemma AddsClient(h: HeapState, h': HeapState, a: int, k: nat)
    requires OnlyAdds(h, h', a, k)
    ensures ClientOf(h', a, k)
  {
    hide SameForeign;
  }

  /** Allocating the header and then turning it into one adds just the new block. */
  lemma HeaderThenBlock(h: HeapState, i: HeapState, h': HeapState, hdr: int, a: int, k: nat)
    requires OnlyAdds(h, i, hdr, 0) && HeaderMoves(i, h', hdr, a, k) && SameForeign(i, h')
    requires forall b :: b in h.s.occ ==> h.s.occ[b].hdr in h.s.slabs
    ensures OnlyAdds(h, h', a, k)
  {
    assert hdr != a by { assert IsClient(i.s, hdr); }
    assert !IsClient(h.s, a) by {
      if IsClient(h.s, a) { assert ClientOf(h, a, BlockClass(h.s, a)); }
    }
  }

  // ---- Freeing ----

  lemma FreeFacts(L: Layout, h: HeapState, a: int)
    requires HeapInv(L, h) && IsClient(h.s, a)
    ensures |h.g.free| == 3 && |h.s.lists| == CLASSES && h.s.occ[a].hdr in h.s.slabs
    ensures Placed(L, h.g, Release(h.s, a))
    ensures forall hdr :: hdr in h.s.slabs && hdr != h.s.occ[a].hdr ==> InService(L, Release(h.s, a), hdr)
  {
    ListsLen(L, h.s);
    ReleasePlaced(L, h.g, h.s, a);
    var t := Release(h.s, a);
    forall hdr | hdr in h.s.slabs && hdr != h.s.occ[a].hdr ensures InService(L, t, hdr) {
      assert InService(L, h.s, hdr);
    }
  }

  lemma RetireFacts(L: Layout, h: HeapState, a: int)
    requires HeapInv(L, h) && IsClient(h.s, a) && h.s.occ[a].hdr in h.s.slabs
    requires h.s.occ[a].hdr >= L.kernelEnd && Release(h.s, a).slabs[h.s.occ[a].hdr].bits == {}
    ensures var s, hdr := Release(h.s, a), h.s.occ[a].hdr;
      && hdr in s.occ && s.slabs[hdr].cls > 0 && s.slabs[hdr].cls < |s.lists|
      && HeapInv(L, HeapState(h.g, Retire(s, hdr))) && IsClient(Retire(s, hdr), hdr)
      && Retire(s, hdr).occ[hdr].hdr in Retire(s, hdr).slabs && BlockClass(Retire(s, hdr), hdr) == 0
      && |h.g.free| == 3 && |Retire(s, hdr).lists| == CLASSES
  {
    FreeFacts(L, h, a);
    var s, hdr := Release(h.s, a), h.s.occ[a].hdr;
    if s.slabs[hdr].cls == 0 {
      DynamicHoldsItself(L, s, hdr);
    }
    RetireInv(L, h.g, s, hdr);
  }

  lemma ReleaseClients(h: HeapState, a: int)
    requires a in h.s.occ && h.s.occ[a].hdr in h.s.slabs
    ensures ClientsLess(h, HeapState(h.g, Release(h.s, a)), a)
  {
  }

  lemma ReleaseSamePages(s: SlabState, a: int, b: int)
    requires a in s.occ && s.occ[a].hdr in s.slabs
    ensures IsPage(Release(s, a), b) <==> IsPage(s, b)
  {
    var t := Release(s, a);
    if IsPage(s, b) { var q :| q in s.slabs && s.slabs[q].page == b; assert q in t.slabs && t.slabs[q].page == b; }
  }

  lemma ReleaseForeign(h: HeapState, a: int)
    requires a in h.s.occ && h.s.occ[a].hdr in h.s.slabs
    ensures SameForeign(h, HeapState(h.g, Release(h.s, a)))
  {
    forall b ensures IsPage(Release(h.s, a), b) <==> IsPage(h.s, b) { ReleaseSamePages(h.s, a, b); }
  }

  lemma RemovedPages(s: SlabState, t: SlabState, hdr: int, b: int)
    requires hdr in s.slabs && t.slabs == s.slabs - {hdr}
    requires forall q :: q in s.slabs && q != hdr ==> s.slabs[q].page != s.slabs[hdr].page
    ensures IsPage(t, b) <==> IsPage(s, b) && b != s.slabs[hdr].page
  {
    if IsPage(s, b) && b != s.slabs[hdr].page {
      var q :| q in s.slabs && s.slabs[q].page == b;
      assert q in t.slabs && t.slabs[q].page == b;
    }
  }

  lemma GiveBackForeign(h: HeapState, hdr: int)
    requires hdr in h.s.slabs && |h.s.lists| == CLASSES && |h.g.free| == 3 && h.s.slabs[hdr].page == hdr
    requires forall q :: q in h.s.slabs && q != hdr ==> h.s.slabs[q].page != hdr
    requires forall c :: IsUsed(Push(h.g, 0, hdr), c) <==> IsUsed(h.g, c) && c != hdr
    ensures SameForeign(h, HeapState(Push(h.g, 0, hdr), GiveBack(h.s, hdr)))
  {
    var t := GiveBack(h.s, hdr);
    assert IsPage(h.s, hdr);
    forall b ensures IsPage(t, b) <==> IsPage(h.s, b) && b != hdr { RemovedPages(h.s, t, hdr, b); }
    hide IsPage, GiveBack;
  }

  lemma GiveBackClients(h: HeapState, hdr: int)
    requires hdr in h.s.slabs && |h.s.lists| == CLASSES && |h.g.free| == 3
    requires forall b :: b in h.s.occ && b != hdr ==> h.s.occ[b].hdr != hdr
    requires !IsClient(h.s, hdr)
    ensures ClientsLess(h, HeapState(Push(h.g, 0, hdr), GiveBack(h.s, hdr)), hdr)
  {
  }

  lemma LessTwice(h: HeapState, i: HeapState, h': HeapState, a: int, hdr: int)
    requires OnlyRemoves(h, i, a) && OnlyRemoves(i, h', hdr) && !IsClient(i.s, hdr)
    requires forall b :: b in h'.s.occ ==> h'.s.occ[b].hdr in h'.s.slabs
    ensures OnlyRemoves(h, h', a)
  {
    assert !IsClient(h'.s, a) by {
      if IsClient(h'.s, a) { assert ClientOf(h', a, BlockClass(h'.s, a)); }
    }
  }

  /** Freeing a 64-byte block, or any block whose slab stays in service. */
  lemma KFree64Ok(L: Layout, h: HeapState, a: int)
    requires HeapInv(L, h) && IsClient(h.s, a)
    requires h.s.occ[a].hdr in h.s.slabs && |h.g.free| == 3 && |h.s.lists| == CLASSES
    requires h.s.occ[a].hdr >= L.kernelEnd ==> Release(h.s, a).slabs[h.s.occ[a].hdr].bits != {}
    ensures HeapInv(L, KFree64(L, h, a)) && OnlyRemoves(h, KFree64(L, h, a), a)
  {
    FreeFacts(L, h, a);
    var hdr, s := h.s.occ[a].hdr, Release(h.s, a);
    var mid := HeapState(h.g, s);
    ReleaseClients(h, a);
    ReleaseForeign(h, a);
    if hdr >= L.kernelEnd && s.slabs[hdr].cls == 0 && s.slabs[hdr].bits == {0} {
      GiveBackInv(L, h.g, s, hdr);
      PushInv(L, h.g, 0, hdr);
      GiveBackOk(L, mid, hdr);
      HdrsListed(L, Push(h.g, 0, hdr), GiveBack(s, hdr));
      hide Placed, PmCore, IsClient, ClientsLess, SameForeign, InService;
      LessTwice(h, mid, KFree64(L, h, a), a, hdr);
    } else {
      hide Placed, PmCore, IsClient, ClientsLess, SameForeign;
      StillInService(L, h, a);
    }
  }

  lemma StillInService(L: Layout, h: HeapState, a: int)
    requires HeapInv(L, h) && IsClient(h.s, a) && h.s.occ[a].hdr in h.s.slabs
    requires var s, hdr := Release(h.s, a), h.s.occ[a].hdr;
      hdr >= L.kernelEnd ==> s.slabs[hdr].bits != {} && (s.slabs[hdr].cls == 0 ==> s.slabs[hdr].bits != {0})
    ensures forall q :: q in Release(h.s, a).slabs ==> InService(L, Release(h.s, a), q)
  {
    FreeFacts(L, h, a);
    var s, hdr := Release(h.s, a), h.s.occ[a].hdr;
    assert InService(L, s, hdr);
  }

  lemma GiveBackOk(L: Layout, h: HeapState, hdr: int)
    requires PmInv(L, h.g) && Placed(L, h.g, h.s) && hdr in h.s.slabs && hdr >= L.kernelEnd
    requires h.s.slabs[hdr].cls == 0 && h.s.slabs[hdr].bits == {0}
    requires IsUsed(h.g, hdr) && h.g.blocks[hdr] == 0 && h.s.slabs[hdr].page == hdr
    ensures |h.s.lists| == CLASSES && |h.g.free| == 3 && !IsClient(h.s, hdr)
    ensures OnlyRemoves(h, HeapState(Push(h.g, 0, hdr), GiveBack(h.s, hdr)), hdr)
  {
    PushInv(L, h.g, 0, hdr);
    forall b | b in h.s.occ && b != hdr ensures h.s.occ[b].hdr != hdr { OnlyItself(h.s, hdr, b); }
    GiveBackForeign(h, hdr);
    GiveBackClients(h, hdr);
  }

  lemma RetireClients(h: HeapState, hdr: int)
    requires hdr in h.s.slabs && hdr in h.s.occ && h.s.slabs[hdr].cls < |h.s.lists| && h.s.occ[hdr].hdr in h.s.slabs
    requires h.s.occ[hdr].hdr != hdr
    requires forall b :: b in h.s.occ ==> h.s.occ[b].hdr != hdr
    ensures forall b, j :: b != hdr ==> (ClientOf(HeapState(h.g, Retire(h.s, hdr)), b, j) <==> ClientOf(h, b, j))
  {
  }

  lemma RetireForeign(h: HeapState, hdr: int)
    requires hdr in h.s.slabs && hdr in h.s.occ && h.s.slabs[hdr].cls < |h.s.lists|
    requires forall q :: q in h.s.slabs && q != hdr ==> h.s.slabs[q].page != h.s.slabs[hdr].page
    ensures SameForeign(h, HeapState(h.g, Retire(h.s, hdr)))
  {
    var t := Retire(h.s, hdr);
    assert IsPage(h.s, h.s.slabs[hdr].page);
    forall b ensures IsPage(t, b) <==> IsPage(h.s, b) && b != h.s.slabs[hdr].page { RemovedPages(h.s, t, hdr, b); }
    hide IsPage, IsUsed;
  }

  /** Unlinking the emptied slab: its header block is a client block for the moment. */
  lemma RetireOk(L: Layout, h: HeapState, a: int)
    requires HeapInv(L, h) && IsClient(h.s, a) && h.s.occ[a].hdr in h.s.slabs
    requires h.s.occ[a].hdr >= L.kernelEnd && Release(h.s, a).slabs[h.s.occ[a].hdr].bits == {}
    ensures var s, hdr := Release(h.s, a), h.s.occ[a].hdr;
      && hdr in s.occ && s.slabs[hdr].cls < |s.lists|
      && var i := HeapState(h.g, Retire(s, hdr));
      && SameForeign(h, i) && !IsClient(h.s, hdr) && !IsClient(i.s, a)
      && forall b, j :: b != a && b != hdr ==> (ClientOf(i, b, j) <==> ClientOf(h, b, j))
  {
    FreeFacts(L, h, a);
    RetireFacts(L, h, a);
    ReleaseClients(h, a);
    ReleaseForeign(h, a);
    var s, hdr := Release(h.s, a), h.s.occ[a].hdr;
    forall b | b in s.occ ensures s.occ[b].hdr != hdr { assert Taken(s, s.occ[b].hdr, s.occ[b].slot); }
    RetireInv(L, h.g, s, hdr);
    RetireClients(HeapState(h.g, s), hdr);
    PagesDistinct(h.g, s, hdr);
    RetireForeign(HeapState(h.g, s), hdr);
    HeadersAreNotClients(L, h.g, h.s, hdr);
    hide HeapInv, Placed, IsClient, Foreign, BlockClass;
    RetireCompose(h, HeapState(h.g, s), HeapState(h.g, Retire(s, hdr)), a, hdr);
  }

  lemma PagesDistinct(g: PmState, s: SlabState, hdr: int)
    requires PagesOk(g, s) && hdr in s.slabs
    ensures forall q :: q in s.slabs && q != hdr ==> s.slabs[q].page != s.slabs[hdr].page
  {
  }

  lemma HeadersAreNotClients(L: Layout, g: PmState, s: SlabState, hdr: int)
    requires Placed(L, g, s) && hdr in s.slabs && hdr >= L.kernelEnd
    ensures !IsClient(s, hdr)
  {
  }

  lemma RetireCompose(h: HeapState, r: HeapState, i: HeapState, a: int, hdr: int)
    requires ClientsLess(h, r, a) && SameForeign(h, r) && SameForeign(r, i) && a != hdr
    requires forall b, j :: b != hdr ==> (ClientOf(i, b, j) <==> ClientOf(r, b, j))
    requires a !in i.s.occ
    ensures SameForeign(h, i) && !IsClient(i.s, a)
    ensures forall b, j :: b != a && b != hdr ==> (ClientOf(i, b, j) <==> ClientOf(h, b, j))
  {
  }

  /** `kmfree` removes exactly the client block it is given and touches nobody else's blocks,
      whether or not a slab is unlinked, a header freed in turn, or a page given back. */
  lemma KFreeOk(L: Layout, h: HeapState, a: int)
    requires HeapInv(L, h) && IsClient(h.s, a)
    ensures HeapInv(L, KFree(L, h, a)) && OnlyRemoves(h, KFree(L, h, a), a)
  {
    FreeFacts(L, h, a);
    var s, hdr := Release(h.s, a), h.s.occ[a].hdr;
    if hdr >= L.kernelEnd && s.slabs[hdr].bits == {} {
      RetireFacts(L, h, a);
      RetireOk(L, h, a);
      var i := HeapState(h.g, Retire(s, hdr));
      RetiredHeaderStays(L, i, hdr);
      KFree64Ok(L, i, hdr);
      var h' := KFree64(L, i, hdr);
      HdrsListed(L, h'.g, h'.s);
      hide HeapInv, Foreign;
      FreeCompose(h, i, h', a, hdr);
    } else {
      KFree64Ok(L, h, a);
    }
  }

  lemma FreeCompose(h: HeapState, i: HeapState, h': HeapState, a: int, hdr: int)
    requires SameForeign(h, i) && !IsClient(h.s, hdr) && !IsClient(i.s, a)
    requires forall b, j :: b != a && b != hdr ==> (ClientOf(i, b, j) <==> ClientOf(h, b, j))
    requires OnlyRemoves(i, h', hdr) && forall b :: b in h'.s.occ ==> h'.s.occ[b].hdr in h'.s.slabs
    ensures OnlyRemoves(h, h', a)
  {
    assert !IsClient(h'.s, a) by {
      if IsClient(h'.s, a) { assert ClientOf(h', a, BlockClass(h'.s, a)); }
    }
  }

  /** The freed header came from a 64-byte slab that, if dynamic, still holds its own header. */
  lemma RetiredHeaderStays(L: Layout, h: HeapState, a: int)
    requires HeapInv(L, h) && ClientOf(h, a, 0)
    ensures h.s.occ[a].hdr >= L.kernelEnd ==> Release(h.s, a).slabs[h.s.occ[a].hdr].bits != {}
  {
    var hdr := h.s.occ[a].hdr;
    if hdr >= L.kernelEnd {
      FreeFacts(L, h, a);
      DynamicHoldsItself(L, Release(h.s, a), hdr);
    }
  }

  // ---- Where the pages go ----

  /** The last client of a dynamic slab above 64 bytes. */
  ghost predicate EmptiesLarge(L: Layout, s: SlabState, a: int)
    requires IsClient(s, a) && s.occ[a].hdr in s.slabs
  {
    var o := s.occ[a];
    o.hdr >= L.kernelEnd && s.slabs[o.hdr].cls > 0 && s.slabs[o.hdr].bits == {o.slot}
  }

  /** The page is given back: it was that of a listed 64-byte slab. */
  ghost predicate Returned(L: Layout, h: HeapState, h': HeapState, q: int)
    requires |h.g.free| == 3
  {
    && q in h.s.slabs && q >= L.kernelEnd && h.s.slabs[q].cls == 0 && h.s.slabs[q].page == q && q !in h'.s.slabs
    && h'.g == Push(h.g, 0, q) && h'.s.returned == h.s.returned + 1
  }

  /** Page accounting of `kmfree`: a page is dropped exactly when a slab above 64 bytes empties, and
      the only pages given back are those of 64-byte slabs. */
  lemma PageAccounting(L: Layout, h: HeapState, a: int)
    requires HeapInv(L, h) && IsClient(h.s, a)
    ensures |h.g.free| == 3 && h.s.occ[a].hdr in h.s.slabs
    ensures var h' := KFree(L, h, a);
      && h'.s.taken == h.s.taken
      && h'.s.dropped == (if EmptiesLarge(L, h.s, a) then h.s.dropped + {h.s.slabs[h.s.occ[a].hdr].page}
         else h.s.dropped)
      && ((h'.g == h.g && h'.s.returned == h.s.returned) || exists q :: Returned(L, h, h', q))
  {
    FreeFacts(L, h, a);
    var s, hdr := Release(h.s, a), h.s.occ[a].hdr;
    SlotHeld(L, h, a);
    if hdr >= L.kernelEnd && s.slabs[hdr].bits == {} {
      RetireFacts(L, h, a);
      var i := HeapState(h.g, Retire(s, hdr));
      SameSelf64(L, i);
      hide HeapInv, Placed, IsClient;
      GivesBack(L, h, i, hdr);
    } else {
      SameSelf64(L, h);
      hide HeapInv, Placed, IsClient;
      GivesBack(L, h, h, a);
    }
  }

  /** The pages `kmalloc` takes: none where a slot is open, else one, after one for the header where the
      64-byte class has no slot either. */
  ghost predicate TookPages(L: Layout, h: HeapState, h': HeapState, k: nat)
    requires HeapInv(L, h) && k < CLASSES && ListsOk(L, h.s) && |h.g.free| == 3
  {
    var header, grows := k > 0 && !HasOpen(L, h.s, 0), !HasOpen(L, h.s, k);
    && h'.s.taken == h.s.taken + (if !grows then 0 else if header then 2 else 1)
    && (!grows ==> h'.g == h.g)
    && (grows && !header ==> CanAlloc(h.g, PageLevel(k)) && h'.g == Alloc(h.g, PageLevel(k)))
    && (grows && header ==>
          && CanAlloc(h.g, 0) && |Alloc(h.g, 0).free| == 3
          && CanAlloc(Alloc(h.g, 0), PageLevel(k)) && h'.g == Alloc(Alloc(h.g, 0), PageLevel(k)))
  }

  /** Page accounting of `kmalloc`: it drops and gives back nothing, and the pages it takes are those of
      the slabs it adds: none where a slot is open, one where the header (if any) has a slot, else two. */
  lemma TakenAccounting(L: Layout, h: HeapState, k: nat)
    requires HeapInv(L, h) && k < CLASSES
    ensures |h.g.free| == 3 && ListsOk(L, h.s)
    ensures KAlloc(L, h, k).Done? ==>
      var h' := KAlloc(L, h, k).value.h;
      h'.s.dropped == h.s.dropped && h'.s.returned == h.s.returned && TookPages(L, h, h', k)
  {
    hide HeapInv, ListsOk, OnlyAdds, HasOpen, OpenHdr, OpenSlot, CanAlloc, Alloc, AllocAddr;
    HeapLists(L, h);
    KAlloc64Ok(L, h);
  }

  lemma SlotHeld(L: Layout, h: HeapState, a: int)
    requires HeapInv(L, h) && IsClient(h.s, a) && h.s.occ[a].hdr in h.s.slabs
    ensures h.s.occ[a].slot in h.s.slabs[h.s.occ[a].hdr].bits
    ensures Release(h.s, a).slabs[h.s.occ[a].hdr].bits == {} ==> h.s.slabs[h.s.occ[a].hdr].bits == {h.s.occ[a].slot}
    ensures h.s.occ[a].hdr >= L.kernelEnd && h.s.slabs[h.s.occ[a].hdr].bits == {h.s.occ[a].slot} ==>
      h.s.slabs[h.s.occ[a].hdr].cls > 0
  {
    var hdr := h.s.occ[a].hdr;
    assert Taken(h.s, hdr, h.s.occ[a].slot);
    assert InService(L, h.s, hdr);
    if hdr >= L.kernelEnd && h.s.slabs[hdr].cls == 0 { DynamicHoldsItself(L, h.s, hdr); }
  }

  /** A dynamic 64-byte slab starts its own page. */
  lemma SameSelf64(L: Layout, h: HeapState)
    requires HeapInv(L, h)
    ensures forall q :: q in h.s.slabs && q >= L.kernelEnd && h.s.slabs[q].cls == 0 ==> h.s.slabs[q].page == q
  {
    hide PmInv, IsUsed;
  }

  lemma GivesBack(L: Layout, h: HeapState, i: HeapState, a: int)
    requires |h.g.free| == 3 && i.g == h.g && |i.s.lists| == CLASSES && a in i.s.occ && i.s.occ[a].hdr in i.s.slabs
    requires i.s.returned == h.s.returned
    requires forall q :: q in i.s.slabs && i.s.slabs[q].cls == 0 ==>
      q in h.s.slabs && h.s.slabs[q].cls == 0 && (q >= L.kernelEnd ==> h.s.slabs[q].page == q)
    ensures var h' := KFree64(L, i, a);
      && h'.s.taken == i.s.taken && h'.s.dropped == i.s.dropped
      && ((h'.g == h.g && h'.s.returned == h.s.returned) || exists q :: Returned(L, h, h', q))
  {
    var hdr, s := i.s.occ[a].hdr, Release(i.s, a);
    if hdr >= L.kernelEnd && s.slabs[hdr].cls == 0 && s.slabs[hdr].bits == {0} {
      assert Returned(L, h, KFree64(L, i, a), hdr);
    }
  }

  // ---- Every run ----

  datatype Call = Malloc(size: nat) | Free(addr: int)

  /** A client block whose address is a multiple of its slot size, as `kmfree` demands. */
  ghost predicate Freeable(s: SlabState, a: int) {
    IsClient(s, a) && s.occ[a].hdr in s.slabs && a % ClassSize(BlockClass(s, a)) == 0
  }

  /** The call neither panics nor frees something that is not a client block. */
  ghost predicate Legal(L: Layout, h: HeapState, c: Call)
    requires HeapInv(L, h)
  {
    match c
    case Malloc(size) => SizeToClass(size).Done? && KAlloc(L, h, SizeToClass(size).value).Done?
    case Free(a) => Freeable(h.s, a)
  }

  ghost function Next(L: Layout, h: HeapState, c: Call): (h': HeapState)
    requires HeapInv(L, h) && Legal(L, h, c)
    ensures HeapInv(L, h') && SameForeign(h, h')
  {
    match c
    case Malloc(size) =>
      KAllocOk(L, h, SizeToClass(size).value);
      KAlloc(L, h, SizeToClass(size).value).value.h
    case Free(a) =>
      KFreeOk(L, h, a);
      KFree(L, h, a)
  }

  ghost predicate Run(L: Layout, h: HeapState, calls: seq<Call>, h': HeapState)
    requires HeapInv(L, h)
    decreases |calls|
  {
    if calls == [] then h' == h else Legal(L, h, calls[0]) && Run(L, Next(L, h, calls[0]), calls[1..], h')
  }

  /** Whatever the calls, blocks still tile the same interval, all occupants are apart, and everybody
      else's blocks are exactly the ones they were. */
  lemma {:induction false} RunSafe(L: Layout, h: HeapState, calls: seq<Call>, h': HeapState)
    requires HeapInv(L, h) && Run(L, h, calls, h')
    ensures HeapInv(L, h') && SameForeign(h, h') && Tiled(h'.g.blocks, h.g.lo, h.g.hi)
    ensures forall a, b :: a in h'.s.occ && b in h'.s.occ && a < b ==>
      h'.s.occ[a].hdr in h'.s.slabs && a + ClassSize(BlockClass(h'.s, a)) <= b
    decreases |calls|
  {
    hide Next, Legal, HeapInv, Foreign, Tiled, ClassSize, BlockClass;
    if calls != [] {
      var i := Next(L, h, calls[0]);
      RunSafe(L, i, calls[1..], h');
    } else {
      AllApart(L, h);
    }
  }

  lemma AllApart(L: Layout, h: HeapState)
    requires HeapInv(L, h)
    ensures Tiled(h.g.blocks, h.g.lo, h.g.hi)
    ensures forall a, b :: a in h.s.occ && b in h.s.occ && a < b ==>
      h.s.occ[a].hdr in h.s.slabs && a + ClassSize(BlockClass(h.s, a)) <= b
  {
    HdrsListed(L, h.g, h.s);
    forall a, b | a in h.s.occ && b in h.s.occ && a < b ensures a + ClassSize(BlockClass(h.s, a)) <= b {
      OccupantsApart(L, h.g, h.s, a, b);
    }
  }

  // ---- Dropped pages over a run ----

  /** Some call of the run emptied a slab above 64 bytes that page `p` backed. */
  ghost predicate Drops(L: Layout, h: HeapState, calls: seq<Call>, p: int)
    requires HeapInv(L, h)
    decreases |calls|
  {
    && calls != [] && Legal(L, h, calls[0])
    && ((calls[0].Free? && DropsPage(L, h.s, calls[0].addr, p)) || Drops(L, Next(L, h, calls[0]), calls[1..], p))
  }

  ghost predicate DropsPage(L: Layout, s: SlabState, a: int, p: int) {
    && IsClient(s, a) && s.occ[a].hdr in s.slabs && EmptiesLarge(L, s, a) && s.slabs[s.occ[a].hdr].page == p
  }

  /** Over any run dropped pages only accumulate, and each was dropped by emptying a slab above 64
      bytes: the 64-byte class never drops one. */
  lemma {:induction false} DroppedByLarge(L: Layout, h: HeapState, calls: seq<Call>, h': HeapState)
    requires HeapInv(L, h) && Run(L, h, calls, h')
    ensures h.s.dropped <= h'.s.dropped && h.s.returned <= h'.s.returned && h.s.taken <= h'.s.taken
    ensures forall p :: p in h'.s.dropped && p !in h.s.dropped ==> Drops(L, h, calls, p)
    decreases |calls|
  {
    hide Next, Legal, HeapInv, DropsPage;
    if calls != [] {
      var i := Next(L, h, calls[0]);
      StepDrops(L, h, calls[0]);
      DroppedByLarge(L, i, calls[1..], h');
    }
  }

  lemma StepDrops(L: Layout, h: HeapState, c: Call)
    requires HeapInv(L, h) && Legal(L, h, c)
    ensures var i := Next(L, h, c);
      && h.s.dropped <= i.s.dropped && h.s.returned <= i.s.returned && h.s.taken <= i.s.taken
      && forall p :: p in i.s.dropped && p !in h.s.dropped ==> c.Free? && DropsPage(L, h.s, c.addr, p)
  {
    hide HeapInv, KAlloc, KFree, Freeable, IsClient, EmptiesLarge;
    match c
    case Malloc(size) => TakenAccounting(L, h, SizeToClass(size).value);
    case Free(a) => FreeableIs(h.s, a); PageAccounting(L, h, a);
  }

  lemma FreeableIs(s: SlabState, a: int)
    requires Freeable(s, a)
    ensures IsClient(s, a)
  {
  }

  // ---- Quiescence ----

  /** Each class is back to its static head with an empty bitmap. */
  ghost predicate Quiescent(L: Layout, s: SlabState) {
    && |s.lists| == CLASSES
    && forall k :: 0 <= k < CLASSES ==>
         s.lists[k] == [StaticHdr(L, k)] && StaticHdr(L, k) in s.slabs && s.slabs[StaticHdr(L, k)].bits == {}
  }

  /** An occupied slot of a slab above 64 bytes holds a client. */
  lemma LargeSlotIsClient(L: Layout, g: PmState, s: SlabState, h: int, j: nat)
    requires Placed(L, g, s) && Taken(s, h, j) && s.slabs[h].cls > 0
    ensures IsClient(s, SlotAddr(s, h, j))
  {
    var a := SlotAddr(s, h, j);
    assert a in s.occ && s.occ[a].hdr == h;
    assert !s.occ[a].client ==> BlockClass(s, a) == 0;
  }

  /** The block lies in slab `h`, or in a slab whose header lies in slab `h`. */
  ghost predicate NeedsSlab(s: SlabState, a: int, h: int)
    requires a in s.occ
  {
    s.occ[a].hdr == h || (s.occ[a].hdr in s.occ && s.occ[s.occ[a].hdr].hdr == h)
  }

  /** A dynamic slab has a client in it, or in a slab whose header it holds. */
  lemma DynamicHasClient(L: Layout, g: PmState, s: SlabState, h: int) returns (a: int)
    requires SlabInv(L, g, s) && h in s.slabs && h >= L.kernelEnd
    ensures IsClient(s, a) && NeedsSlab(s, a, h) && (s.slabs[h].cls > 0 ==> s.occ[a].hdr == h)
    decreases s.slabs[h].cls == 0
  {
    assert InService(L, s, h);
    if s.slabs[h].cls > 0 {
      var j :| j in s.slabs[h].bits;
      assert Taken(s, h, j);
      LargeSlotIsClient(L, g, s, h, j);
      a := SlotAddr(s, h, j);
    } else {
      DynamicHoldsItself(L, s, h);
      var j :| j in s.slabs[h].bits && j != 0;
      a := OccupiedHasClient(L, g, s, h, j);
    }
  }

  lemma OccupiedHasClient(L: Layout, g: PmState, s: SlabState, h: int, j: nat) returns (a: int)
    requires SlabInv(L, g, s) && h in s.slabs && j in s.slabs[h].bits && (h >= L.kernelEnd ==> j != 0)
    ensures IsClient(s, a) && NeedsSlab(s, a, h)
    decreases true, 0
  {
    a := SlotAddr(s, h, j);
    assert Taken(s, h, j);
    assert a in s.occ && s.occ[a].hdr == h && s.occ[a].slot == j;
    if !s.occ[a].client {
      assert s.slabs[a].cls > 0;
      a := DynamicHasClient(L, g, s, a);
    }
  }

  /** After any run in which every client block has been freed, in any order, all 14 lists are back
      to their static heads, and every page beyond those 14 was returned or dropped. */
  lemma QuiescentWhenAllFreed(L: Layout, h: HeapState, calls: seq<Call>, h': HeapState)
    requires HeapInv(L, h) && Run(L, h, calls, h')
    requires forall a :: !IsClient(h'.s, a)
    ensures Quiescent(L, h'.s) && h'.s.taken == CLASSES + |h'.s.dropped| + h'.s.returned
  {
    RunSafe(L, h, calls, h');
    var s := h'.s;
    forall q | q in s.slabs ensures q == StaticHdr(L, s.slabs[q].cls) && s.slabs[q].bits == {} {
      if q >= L.kernelEnd {
        var a := DynamicHasClient(L, h'.g, s, q);
      }
      if j :| j in s.slabs[q].bits {
        var a := OccupiedHasClient(L, h'.g, s, q, j);
      }
    }
    ListsLen(L, s);
    OnlyHeads(L, s);
    StaticCount(L, s);
  }

  lemma ListedClass(L: Layout, s: SlabState, k: nat, h: int)
    requires ListsOk(L, s) && k < CLASSES && h in s.lists[k]
    ensures h in s.slabs && s.slabs[h].cls == k
  {
  }

  lemma OnlyHeads(L: Layout, s: SlabState)
    requires ListsOk(L, s) && forall q :: q in s.slabs ==> q == StaticHdr(L, s.slabs[q].cls) && s.slabs[q].bits == {}
    ensures Quiescent(L, s)
  {
    forall k | 0 <= k < CLASSES ensures s.lists[k] == [StaticHdr(L, k)] && StaticHdr(L, k) in s.slabs {
      var l := s.lists[k];
      ListedClass(L, s, k, l[0]);
      assert |l| > 1 ==> l[0] != l[1];
      if |l| > 1 { ListedClass(L, s, k, l[1]); }
    }
  }

  lemma StaticCount(L: Layout, s: SlabState)
    requires ListsOk(L, s) && forall q :: q in s.slabs ==> q == StaticHdr(L, s.slabs[q].cls)
    ensures |s.slabs| == CLASSES
  {
    forall k | 0 <= k < CLASSES ensures StaticHdr(L, k) in s.slabs.Keys {
      assert s.lists[k][0] in s.lists[k];
    }
    var heads := set k | 0 <= k < CLASSES :: StaticHdr(L, k);
    forall q | q in s.slabs ensures q in heads {
      assert q == StaticHdr(L, s.slabs[q].cls) && s.slabs[q].cls < CLASSES;
    }
    assert s.slabs.Keys == heads;
    HeadCount(L, CLASSES);
    assert |s.slabs| == |s.slabs.Keys|;
  }

  lemma {:induction false} HeadCount(L: Layout, n: nat)
    ensures |set k | 0 <= k < n :: StaticHdr(L, k)| == n
  {
    var heads := set k | 0 <= k < n :: StaticHdr(L, k);
    if n == 0 {
      assert heads == {};
    } else {
      HeadCount(L, n - 1);
      var fewer := set k | 0 <= k < n - 1 :: StaticHdr(L, k);
      assert StaticHdr(L, n - 1) !in fewer;
      assert heads == fewer + {StaticHdr(L, n - 1)};
    }
  }
}
