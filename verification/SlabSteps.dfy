/** The memory side of each allocator step: the words written, that they represent the new abstract
    state, and that they leave everybody else's memory alone. */
module SlabSteps {
  import opened Bits
  import opened Memory
  import opened Blocks
  import opened Slabs
  import opened Heap
  import opened SlabMem

  /** Abstract state, free lists and headers, all represented in `m`. */
  ghost predicate Rep(L: Layout, h: HeapState, m: Mem) {
    HeapInv(L, h) && PmRep(L, m, h.g) && SlabRep(m, h.s)
  }

  lemma Parts(L: Layout, h: HeapState)
    requires HeapInv(L, h)
    ensures PmInv(L, h.g) && PmCore(L, h.g) && SlabInv(L, h.g, h.s) && Placed(L, h.g, h.s)
    ensures ListsOk(L, h.s) && PagesOk(h.g, h.s) && SlotsOk(h.s) && HeadersOk(L, h.s)
    ensures |h.s.lists| == CLASSES && |h.g.free| == 3 && HdrsIn(L, h.g, h.s, h.s)
    ensures forall k :: 0 <= k < CLASSES ==> |h.s.lists[k]| > 0
    ensures forall a :: a in h.s.occ ==> h.s.occ[a].hdr in h.s.slabs
  {
    HdrsListed(L, h.g, h.s);
  }

  lemma HeapCore(L: Layout, h: HeapState)
    requires HeapInv(L, h)
    ensures PmCore(L, h.g) && Placed(L, h.g, h.s) && ListsOk(L, h.s)
  {
  }

  /** What reading the header at position q of list k yields. */
  lemma EntryFacts(L: Layout, h: HeapState, m: Mem, k: nat, q: nat)
    requires Rep(L, h, m) && k < CLASSES && |h.s.lists| == CLASSES && q < |h.s.lists[k]|
    ensures var l := h.s.lists[k]; var e := l[q];
      && e in h.s.slabs && h.s.slabs[e].cls == k && e % 8 == 0 && e > 0
      && At(m, e) == h.s.slabs[e].page > 0
      && 0 <= At(m, e + BITMAP) < WORD_LIMIT && SetOf(At(m, e + BITMAP)) == h.s.slabs[e].bits
      && At(m, e + NEXT) == (if q + 1 < |l| then l[q + 1] else 0)
      && (e >= L.kernelEnd <==> q > 0)
      && (q == 0 ==> e == StaticHdr(L, k))
  {
    hide HeapInv, PmInv, PmCore, PmRep, Placed, SlabInv, ListsOk, PagesOk, SlotsOk, HeadersOk, HdrsIn, SetOf, IsUsed;
    Parts(L, h);
    ListHead(L, h.s, k);
    PositionIs(L, h.s, k, q);
    var e := h.s.lists[k][q];
    HdrPlace(L, h.g, h.s, e);
    HdrPage(h.g, h.s, e);
    assert HdrRep(m, h.s, e) && Threaded(m, h.s.lists[k]) && LinkOk(m, h.s.lists[k], q);
    PageAligned(L, h.g, h.s.slabs[e].page);
  }

  lemma NextNonzero(L: Layout, h: HeapState, k: nat, q: nat)
    requires HeapInv(L, h) && k < CLASSES && |h.s.lists| == CLASSES && q < |h.s.lists[k]|
    ensures h.s.lists[k][q] > 0
  {
    Parts(L, h);
    ListedClass(L, h.s, k, h.s.lists[k][q]);
    HdrPlace(L, h.g, h.s, h.s.lists[k][q]);
  }

  /** The first header that is not full and its lowest free slot are what the scan stops at. */
  lemma TakeIs(L: Layout, h: HeapState, k: nat, q: nat, j: nat)
    requires ListsOk(L, h.s) && k < CLASSES && q < |h.s.lists[k]|
    requires forall p :: 0 <= p < q ==> h.s.lists[k][p] in h.s.slabs && IsFull(h.s, h.s.lists[k][p])
    requires var e := h.s.lists[k][q];
      && e in h.s.slabs && h.s.slabs[e].cls == k && j < Slots(k) && j !in h.s.slabs[e].bits
      && forall i: nat :: i < j ==> i in h.s.slabs[e].bits
    ensures HasOpen(L, h.s, k) && OpenHdr(L, h.s, k) == h.s.lists[k][q] && OpenSlot(L, h.s, k) == j
  {
    var e := h.s.lists[k][q];
    assert !IsFull(h.s, e);
    FirstOpenIs(h.s, h.s.lists[k], q);
    LowestIs(h.s.slabs[e].bits, 0, Slots(k), j);
  }

  lemma InHdrBitmap(e: int)
    ensures InHdr(e, e + BITMAP) && InHdr(e, e + NEXT) && InHdr(e, e)
  {
  }

  lemma TakeSlotIs(s: SlabState, e: int, j: nat)
    requires e in s.slabs
    ensures var t := TakeSlot(s, e, j);
      t.slabs == s.slabs[e := s.slabs[e].(bits := s.slabs[e].bits + {j})] && t.lists == s.lists
  {
  }

  lemma TakeRep(L: Layout, h: HeapState, m: Mem, e: int, j: nat, w: Word)
    requires Rep(L, h, m) && e in h.s.slabs && j < 64 && w == At(m, e + BITMAP) && SetOf(w) == h.s.slabs[e].bits
    requires Pow2(j) < WORD_LIMIT && Or(w, Pow2(j)) < WORD_LIMIT && HeapInv(L, HeapState(h.g, TakeSlot(h.s, e, j)))
    ensures var m' := Put(m, e + BITMAP, Or(w, Pow2(j)));
      Rep(L, HeapState(h.g, TakeSlot(h.s, e, j)), m') && Kept(L, h, m, m')
  {
    hide *;
    RepIs(L, h, m);
    Parts(L, h);
    SetBit(w, j);
    TakeSlotIs(h.s, e, j);
    RepIs(L, HeapState(h.g, TakeSlot(h.s, e, j)), Put(m, e + BITMAP, Or(w, Pow2(j))));
    assert InHdr(e, e + BITMAP) by { InHdrBitmap(e); }
    HdrWriteKept(L, h, m, e, e + BITMAP, Or(w, Pow2(j)));
    HdrWritePm(L, h, m, e, e + BITMAP, Or(w, Pow2(j)));
    BitmapRep(L, h.g, h.s, TakeSlot(h.s, e, j), m, e, Or(w, Pow2(j)));
  }

  /** Zeroing the block just handed out. */
  lemma ZeroStep(L: Layout, h0: HeapState, h: HeapState, a: int, k: nat, m: Mem, m': Mem)
    requires Rep(L, h, m) && OnlyAdds(h0, h, a, k)
    requires forall x :: At(m', x) == if a <= x < a + ClassSize(k) then 0 else At(m, x)
    ensures Rep(L, h, m') && Kept(L, h0, m, m') && ZeroRange(m', a, ClassSize(k))
  {
    hide *;
    RepIs(L, h, m);
    RepIs(L, h, m');
    Parts(L, h);
    AddsParts(h0, h, a, k);
    ClientWrite(L, h, m, m', a);
    ZeroKept(L, h0, h, a, k, m, m');
  }

  lemma AddsParts(h0: HeapState, h: HeapState, a: int, k: nat)
    requires OnlyAdds(h0, h, a, k)
    ensures IsClient(h.s, a) && a in h.s.occ && h.s.occ[a].hdr in h.s.slabs && BlockClass(h.s, a) == k
    ensures SameForeign(h0, h) && forall b, j :: ClientOf(h0, b, j) ==> b != a && ClientOf(h, b, j)
  {
  }

  lemma ZeroKept(L: Layout, h0: HeapState, h: HeapState, a: int, k: nat, m: Mem, m': Mem)
    requires SameForeign(h0, h) && forall b, j :: ClientOf(h0, b, j) ==> b != a && ClientOf(h, b, j)
    requires forall x :: At(m', x) == if a <= x < a + ClassSize(k) then 0 else At(m, x)
    requires forall b, k, x :: ClientOf(h, b, k) && b != a && b <= x < b + ClassSize(k) ==> At(m', x) == At(m, x)
    requires forall b, x :: Foreign(h, b) && b <= x < b + Size(h.g.blocks[b]) ==> At(m', x) == At(m, x)
    requires forall x :: x < L.kernelEnd ==> At(m', x) == At(m, x)
    ensures Kept(L, h0, m, m') && ZeroRange(m', a, ClassSize(k))
  {
    hide ClientOf, IsUsed, IsPage, ClassSize;
  }

  /** The three header words of a new slab `n` and the link to it from the last header. */
  ghost function Grown(m: Mem, n: int, p: int, w: int, last: int): Mem {
    Put(Put(Put(m, n, p), n + BITMAP, w), last + NEXT, n)
  }

  lemma GrownRep(L: Layout, g: PmState, s: SlabState, t: SlabState, m: Mem, k: nat, n: int, p: int, w: Word, last: int)
    requires |s.lists| == CLASSES && k < CLASSES && s.lists[k] != [] && last == s.lists[k][|s.lists[k]| - 1]
    requires ListsOk(L, s) && SlabRep(m, s) && n !in s.slabs && last in s.slabs
    requires t.slabs == s.slabs[n := Slab(k, p, SetOf(w))] && t.lists == s.lists[k := s.lists[k] + [n]]
    requires HdrsIn(L, g, s, t) && At(m, n + NEXT) == 0
    ensures SlabRep(Grown(m, n, p, w, last), t)
  {
    hide HeapInv, PmInv, PmCore, PmRep, Placed, SlabInv, ListsOk, PagesOk, SlotsOk, HeadersOk, SlabRep, Kept, HdrsIn;
    hide SetOf;
    var m' := Grown(m, n, p, w, last);
    InIt(L, g, s, t);
    NotTheLink(L, g, t, n, last);
    GrownIs(m, n, p, w, last);
    GrownOnlyLink(L, g, s, t, m, n, p, w, last);
    GrownHdr(m', t, n);
    AppendRep(L, g, s, t, m, m', k, n);
  }

  lemma InIt(L: Layout, g: PmState, s: SlabState, t: SlabState)
    requires HdrsIn(L, g, s, t)
    ensures PmCore(L, g) && Placed(L, g, t) && forall h :: h in s.slabs ==> h in t.slabs
  {
  }

  lemma GrownHdr(m: Mem, t: SlabState, n: int)
    requires n in t.slabs && At(m, n) == t.slabs[n].page && 0 <= At(m, n + BITMAP) < WORD_LIMIT
    requires SetOf(At(m, n + BITMAP)) == t.slabs[n].bits
    ensures HdrRep(m, t, n)
  {
  }

  lemma GrownOnlyLink(L: Layout, g: PmState, s: SlabState, t: SlabState, m: Mem, n: int, p: int, w: int, last: int)
    requires HdrsIn(L, g, s, t) && n !in s.slabs && n in t.slabs && last in s.slabs
    ensures OnlyLink(s, m, Grown(m, n, p, w, last), last)
  {
    hide PmCore, Placed;
    forall h, x | h in s.slabs && InHdr(h, x) && x != last + NEXT ensures At(Grown(m, n, p, w, last), x) == At(m, x) {
      if h < n { HdrsApart(L, g, t, h, n); } else { HdrsApart(L, g, t, n, h); }
    }
  }

  lemma GrownKept(L: Layout, h: HeapState, m: Mem, n: int, p: int, w: int, last: int)
    requires PmCore(L, h.g) && Placed(L, h.g, h.s) && n in h.s.slabs && last in h.s.slabs && PmRep(L, m, h.g)
    ensures Kept(L, h, m, Grown(m, n, p, w, last)) && PmRep(L, Grown(m, n, p, w, last), h.g)
  {
    var m1 := Put(m, n, p);
    var m2 := Put(m1, n + BITMAP, w);
    SelfForeign(h);
    assert InHdr(n, n) && InHdr(n, n + BITMAP) && InHdr(last, last + NEXT);
    hide *;
    HdrWriteKept(L, h, m, n, n, p);
    HdrWritePm(L, h, m, n, n, p);
    HdrWriteKept(L, h, m1, n, n + BITMAP, w);
    HdrWritePm(L, h, m1, n, n + BITMAP, w);
    HdrWriteKept(L, h, m2, last, last + NEXT, n);
    HdrWritePm(L, h, m2, last, last + NEXT, n);
    KeptTrans(L, h, h, h, m, m1, m2);
    KeptTrans(L, h, h, h, m, m2, Put(m2, last + NEXT, n));
    GrownIs(m, n, p, w, last);
  }

  lemma GrownIs(m: Mem, n: int, p: int, w: int, last: int)
    ensures Grown(m, n, p, w, last) == Put(Put(Put(m, n, p), n + BITMAP, w), last + NEXT, n)
  {
  }

  lemma SelfForeign(h: HeapState)
    ensures SameForeign(h, h)
  {
  }

  lemma GrownZero(L: Layout, h: HeapState, m: Mem, n: int, p: int, w: int, last: int, a: int, k: nat)
    requires PmCore(L, h.g) && Placed(L, h.g, h.s) && n in h.s.slabs && last in h.s.slabs && ClientOf(h, a, k)
    requires ZeroRange(m, a, ClassSize(k))
    ensures ZeroRange(Grown(m, n, p, w, last), a, ClassSize(k))
  {
    HdrClientApart(L, h.g, h.s, n, a);
    HdrClientApart(L, h.g, h.s, last, a);
  }

  /** A new 64-byte slab: its page holds its own header, then the block handed out. */
  lemma Grow64Step(L: Layout, h: HeapState, m: Mem, m1: Mem)
    requires Rep(L, h, m) && |h.g.free| == 3 && CanAlloc(h.g, 0) && |h.s.lists| == CLASSES && h.s.lists[0] != []
    requires PmRep(L, m1, Alloc(h.g, 0)) && PmFrame(L, h.g, m, m1) && ZeroRange(m1, AllocAddr(h.g, 0), PM_4K)
    ensures var p, last := AllocAddr(h.g, 0), h.s.lists[0][|h.s.lists[0]| - 1];
      var m2 := Grown(m1, p, p, 3, last);
      Rep(L, Grow64(h).h, m2) && Kept(L, h, m, m2) && ZeroRange(m2, Grow64(h).addr, 64)
  {
    hide HeapInv, PmInv, PmCore, PmRep, Placed, SlabInv, ListsOk, PagesOk, SlotsOk, HeadersOk, SlabRep, Kept, HdrsIn;
    hide SetOf;
    hide CanAlloc, ZeroRange, ClassSize, IsUsed, IsPage, InService, OnlyAdds;
    hide AllocAddr, Alloc, Grow64, ClientOf, Foreign, SameForeign, PmFrame, Grown, Rep;
    var p, last := AllocAddr(h.g, 0), h.s.lists[0][|h.s.lists[0]| - 1];
    var h2 := Grow64(h).h;
    Grow64Parts(L, h, m, m1);
    HeapCore(L, h);
    HeapCore(L, h2);
    GrownRep(L, h2.g, h.s, h2.s, m1, 0, p, p, 3, last);
    GrownKept(L, h2, m1, p, p, 3, last);
    Grow64Zero(L, h2, m1, p, last);
    KeptTrans(L, h, h2, h, m, m1, Grown(m1, p, p, 3, last));
    RepIs(L, h2, Grown(m1, p, p, 3, last));
  }

  lemma Grow64Zero(L: Layout, h2: HeapState, m1: Mem, p: int, last: int)
    requires PmCore(L, h2.g) && Placed(L, h2.g, h2.s) && p in h2.s.slabs && last in h2.s.slabs
    requires ClientOf(h2, p + 64, 0)
    requires ZeroRange(m1, p + 64, ClassSize(0)) && ClassSize(0) == 64
    ensures ZeroRange(Grown(m1, p, p, 3, last), p + 64, 64)
  {
    hide PmCore, Placed, ClientOf, ZeroRange, ClassSize, Grown;
    GrownZero(L, h2, m1, p, p, 3, last, p + 64, 0);
  }

  lemma RepIs(L: Layout, h: HeapState, m: Mem)
    ensures Rep(L, h, m) <==> HeapInv(L, h) && PmRep(L, m, h.g) && SlabRep(m, h.s)
  {
  }

  lemma RepOf(L: Layout, h: HeapState, m: Mem)
    requires Rep(L, h, m)
    ensures HeapInv(L, h) && PmRep(L, m, h.g) && SlabRep(m, h.s)
  {
    hide HeapInv, PmRep, SlabRep;
  }

  lemma PlusGrows(h: HeapState, h': HeapState, a: int, k: nat)
    requires ClientsPlus(h, h', a, k)
    ensures ClientOf(h', a, k) && forall b, j :: ClientOf(h, b, j) ==> ClientOf(h', b, j)
  {
  }

  lemma Grow64Parts(L: Layout, h: HeapState, m: Mem, m1: Mem)
    requires Rep(L, h, m) && |h.g.free| == 3 && CanAlloc(h.g, 0) && |h.s.lists| == CLASSES && h.s.lists[0] != []
    requires PmRep(L, m1, Alloc(h.g, 0)) && PmFrame(L, h.g, m, m1) && ZeroRange(m1, AllocAddr(h.g, 0), PM_4K)
    ensures var p, last, r := AllocAddr(h.g, 0), h.s.lists[0][|h.s.lists[0]| - 1], Grow64(h);
      && HeapInv(L, h) && HeapInv(L, r.h) && r.h.g == Alloc(h.g, 0) && r.addr == p + 64 && last in h.s.slabs
      && last in r.h.s.slabs
      && p !in h.s.slabs && p in r.h.s.slabs && At(m1, p + NEXT) == 0 && ClassSize(0) == 64
      && r.h.s.slabs == h.s.slabs[p := Slab(0, p, SetOf(3))] && r.h.s.lists == h.s.lists[0 := h.s.lists[0] + [p]]
      && HdrsIn(L, r.h.g, h.s, r.h.s) && ClientOf(r.h, p + 64, 0) && ZeroRange(m1, p + 64, ClassSize(0))
      && SlabRep(m1, h.s) && Kept(L, h, m, m1) && SameForeign(h, h) && SameForeign(h, r.h)
      && (forall a, k :: ClientOf(h, a, k) ==> ClientOf(r.h, a, k))
  {
    hide HeapInv, PmInv, PmRep, SlabRep, PmCore, SlabInv, Placed, Foreign, ListsOk, PagesOk, SlotsOk, HeadersOk, Kept;
    hide Alloc, AllocAddr, CanAlloc, PmFrame, ClientOf, IsUsed, IsPage, SetOf, SameForeign, ClientsPlus, ClassSize;
    RepOf(L, h, m);
    Parts(L, h);
    Grow64Ok(L, h);
    FreshPage(L, h, 0);
    NewSlab64Inv(L, Alloc(h.g, 0), h.s, AllocAddr(h.g, 0));
    ListedClass(L, h.s, 0, h.s.lists[0][|h.s.lists[0]| - 1]);
    SpecialWords();
    ClassTable(0);
    PmStepKept(L, h, m, m1);
    SelfForeign(h);
    Parts(L, Grow64(h).h);
    PlusGrows(h, Grow64(h).h, Grow64(h).addr, 0);
  }

  /** A new slab above 64 bytes: `hdr`, just allocated for it, becomes its header. */
  lemma GrowStep(L: Layout, h0: HeapState, h: HeapState, m0: Mem, m: Mem, m1: Mem, k: nat, hdr: int)
    requires OnlyAdds(h0, h, hdr, 0) && Rep(L, h, m) && Kept(L, h0, m0, m) && ZeroRange(m, hdr, 64)
    requires |h.g.free| == 3 && 0 < k < CLASSES && |h.s.lists| == CLASSES && h.s.lists[k] != [] && hdr in h.s.occ
    requires CanAlloc(h.g, PageLevel(k)) && PmRep(L, m1, Alloc(h.g, PageLevel(k))) && PmFrame(L, h.g, m, m1)
    requires ZeroRange(m1, AllocAddr(h.g, PageLevel(k)), Size(PageLevel(k)))
    ensures var p, last := AllocAddr(h.g, PageLevel(k)), h.s.lists[k][|h.s.lists[k]| - 1];
      var m2 := Grown(m1, hdr, p, 1, last);
      Rep(L, Grow(h, k, hdr).h, m2) && Kept(L, h0, m0, m2) && ZeroRange(m2, p, ClassSize(k))
  {
    hide HeapInv, PmInv, PmCore, PmRep, Placed, SlabInv, ListsOk, PagesOk, SlotsOk, HeadersOk, SlabRep, Kept, HdrsIn;
    hide SetOf; hide AllocAddr, Alloc, Grow, ClientOf, Foreign, SameForeign, PmFrame, Grown, Rep, OnlyAdds, ZeroRange;
    hide ClassSize;
    var p, last := AllocAddr(h.g, PageLevel(k)), h.s.lists[k][|h.s.lists[k]| - 1];
    var h2 := Grow(h, k, hdr).h;
    AddedClient(h0, h, hdr, 0);
    GrowParts(L, h, m, m1, k, hdr);
    GrowClientsKept(L, h0, h, h2, k, hdr, p);
    Parts(L, h);
    Parts(L, h2);
    GrownRep(L, h2.g, h.s, h2.s, m1, k, hdr, p, 1, last);
    GrownKept(L, h2, m1, hdr, p, 1, last);
    GrownZero(L, h2, m1, hdr, p, 1, last, p, k);
    KeptTrans(L, h0, h, h0, m0, m, m1);
    KeptTrans(L, h0, h2, h0, m0, m1, Grown(m1, hdr, p, 1, last));
    RepIs(L, h2, Grown(m1, hdr, p, 1, last));
  }

  /** What `kmalloc` above 64 bytes comes down to. */
  lemma KAllocCases(L: Layout, h: HeapState, k: nat)
    requires HeapInv(L, h) && 0 < k < CLASSES
    ensures ListsOk(L, h.s) && |h.s.lists| == CLASSES
    ensures HasOpen(L, h.s, k) ==>
      && KAlloc(L, h, k) == Done(Take(L, h, k)) && HeapInv(L, Take(L, h, k).h)
      && OnlyAdds(h, Take(L, h, k).h, Take(L, h, k).addr, k)
    ensures !HasOpen(L, h.s, k) ==>
      var r := KAlloc64(L, h);
      && (r.Panic? ==> KAlloc(L, h, k).Panic?)
      && (r.Done? ==>
            var i := r.value.h;
            && HeapInv(L, i) && |i.g.free| == 3 && |i.s.lists| == CLASSES && i.s.lists[k] == h.s.lists[k] != []
            && OnlyAdds(h, i, r.value.addr, 0) && r.value.addr in i.s.occ
            && if CanAlloc(i.g, PageLevel(k))
               then KAlloc(L, h, k) == Done(Grow(i, k, r.value.addr))
               else KAlloc(L, h, k).Panic?)
  {
    hide HeapInv, ListsOk, OnlyAdds, HasOpen, Take, Grow, SameForeign, CanAlloc, KAlloc64;
    HeapLists(L, h);
    ListHead(L, h.s, k);
    KAlloc64Ok(L, h);
    if HasOpen(L, h.s, k) {
      TakeOk(L, h, k);
    } else if KAlloc64(L, h).Done? {
      var r := KAlloc64(L, h).value;
      HeapLists(L, r.h);
      HeaderListKept(L, h, k);
      AddedClient(h, r.h, r.addr, 0);
    }
  }

  lemma SmallestClass(L: Layout, h: HeapState, size: nat)
    requires HeapInv(L, h) && size <= 64
    ensures SizeToClass(size) == Done(0) && KAlloc(L, h, 0) == KAlloc64(L, h) && ClassSize(0) == 64
  {
    hide HeapInv, KAlloc64;
    ClassTable(0);
  }

  /** Everything `kmalloc` needs to link a new slab with header `hdr` behind the last one. */
  lemma GrowReady(L: Layout, h0: HeapState, h: HeapState, m0: Mem, m: Mem, m1: Mem, k: nat, hdr: int)
    requires OnlyAdds(h0, h, hdr, 0) && Rep(L, h, m) && Kept(L, h0, m0, m) && ZeroRange(m, hdr, 64)
    requires |h.g.free| == 3 && 0 < k < CLASSES && |h.s.lists| == CLASSES && h.s.lists[k] != [] && hdr in h.s.occ
    requires CanAlloc(h.g, PageLevel(k)) && PmRep(L, m1, Alloc(h.g, PageLevel(k))) && PmFrame(L, h.g, m, m1)
    requires ZeroRange(m1, AllocAddr(h.g, PageLevel(k)), Size(PageLevel(k)))
    ensures var p, last := AllocAddr(h.g, PageLevel(k)), h.s.lists[k][|h.s.lists[k]| - 1];
      var m2 := Grown(m1, hdr, p, 1, last);
      && Rep(L, Grow(h, k, hdr).h, m2) && Kept(L, h0, m0, m2) && ZeroRange(m2, p, ClassSize(k))
      && hdr % 8 == 0 && (hdr + BITMAP) % 8 == 0 && 0 < hdr < WORD_LIMIT && (last + NEXT) % 8 == 0 && 0 < p < WORD_LIMIT
  {
    hide HeapInv, PmInv, PmRep, Kept, SetOf, AllocAddr, Alloc, Grow, PmFrame, Grown, Rep, OnlyAdds, ZeroRange;
    hide ClassSize, CanAlloc;
    HeapParts(L, h, m);
    GrowStep(L, h0, h, m0, m, m1, k, hdr);
    OccWord(L, h, hdr);
    AllocWord(L, h.g, PageLevel(k));
    EntryFacts(L, h, m, k, |h.s.lists[k]| - 1);
    BitmapAligned(hdr);
    BitmapAligned(h.s.lists[k][|h.s.lists[k]| - 1]);
  }

  lemma AddedClient(h0: HeapState, h: HeapState, a: int, k: nat)
    requires OnlyAdds(h0, h, a, k)
    ensures ClientOf(h, a, k)
  {
  }

  lemma GrowClientsKept(L: Layout, h0: HeapState, h: HeapState, h2: HeapState, k: nat, hdr: int, p: int)
    requires OnlyAdds(h0, h, hdr, 0) && HeaderMoves(h, h2, hdr, p, k) && SameForeign(h, h2)
    ensures SameForeign(h0, h0) && SameForeign(h0, h) && SameForeign(h0, h2)
    ensures forall a, j :: ClientOf(h0, a, j) ==> ClientOf(h, a, j) && ClientOf(h2, a, j)
  {
    hide IsUsed, IsPage;
    forall a, j | ClientOf(h0, a, j) ensures ClientOf(h, a, j) && ClientOf(h2, a, j) {
      assert ClientOf(h, a, j) && a != hdr && a != p;
    }
  }

  lemma GrowParts(L: Layout, h: HeapState, m: Mem, m1: Mem, k: nat, hdr: int)
    requires Rep(L, h, m) && ClientOf(h, hdr, 0) && ZeroRange(m, hdr, 64)
    requires |h.g.free| == 3 && 0 < k < CLASSES && |h.s.lists| == CLASSES && h.s.lists[k] != [] && hdr in h.s.occ
    requires CanAlloc(h.g, PageLevel(k)) && PmRep(L, m1, Alloc(h.g, PageLevel(k))) && PmFrame(L, h.g, m, m1)
    requires ZeroRange(m1, AllocAddr(h.g, PageLevel(k)), Size(PageLevel(k)))
    ensures var p, last, r := AllocAddr(h.g, PageLevel(k)), h.s.lists[k][|h.s.lists[k]| - 1], Grow(h, k, hdr);
      && HeapInv(L, h) && HeapInv(L, r.h) && r.h.g == Alloc(h.g, PageLevel(k)) && r.addr == p && last in h.s.slabs
      && last in r.h.s.slabs
      && hdr !in h.s.slabs && hdr in r.h.s.slabs && At(m1, hdr + NEXT) == 0
      && r.h.s.slabs == h.s.slabs[hdr := Slab(k, p, SetOf(1))] && r.h.s.lists == h.s.lists[k := h.s.lists[k] + [hdr]]
      && HdrsIn(L, r.h.g, h.s, r.h.s) && ClientOf(r.h, p, k) && ZeroRange(m1, p, ClassSize(k))
      && SlabRep(m1, h.s) && Kept(L, h, m, m1) && HeaderMoves(h, r.h, hdr, p, k) && SameForeign(h, r.h)
      && (1 as int) < WORD_LIMIT
  {
    var p := AllocAddr(h.g, PageLevel(k));
    Parts(L, h);
    GrowOk(L, h, k, hdr);
    FreshPage(L, h, PageLevel(k));
    NewSlabInv(L, Alloc(h.g, PageLevel(k)), h.s, k, hdr, p);
    ListedClass(L, h.s, k, h.s.lists[k][|h.s.lists[k]| - 1]);
    SpecialWords();
    PmStepKept(L, h, m, m1);
    Parts(L, Grow(h, k, hdr).h);
    HeaderZero(L, h, m, m1, hdr);
    FitsPage(m1, p, k);
    hide HeapInv, PmRep, SlabRep, PmCore, Placed, Foreign, ListsOk, PagesOk, SlotsOk, HeadersOk, Kept, ZeroRange;
  }

  lemma HeaderZero(L: Layout, h: HeapState, m: Mem, m1: Mem, hdr: int)
    requires Kept(L, h, m, m1) && ClientOf(h, hdr, 0) && ZeroRange(m, hdr, 64)
    ensures At(m1, hdr + NEXT) == 0
  {
    ClassTable(0);
  }

  lemma FitsPage(m: Mem, p: int, k: nat)
    requires k < CLASSES && ZeroRange(m, p, Size(PageLevel(k)))
    ensures ZeroRange(m, p, ClassSize(k))
  {
    ClassTable(k);
    ScaledOrder(0, Slots(k), ClassSize(k));
  }

  // ---- Freeing ----

  /** `addr` lies in the page that backs header `e`. */
  predicate InPageOf(s: SlabState, e: int, addr: int)
    requires e in s.slabs
  {
    s.slabs[e].page <= addr < s.slabs[e].page + Size(PageLevel(s.slabs[e].cls))
  }

  /** The header whose page contains a client block is the block's own, and the slot index that
      `kmfree` computes from the addresses is the block's own. */
  lemma OnePage(g: PmState, s: SlabState, h: int, e: int)
    requires PagesOk(g, s) && h in s.slabs && e in s.slabs && s.slabs[h].page == s.slabs[e].page
    ensures h == e
  {
  }

  lemma OwnerHdr(L: Layout, h: HeapState, e: int, a: int)
    requires HeapInv(L, h) && IsClient(h.s, a) && e in h.s.slabs && InPageOf(h.s, e, a)
    ensures h.s.occ[a].hdr == e && e in h.s.slabs && h.s.slabs[e].cls < CLASSES
  {
    hide HeapInv, PmInv, PmCore, Placed, SlabInv, ListsOk, PagesOk, SlotsOk, HeadersOk, HdrsIn, IsUsed, ClassSize;
    hide Slots, SlotAddr;
    Parts(L, h);
    OccPlace(L, h.g, h.s, a);
    HdrPage(h.g, h.s, e);
    HdrClass(L, h.s, e);
    ClassTable(h.s.slabs[e].cls);
    ClassTable(BlockClass(h.s, a));
    var o := h.s.occ[a].hdr;
    var p, q := h.s.slabs[o].page, h.s.slabs[e].page;
    if p != q { BlocksApart(L, h.g, p, q); } else { OnePage(h.g, h.s, o, e); }
  }

  lemma OwnerIs(L: Layout, h: HeapState, e: int, a: int)
    requires HeapInv(L, h) && IsClient(h.s, a) && e in h.s.slabs && InPageOf(h.s, e, a)
    ensures h.s.occ[a].hdr == e && h.s.occ[a].slot == (a - h.s.slabs[e].page) / ClassSize(h.s.slabs[e].cls)
    ensures h.s.occ[a].slot < Slots(h.s.slabs[e].cls) <= 64
  {
    hide HeapInv, PmInv, PmCore, Placed, SlabInv, ListsOk, PagesOk, SlotsOk, HeadersOk, HdrsIn, IsUsed, ClassSize;
    hide Slots, InPageOf;
    Parts(L, h);
    OwnerHdr(L, h, e, a);
    OccFacts(L, h.g, h.s, a);
    ClassTable(h.s.slabs[e].cls);
    SlotFrom(a, h.s.slabs[e].page, h.s.occ[a].slot, ClassSize(h.s.slabs[e].cls));
  }

  lemma SlotFrom(a: int, p: int, j: nat, z: int)
    requires a == p + j * z && z > 0
    ensures j == (a - p) / z
  {
    ModUnique(a - p, z, j, 0);
  }

  lemma OwnerExists(L: Layout, h: HeapState, a: int)
    requires HeapInv(L, h) && IsClient(h.s, a)
    ensures h.s.occ[a].hdr in h.s.slabs && InPageOf(h.s, h.s.occ[a].hdr, a) && a > 0
    ensures h.s.slabs[h.s.occ[a].hdr].cls < CLASSES
  {
    Parts(L, h);
    OccPlace(L, h.g, h.s, a);
    ClassTable(BlockClass(h.s, a));
  }

  /** Clearing the bit of a client block. */
  lemma ReleaseStep(L: Layout, h: HeapState, m: Mem, a: int, e: int, j: nat, w: Word)
    requires Rep(L, h, m) && IsClient(h.s, a) && h.s.occ[a].hdr == e && h.s.occ[a].slot == j && e in h.s.slabs && j < 64
    requires w == At(m, e + BITMAP) && SetOf(w) == h.s.slabs[e].bits
    ensures Pow2(j) < WORD_LIMIT && And(w, Not(Pow2(j))) < WORD_LIMIT
    ensures var m' := Put(m, e + BITMAP, And(w, Not(Pow2(j))));
      && SlabRep(m', Release(h.s, a)) && PmRep(L, m', h.g) && Kept(L, h, m, m')
      && SetOf(And(w, Not(Pow2(j)))) == Release(h.s, a).slabs[e].bits
  {
    hide Rep, HeapInv, PmInv, PmCore, PmRep, Placed, SlabInv, ListsOk, PagesOk, SlotsOk, HeadersOk, SlabRep, Kept;
    hide SetOf, Release, InHdr, And;
    ClearBit(w, j);
    HeapParts(L, h, m);
    RepIs(L, h, m);
    Parts(L, h);
    InHdrBitmap(e);
    HdrWriteKept(L, h, m, e, e + BITMAP, And(w, Not(Pow2(j))));
    HdrWritePm(L, h, m, e, e + BITMAP, And(w, Not(Pow2(j))));
    ReleaseIs(h.s, a);
    BitmapRep(L, h.g, h.s, Release(h.s, a), m, e, And(w, Not(Pow2(j))));
  }

  lemma ReleaseIs(s: SlabState, a: int)
    requires a in s.occ && s.occ[a].hdr in s.slabs
    ensures var t, e := Release(s, a), s.occ[a].hdr;
      t.slabs == s.slabs[e := s.slabs[e].(bits := s.slabs[e].bits - {s.occ[a].slot})] && t.lists == s.lists
  {
  }

  lemma PlacedLists(L: Layout, g: PmState, s: SlabState)
    requires PmCore(L, g) && Placed(L, g, s)
    ensures HdrsIn(L, g, s, s) && ListsOk(L, s)
  {
    hide PmCore;
  }

  /** Unlinking the header at position q > 0 of list k, in the state after the release. */
  lemma UnlinkStep(L: Layout, g: PmState, s: SlabState, t: SlabState, m: Mem, k: nat, q: nat, prev: int, e: int,
                   next: int)
    requires PmCore(L, g) && Placed(L, g, s) && SlabRep(m, s) && PmRep(L, m, g)
    requires |s.lists| == CLASSES && k < CLASSES && Between(s.lists[k], q, prev, e, next)
    requires t.slabs == s.slabs - {e} && t.lists == s.lists[k := Without(s.lists[k], e)]
    ensures var m' := Put(m, prev + NEXT, next);
      SlabRep(m', t) && PmRep(L, m', g) && Kept(L, HeapState(g, s), m, m')
  {
    hide PmCore, Placed, SlabRep, PmRep, ListsOk, Kept, HdrsIn, InHdr, Without;
    PlacedLists(L, g, s);
    ListedClass(L, s, k, prev);
    InHdrBitmap(prev);
    HdrWriteKept(L, HeapState(g, s), m, prev, prev + NEXT, next);
    HdrWritePm(L, HeapState(g, s), m, prev, prev + NEXT, next);
    UnlinkRep(L, g, s, t, m, k, q);
  }

  /** A client block of up to 4K is aligned to its class; a larger one has the residue of the top. */
  lemma ClientResidue(L: Layout, h: HeapState, a: int)
    requires HeapInv(L, h) && IsClient(h.s, a) && h.s.occ[a].hdr in h.s.slabs && BlockClass(h.s, a) < CLASSES
    ensures var k := BlockClass(h.s, a);
      ClassSize(k) > 0 && a % ClassSize(k) == if k <= SLAB_4K then 0 else h.g.hi % ClassSize(k)
  {
    hide HeapInv, ClassSize, Slots;
    var k := BlockClass(h.s, a);
    var z, j := ClassSize(k), h.s.occ[a].slot;
    ClassTable(k);
    SlotOfPage(L, h, a);
    var p := h.s.slabs[h.s.occ[a].hdr].page;
    if k <= SLAB_4K {
      MultipleResidue(0, p, PM_4K, Slots(k), z, j);
      ModUnique(0, z, 0, 0);
    } else {
      MultipleResidue(h.g.hi, p, PM_512K, Slots(k), z, j);
    }
  }

  lemma SlotOfPage(L: Layout, h: HeapState, a: int)
    requires HeapInv(L, h) && IsClient(h.s, a) && h.s.occ[a].hdr in h.s.slabs
    ensures var k, p := BlockClass(h.s, a), h.s.slabs[h.s.occ[a].hdr].page;
      a == p + h.s.occ[a].slot * ClassSize(k) && p % PM_4K == 0 && (k > SLAB_4K ==> (h.g.hi - p) % PM_512K == 0)
  {
    hide ClassSize, IsPage, ListsOk, HeadersOk, Tiled, ListOk;
    assert Taken(h.s, h.s.occ[a].hdr, h.s.occ[a].slot);
    assert IsUsed(h.g, h.s.slabs[h.s.occ[a].hdr].page);
  }

  /** An offset of j slots from a page that lies whole pages below `top` (or above 0). */
  lemma MultipleResidue(top: int, p: int, unit: int, n: int, z: int, j: int)
    requires unit > 0 && z > 0 && (top - p) % unit == 0 && n * z == unit
    ensures (p + j * z) % z == top % z
  {
    var t := (top - p) / unit;
    assert top - p == t * unit;
    Regroup(t, n, z, j);
    ModShift(top, j - t * n, z);
  }

  lemma Regroup(t: int, n: int, z: int, j: int)
    ensures j * z - t * (n * z) == (j - t * n) * z
  {
  }

  lemma ModShift(p: int, j: int, z: int)
    requires z > 0
    ensures (p + j * z) % z == p % z
  {
    ModUnique(p, z, p / z, p % z);
    assert p == (p / z) * z + p % z;
    assert p + j * z == (p / z + j) * z + p % z;
    ModUnique(p + j * z, z, p / z + j, p % z);
  }

  // ---- Facts the methods call on, with the definitions hidden ----

  lemma HeapParts(L: Layout, h: HeapState, m: Mem)
    requires Rep(L, h, m)
    ensures HeapInv(L, h) && ListsOk(L, h.s) && PmInv(L, h.g) && PmCore(L, h.g) && PmRep(L, m, h.g)
    ensures |h.s.lists| == CLASSES && |h.g.free| == 3
    ensures forall k :: 0 <= k < CLASSES ==> |h.s.lists[k]| > 0
  {
  }

  lemma SlotCount(k: nat)
    requires k < CLASSES
    ensures ClassSize(k) > 0
    ensures Slots(k) == if ClassSize(k) > PM_4K then PM_512K / ClassSize(k) else PM_4K / ClassSize(k)
  {
    ClassTable(k);
  }

  lemma BitmapAligned(e: int)
    requires e % 8 == 0
    ensures (e + BITMAP) % 8 == 0 && (e + NEXT) % 8 == 0
  {
  }

  lemma TestSlot(w: Word, i: nat)
    requires i < 64
    ensures And(w, Pow2(i)) == 0 <==> i !in SetOf(w)
  {
    TestBit(w, i);
  }

  lemma BitmapTests(w: Word)
    ensures (w == 0 <==> SetOf(w) == {}) && (w == 1 <==> SetOf(w) == {0})
  {
    WordIsSet(w, 0);
    WordIsSet(w, 1);
    SpecialWords();
  }

  lemma FullWord()
    ensures forall i: nat :: i < 64 ==> i in SetOf(WORD_MAX)
  {
    SpecialWords();
  }

  lemma TakeIsGrab(L: Layout, h: HeapState, k: nat, e: int, j: nat)
    requires ListsOk(L, h.s) && k < CLASSES && HasOpen(L, h.s, k) && OpenHdr(L, h.s, k) == e && OpenSlot(L, h.s, k) == j
    ensures Take(L, h, k) == Grab(HeapState(h.g, TakeSlot(h.s, e, j)), h.s.slabs[e].page + j * ClassSize(k))
    ensures ClassSize(k) > 0 && j * ClassSize(k) >= 0
  {
    hide ClassSize, Slots, TakeSlot, ListsOk;
    ClassTable(k);
    ScaledOrder(-1, j, ClassSize(k));
  }

  /** `find_free_slab` stopping at slot j of header e: the bitmap written, the address returned. */
  lemma TakeStep(L: Layout, h: HeapState, m: Mem, k: nat, q: nat, j: nat, e: int, w: Word)
    requires Rep(L, h, m) && ListsOk(L, h.s) && k < |h.s.lists| && k < CLASSES && q < |h.s.lists[k]|
    requires e == h.s.lists[k][q]
    requires forall p :: 0 <= p < q ==> h.s.lists[k][p] in h.s.slabs && IsFull(h.s, h.s.lists[k][p])
    requires e in h.s.slabs && h.s.slabs[e].cls == k && w == At(m, e + BITMAP) && SetOf(w) == h.s.slabs[e].bits
    requires j < Slots(k) && j < 64 && j !in SetOf(w) && forall i: nat :: i < j ==> i in SetOf(w)
    ensures Pow2(j) < WORD_LIMIT && Or(w, Pow2(j)) < WORD_LIMIT && HasOpen(L, h.s, k)
    ensures Take(L, h, k) == Grab(HeapState(h.g, TakeSlot(h.s, e, j)), h.s.slabs[e].page + j * ClassSize(k))
    ensures ClassSize(k) > 0 && j * ClassSize(k) >= 0
    ensures Rep(L, HeapState(h.g, TakeSlot(h.s, e, j)), Put(m, e + BITMAP, Or(w, Pow2(j))))
    ensures Kept(L, h, m, Put(m, e + BITMAP, Or(w, Pow2(j))))
  {
    hide Rep, HeapInv, PmInv, PmCore, PmRep, Kept, ListsOk, Take, HasOpen, SetOf, And, Or, ClassSize, Slots, TakeSlot;
    HeapParts(L, h, m);
    SetBit(w, j);
    TakeIs(L, h, k, q, j);
    TakeOk(L, h, k);
    TakeIsGrab(L, h, k, e, j);
    TakeRep(L, h, m, e, j, w);
  }

  lemma NoneOpen(L: Layout, s: SlabState, k: nat)
    requires ListsOk(L, s) && k < CLASSES
    requires forall p :: 0 <= p < |s.lists[k]| ==> s.lists[k][p] in s.slabs && IsFull(s, s.lists[k][p])
    ensures !HasOpen(L, s, k)
  {
    FirstOpenIs(s, s.lists[k], |s.lists[k]|);
  }

  lemma KeptTwice(L: Layout, h: HeapState, m1: Mem, m2: Mem, m3: Mem)
    requires Kept(L, h, m1, m2) && Kept(L, h, m2, m3)
    ensures Kept(L, h, m1, m3)
  {
    SelfForeign(h);
    KeptTrans(L, h, h, h, m1, m2, m3);
  }

  /** Allocating a header leaves the lists of the other classes alone. */
  lemma HeaderListKept(L: Layout, h: HeapState, k: nat)
    requires HeapInv(L, h) && 0 < k < CLASSES && KAlloc64(L, h).Done?
    ensures |h.s.lists| == CLASSES
    ensures var r := KAlloc64(L, h).value; |r.h.s.lists| == CLASSES && r.h.s.lists[k] == h.s.lists[k]
  {
    Parts(L, h);
  }

  lemma OccWord(L: Layout, h: HeapState, a: int)
    requires HeapInv(L, h) && a in h.s.occ
    ensures a % 8 == 0 && 0 < a < WORD_LIMIT
  {
    Parts(L, h);
    OccPlace(L, h.g, h.s, a);
    ClassTable(BlockClass(h.s, a));
    BlockBelow(L, h.g, h.s.slabs[h.s.occ[a].hdr].page);
  }

  lemma BlockBelow(L: Layout, g: PmState, b: int)
    requires PmInv(L, g) && b in g.blocks
    ensures 0 < b && b + Size(g.blocks[b]) <= L.memTotal < WORD_LIMIT
  {
  }

  lemma AllocWord(L: Layout, g: PmState, k: nat)
    requires PmInv(L, g) && k < 3 && CanAlloc(g, k)
    ensures AllocAddr(g, k) % 8 == 0 && 0 < AllocAddr(g, k) < WORD_LIMIT
  {
    AllocInv(L, g, k);
    BlockBelow(L, Alloc(g, k), AllocAddr(g, k));
    PageAligned(L, Alloc(g, k), AllocAddr(g, k));
    PageMultiple(AllocAddr(g, k));
  }

  lemma PageTest(s: SlabState, e: int, addr: int)
    requires e in s.slabs
    ensures InPageOf(s, e, addr) <==>
      s.slabs[e].page <= addr && addr < s.slabs[e].page + if s.slabs[e].cls > SLAB_4K then PM_512K else PM_4K
  {
  }

  lemma ClassSearched(L: Layout, s: SlabState, k: nat, addr: int)
    requires ListsOk(L, s) && k < CLASSES
    requires forall p :: 0 <= p < |s.lists[k]| ==> s.lists[k][p] in s.slabs && !InPageOf(s, s.lists[k][p], addr)
    ensures forall e :: e in s.slabs && s.slabs[e].cls == k ==> !InPageOf(s, e, addr)
  {
    forall e | e in s.slabs && s.slabs[e].cls == k ensures !InPageOf(s, e, addr) {
      var p := IndexIn(s.lists[k], e);
    }
  }

  lemma AllSearched(L: Layout, s: SlabState, addr: int)
    requires ListsOk(L, s) && forall e :: e in s.slabs && s.slabs[e].cls < CLASSES ==> !InPageOf(s, e, addr)
    ensures forall e :: e in s.slabs ==> !InPageOf(s, e, addr)
  {
  }

  lemma NoOwnerNoClient(L: Layout, h: HeapState, addr: int)
    requires HeapInv(L, h) && forall e :: e in h.s.slabs ==> !InPageOf(h.s, e, addr)
    ensures !IsClient(h.s, addr)
  {
    if IsClient(h.s, addr) { OwnerExists(L, h, addr); }
  }

  lemma NullIsNoClient(L: Layout, h: HeapState)
    requires HeapInv(L, h)
    ensures !IsClient(h.s, 0)
  {
    if IsClient(h.s, 0) { OwnerExists(L, h, 0); }
  }

  lemma OwnerOfClient(L: Layout, h: HeapState, e: int, a: int)
    requires HeapInv(L, h) && e in h.s.slabs && InPageOf(h.s, e, a)
    ensures IsClient(h.s, a) ==>
      && a in h.s.occ && h.s.occ[a].hdr == e && h.s.occ[a].hdr in h.s.slabs && BlockClass(h.s, a) == h.s.slabs[e].cls
      && h.s.occ[a].slot == (a - h.s.slabs[e].page) / ClassSize(h.s.slabs[e].cls) < 64
  {
    if IsClient(h.s, a) { OwnerIs(L, h, e, a); }
  }

  lemma SlotIndexInRange(d: int, z: int, unit: int)
    requires 0 <= d < unit && z > 0 && unit > 0 && unit % z == 0
    ensures 0 <= d / z < unit / z
  {
    var n := unit / z;
    assert unit == n * z;
    if d / z >= n {
      assert (d / z) * z >= n * z by { ScaleUp(d / z - n, z); }
      assert false;
    }
  }

  lemma ScaleUp(x: int, z: int)
    requires x >= 0 && z > 0
    ensures x * z >= 0
  {
  }

  lemma SlabDivides(k: nat)
    requires k < CLASSES
    ensures ClassSize(k) > 0 && Size(PageLevel(k)) % ClassSize(k) == 0
    ensures k > 0 ==> ClassSize(k) > 64
    ensures ClassSize(0) == 64
  {
    ClassTable(k);
    ClassTable(0);
    ModUnique(Size(PageLevel(k)), ClassSize(k), Slots(k), 0);
    if k > 0 { PowMono(0, k); }
  }

  // ---- The three ways a free ends ----

  ghost predicate Released(L: Layout, h: HeapState, m: Mem, m1: Mem, a: int) {
    && Rep(L, h, m) && IsClient(h.s, a) && h.s.occ[a].hdr in h.s.slabs
    && SlabRep(m1, Release(h.s, a)) && PmRep(L, m1, h.g) && Kept(L, h, m, m1)
  }

  /** The slab stays in service. */
  lemma PlainCase(L: Layout, h: HeapState, m: Mem, m1: Mem, a: int)
    requires Released(L, h, m, m1, a)
    requires var e, s := h.s.occ[a].hdr, Release(h.s, a);
      e >= L.kernelEnd ==> s.slabs[e].bits != {} && (s.slabs[e].cls == 0 ==> s.slabs[e].bits != {0})
    ensures HeapInv(L, h) && KFree(L, h, a) == HeapState(h.g, Release(h.s, a))
    ensures Rep(L, KFree(L, h, a), m1) && Kept(L, KFree(L, h, a), m, m1) && OnlyRemoves(h, KFree(L, h, a), a)
  {
    FreeFacts(L, h, a);
    KFreeOk(L, h, a);
    var h' := KFree(L, h, a);
    assert h' == HeapState(h.g, Release(h.s, a));
    hide HeapInv, PmRep, SlabRep, Release, KFree, IsClient, Foreign;
    KeptLess(L, h, h', m, m1, a);
  }

  lemma KeptLess(L: Layout, h: HeapState, h': HeapState, m: Mem, m1: Mem, a: int)
    requires Kept(L, h, m, m1) && OnlyRemoves(h, h', a)
    ensures Kept(L, h', m, m1)
  {
    SelfForeign(h');
    LessFacts(h, h', a);
    hide *;
    KeptRefl(L, h', m1);
    KeptTrans(L, h, h', h', m, m1, m1);
  }

  lemma LessFacts(h: HeapState, h': HeapState, a: int)
    requires OnlyRemoves(h, h', a)
    ensures SameForeign(h', h) && forall b, k :: ClientOf(h', b, k) ==> ClientOf(h, b, k)
  {
    hide IsUsed, IsPage;
  }

  /** Position q > 0 of list k holds header `e`, between `prev` and `next`. */
  ghost predicate Between(l: seq<int>, q: nat, prev: int, e: int, next: int) {
    0 < q < |l| && l[q] == e && l[q - 1] == prev && next == if q + 1 < |l| then l[q + 1] else 0
  }

  /** The emptied slab `e` has been unlinked; its header block is now the one to free. */
  lemma BetweenIs(l: seq<int>, q: nat, prev: int, e: int, next: int)
    requires Between(l, q, prev, e, next)
    ensures 0 < q < |l| && l[q] == e
  {
  }

  lemma RetireStep(L: Layout, h: HeapState, s: SlabState, m1: Mem, a: int, k: nat, q: nat, prev: int, e: int, next: int)
    requires HeapInv(L, h) && IsClient(h.s, a) && h.s.occ[a].hdr == e && e in h.s.slabs && s == Release(h.s, a)
    requires SlabRep(m1, s) && PmRep(L, m1, h.g) && k < CLASSES && |h.s.lists| == CLASSES
    requires Between(h.s.lists[k], q, prev, e, next)
    requires h.s.slabs[e].cls == k && s.slabs[e].bits == {}
    ensures e in s.slabs && e in s.occ && s.slabs[e].cls < |s.lists| && k > 0 && e % 64 == 0 && e >= L.kernelEnd
    ensures Rep(L, HeapState(h.g, Retire(s, e)), Put(m1, prev + NEXT, next))
    ensures Kept(L, HeapState(h.g, s), m1, Put(m1, prev + NEXT, next))
    ensures ClientOf(HeapState(h.g, Retire(s, e)), e, 0)
  {
    hide Rep, HeapInv, PmInv, PmCore, PmRep, Placed, SlabInv, ListsOk, PagesOk, SlotsOk, HeadersOk, SlabRep, Kept;
    hide HdrsIn, SetOf, InService, IsUsed, ClassSize;
    hide Between, Without, SlotAddr;
    BetweenIs(h.s.lists[k], q, prev, e, next);
    Parts(L, h);
    FreeFacts(L, h, a);
    PositionIs(L, h.s, k, q);
    RetireFacts(L, h, a);
    HdrPlace(L, h.g, h.s, e);
    RepIs(L, HeapState(h.g, Retire(s, e)), Put(m1, prev + NEXT, next));
    UnlinkStep(L, h.g, s, Retire(s, e), m1, k, q, prev, e, next);
  }

  /** Freeing the block is then freeing the header. */
  lemma RetireIsFree(L: Layout, h: HeapState, s: SlabState, a: int, e: int)
    requires HeapInv(L, h) && IsClient(h.s, a) && h.s.occ[a].hdr == e && e in h.s.slabs && s == Release(h.s, a)
    requires e >= L.kernelEnd && s.slabs[e].bits == {} && e in s.occ && s.slabs[e].cls < |s.lists|
    requires HeapInv(L, HeapState(h.g, Retire(s, e))) && ClientOf(HeapState(h.g, Retire(s, e)), e, 0)
    ensures KFree(L, h, a) == KFree(L, HeapState(h.g, Retire(s, e)), e)
    ensures OnlyRemoves(h, KFree(L, h, a), a) && ClientsLess(h, HeapState(h.g, s), a)
    ensures SameForeign(h, HeapState(h.g, s))
  {
    FreeFacts(L, h, a);
    RetiredHeaderStays(L, HeapState(h.g, Retire(s, e)), e);
    KFreeOk(L, h, a);
    ReleaseClients(h, a);
    ReleaseForeign(h, a);
    hide HeapInv, IsClient, OnlyRemoves, ClientsLess, SameForeign, Release, Retire;
  }

  lemma LessKept(L: Layout, h: HeapState, r: HeapState, h': HeapState, m: Mem, m1: Mem, m2: Mem, a: int)
    requires Kept(L, h, m, m1) && Kept(L, r, m1, m2)
    requires ClientsLess(h, r, a) && SameForeign(h, r) && OnlyRemoves(h, h', a)
    ensures Kept(L, h', m, m2)
  {
    hide IsUsed, IsPage, Kept;
    forall b, j | ClientOf(h', b, j) ensures ClientOf(h, b, j) && ClientOf(r, b, j) { assert b != a; }
    KeptTrans(L, h, r, h', m, m1, m2);
  }

  /** The 64-byte slab left with only its header has been unlinked; its page is now the one to free. */
  lemma GiveBackStep(L: Layout, h: HeapState, s: SlabState, m1: Mem, a: int, q: nat, prev: int, e: int, next: int)
    requires HeapInv(L, h) && IsClient(h.s, a) && h.s.occ[a].hdr == e && e in h.s.slabs && s == Release(h.s, a)
    requires SlabRep(m1, s) && PmRep(L, m1, h.g) && |h.s.lists| == CLASSES && Between(h.s.lists[0], q, prev, e, next)
    requires h.s.slabs[e].cls == 0 && s.slabs[e].bits == {0}
    ensures e in s.slabs && |s.lists| == CLASSES && |h.g.free| == 3 && e >= L.kernelEnd
    ensures SlabRep(Put(m1, prev + NEXT, next), GiveBack(s, e)) && PmRep(L, Put(m1, prev + NEXT, next), h.g)
    ensures Kept(L, HeapState(h.g, s), m1, Put(m1, prev + NEXT, next))
    ensures IsUsed(h.g, e) && h.g.blocks[e] == 0 && L.kernelEnd <= e < L.memTotal
  {
    hide Rep, HeapInv, PmInv, PmCore, PmRep, Placed, SlabInv, ListsOk, PagesOk, SlotsOk, HeadersOk, SlabRep, Kept;
    hide HdrsIn, SetOf, InService, ClassSize;
    Parts(L, h);
    FreeFacts(L, h, a);
    PositionIs(L, h.s, 0, q);
    GiveBackInv(L, h.g, s, e);
    BlockBelow(L, h.g, e);
    PageAligned(L, h.g, e);
    UnlinkStep(L, h.g, s, GiveBack(s, e), m1, 0, q, prev, e, next);
  }

  lemma GiveBackIsFree(L: Layout, h: HeapState, s: SlabState, a: int, e: int)
    requires HeapInv(L, h) && IsClient(h.s, a) && h.s.occ[a].hdr == e && e in h.s.slabs && s == Release(h.s, a)
    requires e >= L.kernelEnd && s.slabs[e].bits == {0} && h.s.slabs[e].cls == 0 && |s.lists| == CLASSES
    requires |h.g.free| == 3
    ensures KFree(L, h, a) == HeapState(Push(h.g, 0, e), GiveBack(s, e)) && HeapInv(L, KFree(L, h, a))
    ensures OnlyRemoves(h, KFree(L, h, a), a) && ClientsLess(h, HeapState(h.g, s), a)
    ensures SameForeign(h, HeapState(h.g, s))
  {
    FreeFacts(L, h, a);
    KFreeOk(L, h, a);
    ReleaseClients(h, a);
    ReleaseForeign(h, a);
    hide HeapInv, IsClient, OnlyRemoves, ClientsLess, SameForeign, GiveBack;
  }

  lemma PmStepRep(L: Layout, h: HeapState, m: Mem, m': Mem)
    requires HeapInv(L, h) && SlabRep(m, h.s) && PmRep(L, m', h.g) && PmFrame(L, h.g, m, m')
    ensures Rep(L, h, m') && Kept(L, h, m, m')
  {
    Parts(L, h);
    hide HeapInv, PmCore, Placed, PmRep, SlabRep, PmFrame, Kept;
    PmStepKept(L, h, m, m');
  }

  /** The neighbours of a header in its list, as `kmfree` finds them in memory. */
  lemma Neighbours(L: Layout, h: HeapState, m: Mem, k: nat, q: nat, prev: int)
    requires Rep(L, h, m) && k < CLASSES && k < |h.s.lists| && q < |h.s.lists[k]|
    requires prev == if q > 0 then h.s.lists[k][q - 1] else 0
    ensures prev % 8 == 0 && (prev != 0 <==> q > 0) && (prev + NEXT) % 8 == 0
    ensures var l := h.s.lists[k]; var next := At(m, l[q] + NEXT);
      0 <= next < WORD_LIMIT && (q > 0 ==> Between(l, q, prev, l[q], next))
  {
    hide HeapInv, PmRep, SlabRep, SetOf;
    HeapParts(L, h, m);
    EntryFacts(L, h, m, k, q);
    if q > 0 { EntryFacts(L, h, m, k, q - 1); BitmapAligned(prev); }
    if q + 1 < |h.s.lists[k]| {
      EntryFacts(L, h, m, k, q + 1);
      HdrWord(L, h, h.s.lists[k][q + 1]);
    }
  }

  lemma HdrWord(L: Layout, h: HeapState, e: int)
    requires HeapInv(L, h) && e in h.s.slabs
    ensures 0 <= e < WORD_LIMIT
  {
    Parts(L, h);
    HdrPlace(L, h.g, h.s, e);
    if e >= L.kernelEnd { OccWord(L, h, e); }
  }
}
