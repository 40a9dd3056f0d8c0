/** `slab_init`: one page for each static header. */
module SlabStart {
  import opened Bits
  import opened Memory
  import opened Blocks
  import opened Slabs
  import opened Heap
  import opened SlabMem

  const EMPTY := SlabState([], map[], map[], {}, 0, 0)

  /** Header k gets page `p`, an empty bitmap and no successor. */
  ghost function AddStatic(L: Layout, s: SlabState, k: nat, p: int): SlabState {
    s.(lists := s.lists + [[StaticHdr(L, k)]],
       slabs := s.slabs[StaticHdr(L, k) := Slab(k, p, {})],
       taken := s.taken + 1)
  }

  ghost function InitStep(L: Layout, h: HeapState, k: nat): (r: Outcome<HeapState>)
    requires PmInv(L, h.g)
    ensures r.Done? ==> PmInv(L, r.value.g)
  {
    hide PmCore;
    FreeLen(L, h.g);
    if !CanAlloc(h.g, PageLevel(k)) then Panic
    else
      AllocInv(L, h.g, PageLevel(k));
      Done(HeapState(Alloc(h.g, PageLevel(k)), AddStatic(L, h.s, k, AllocAddr(h.g, PageLevel(k)))))
  }

  /** After n iterations of the loop. */
  ghost function InitPrefix(L: Layout, g: PmState, n: nat): (r: Outcome<HeapState>)
    requires PmInv(L, g)
    ensures r.Done? ==> PmInv(L, r.value.g)
  {
    hide PmInv, InitStep;
    if n == 0 then Done(HeapState(g, EMPTY))
    else
      var h :- InitPrefix(L, g, n - 1);
      InitStep(L, h, n - 1)
  }

  lemma {:induction false} PanicLasts(L: Layout, g: PmState, n: nat, k: nat)
    requires PmInv(L, g) && n <= k
    ensures InitPrefix(L, g, n).Panic? ==> InitPrefix(L, g, k).Panic?
    decreases k
  {
    hide PmInv, InitStep;
    if n < k { PanicLasts(L, g, n, k - 1); }
  }

  /** n headers, each alone in its list, and nothing else. */
  ghost predicate HeadsOnly(L: Layout, s: SlabState, n: nat) {
    && n <= CLASSES && |s.lists| == n
    && (forall k :: 0 <= k < n ==> s.lists[k] == [StaticHdr(L, k)])
    && (forall q :: q in s.slabs ==> s.slabs[q].cls < n && q == StaticHdr(L, s.slabs[q].cls) && s.slabs[q].bits == {})
    && (forall k :: 0 <= k < n ==> StaticHdr(L, k) in s.slabs && s.slabs[StaticHdr(L, k)].cls == k)
    && s.occ == map[] && s.dropped == {} && s.returned == 0
  }

  /** The blocks in use are those of `g0` and, besides, the pages of the slabs. */
  ghost predicate OnlyPagesMore(g0: PmState, h: HeapState) {
    && PagesOk(h.g, h.s) && h.g.lo == g0.lo && h.g.hi == g0.hi
    && (forall b :: IsUsed(h.g, b) <==> IsUsed(g0, b) || IsPage(h.s, b))
    && (forall b :: IsUsed(g0, b) ==> !IsPage(h.s, b) && b in h.g.blocks && h.g.blocks[b] == g0.blocks[b])
  }

  ghost predicate Started(L: Layout, g0: PmState, h: HeapState, n: nat) {
    HeadsOnly(L, h.s, n) && OnlyPagesMore(g0, h)
  }

  lemma EmptyStarted(L: Layout, g: PmState)
    ensures Started(L, g, HeapState(g, EMPTY), 0)
  {
    assert |EMPTY.slabs| == 0;
  }

  lemma StepStarted(L: Layout, g0: PmState, h: HeapState, k: nat)
    requires PmInv(L, h.g) && Started(L, g0, h, k) && k < CLASSES
    ensures var r := InitStep(L, h, k); r.Done? ==> Started(L, g0, r.value, k + 1)
  {
    hide PmInv, IsUsed, IsPage, Alloc, AllocAddr, CanAlloc, Started;
    FreeLen(L, h.g);
    if CanAlloc(h.g, PageLevel(k)) {
      AllocInv(L, h.g, PageLevel(k));
      UsedIn(Alloc(h.g, PageLevel(k)));
      AddStarted(L, g0, h, Alloc(h.g, PageLevel(k)), k, AllocAddr(h.g, PageLevel(k)));
    }
  }

  lemma AddStarted(L: Layout, g0: PmState, h: HeapState, g: PmState, k: nat, p: int)
    requires Started(L, g0, h, k) && k < CLASSES && g.lo == h.g.lo && g.hi == h.g.hi
    requires forall c :: IsUsed(g, c) <==> IsUsed(h.g, c) || c == p
    requires forall c :: IsUsed(h.g, c) ==> c in g.blocks && g.blocks[c] == h.g.blocks[c]
    requires p in g.blocks && g.blocks[p] == PageLevel(k) && !IsUsed(h.g, p)
    ensures Started(L, g0, HeapState(g, AddStatic(L, h.s, k, p)), k + 1)
  {
    hide HeadsOnly, OnlyPagesMore, IsUsed, AddStatic;
    StartedNew(L, h.s, k);
    NoneDropped(L, h.s, k);
    AddHeads(L, h.s, k, p);
    AddPages(L, g0, h, g, k, p);
  }

  lemma NoneDropped(L: Layout, s: SlabState, k: nat)
    requires HeadsOnly(L, s, k)
    ensures s.dropped == {}
  {
  }

  lemma AddHeads(L: Layout, s: SlabState, k: nat, p: int)
    requires HeadsOnly(L, s, k) && k < CLASSES
    ensures HeadsOnly(L, AddStatic(L, s, k, p), k + 1)
  {
    var t := AddStatic(L, s, k, p);
    forall q | q in t.slabs
      ensures t.slabs[q].cls < k + 1 && q == StaticHdr(L, t.slabs[q].cls) && t.slabs[q].bits == {}
    {
      if q != StaticHdr(L, k) { assert q in s.slabs; }
    }
    forall j | 0 <= j < k + 1 ensures StaticHdr(L, j) in t.slabs && t.slabs[StaticHdr(L, j)].cls == j {
      if j < k { assert StaticHdr(L, j) in s.slabs; }
    }
  }

  lemma AddPages(L: Layout, g0: PmState, h: HeapState, g: PmState, k: nat, p: int)
    requires OnlyPagesMore(g0, h) && g.lo == h.g.lo && g.hi == h.g.hi && StaticHdr(L, k) !in h.s.slabs
    requires p !in h.s.dropped
    requires forall c :: IsUsed(g, c) <==> IsUsed(h.g, c) || c == p
    requires forall c :: IsUsed(h.g, c) ==> c in g.blocks && g.blocks[c] == h.g.blocks[c]
    requires p in g.blocks && g.blocks[p] == PageLevel(k) && !IsUsed(h.g, p)
    ensures OnlyPagesMore(g0, HeapState(g, AddStatic(L, h.s, k, p)))
  {
    var s' := AddStatic(L, h.s, k, p);
    hide IsUsed;
    assert !IsPage(h.s, p);
    PagesStart(h.g, g, h.s);
    NewSlabPages(g, h.s, s', k, StaticHdr(L, k), p, {});
    hide PagesOk;
    forall b ensures IsPage(s', b) <==> IsPage(h.s, b) || b == p {
      AddedPages(h.s, s', StaticHdr(L, k), k, p, {}, b);
    }
    hide IsPage;
  }

  lemma PagesStart(g: PmState, g': PmState, s: SlabState)
    requires PagesOk(g, s) && forall b :: IsUsed(g, b) ==> IsUsed(g', b) && g'.blocks[b] == g.blocks[b]
    ensures PagesOk(g', s)
  {
    PagesMono(g, g', s);
  }

  lemma StartedNew(L: Layout, s: SlabState, k: nat)
    requires HeadsOnly(L, s, k)
    ensures StaticHdr(L, k) !in s.slabs
  {
  }

  lemma UsedIn(g: PmState)
    ensures forall c :: IsUsed(g, c) ==> c in g.blocks
  {
  }

  lemma {:induction false} PrefixStarted(L: Layout, g: PmState, n: nat)
    requires PmInv(L, g) && n <= CLASSES
    ensures var r := InitPrefix(L, g, n); r.Done? ==> Started(L, g, r.value, n)
  {
    hide PmInv, InitStep, Started;
    if n == 0 {
      EmptyStarted(L, g);
    } else {
      PrefixStarted(L, g, n - 1);
      if InitPrefix(L, g, n - 1).Done? { StepStarted(L, g, InitPrefix(L, g, n - 1).value, n - 1); }
    }
  }

  /** After all fourteen: the invariant holds, no client exists, every list is its static head, and
      the blocks that were in use before belong to others. */
  lemma StartOk(L: Layout, g: PmState)
    requires PmInv(L, g) && InitPrefix(L, g, CLASSES).Done?
    ensures var h := InitPrefix(L, g, CLASSES).value;
      && HeapInv(L, h) && Quiescent(L, h.s) && h.s.taken == CLASSES && h.s.dropped == {} && h.s.returned == 0
      && (forall a :: !IsClient(h.s, a)) && (forall b :: Foreign(h, b) <==> IsUsed(g, b))
      && h.g.lo == g.lo && h.g.hi == g.hi && forall b :: IsUsed(g, b) ==>
         b in h.g.blocks && h.g.blocks[b] == g.blocks[b]
  {
    hide PmInv, InitPrefix, IsUsed, Started, SlabInv, Quiescent, IsPage;
    PrefixStarted(L, g, CLASSES);
    StartPlaced(L, g, InitPrefix(L, g, CLASSES).value);
    StartQuiet(L, g, InitPrefix(L, g, CLASSES).value);
  }

  lemma StartQuiet(L: Layout, g: PmState, h: HeapState)
    requires Started(L, g, h, CLASSES) && SlabInv(L, h.g, h.s)
    ensures Quiescent(L, h.s) && h.s.taken == CLASSES && h.s.dropped == {} && h.s.returned == 0
    ensures forall a :: !IsClient(h.s, a)
    ensures forall b :: Foreign(h, b) <==> IsUsed(g, b)
    ensures h.g.lo == g.lo && h.g.hi == g.hi && forall b :: IsUsed(g, b) ==>
      b in h.g.blocks && h.g.blocks[b] == g.blocks[b]
  {
    hide IsUsed, IsPage;
    StaticCount(L, h.s);
  }

  lemma StartPlaced(L: Layout, g: PmState, h: HeapState)
    requires Started(L, g, h, CLASSES)
    ensures SlabInv(L, h.g, h.s)
  {
    hide IsUsed, IsPage, PagesOk;
    assert SlotsOk(h.s);
  }

  // ---- Memory ----

  /** Unchanged: the blocks in use in `g`, and the kernel data of others. */
  ghost predicate StartKept(L: Layout, g: PmState, m: Mem, m': Mem) {
    && (forall b, x :: IsUsed(g, b) && b <= x < b + Size(g.blocks[b]) ==> At(m', x) == At(m, x))
    && (forall x :: OtherKernelData(L, x) ==> At(m', x) == At(m, x))
  }

  ghost function StaticWords(L: Layout, m: Mem, k: nat, p: int): Mem {
    Put(Put(Put(m, StaticHdr(L, k), p), StaticHdr(L, k) + BITMAP, 0), StaticHdr(L, k) + NEXT, 0)
  }

  lemma StaticStep(L: Layout, g0: PmState, h: HeapState, m0: Mem, m: Mem, m1: Mem, k: nat)
    requires PmInv(L, h.g) && Started(L, g0, h, k) && k < CLASSES && InitStep(L, h, k).Done? && |h.g.free| == 3
    requires SlabRep(m, h.s) && StartKept(L, g0, m0, m)
    requires PmFrame(L, h.g, m, m1) && PmRep(L, m1, Alloc(h.g, PageLevel(k)))
    ensures var h', m2 := InitStep(L, h, k).value, StaticWords(L, m1, k, AllocAddr(h.g, PageLevel(k)));
      && PmRep(L, m2, h'.g) && SlabRep(m2, h'.s) && StartKept(L, g0, m0, m2)
  {
    hide PmInv, IsUsed, IsPage, PagesOk, Alloc, AllocAddr, CanAlloc, PmRep, PmFrame, SlabRep, StartKept, PmCore;
    var h', p := InitStep(L, h, k).value, AllocAddr(h.g, PageLevel(k));
    StaticPm(L, h'.g, m1, k, p);
    StaticRep(L, g0, h, m, m1, k, p);
    StaticKept(L, g0, h, m0, m, m1, k, p);
  }

  lemma StaticPm(L: Layout, g: PmState, m: Mem, k: nat, p: int)
    requires PmInv(L, g) && PmRep(L, m, g) && k < CLASSES
    ensures PmRep(L, StaticWords(L, m, k, p), g)
  {
    hide PmRep, PmCore;
    var q := StaticHdr(L, k);
    LowWritePm(L, g, m, q, p);
    LowWritePm(L, g, Put(m, q, p), q + BITMAP, 0);
    LowWritePm(L, g, Put(Put(m, q, p), q + BITMAP, 0), q + NEXT, 0);
  }

  lemma StaticRep(L: Layout, g0: PmState, h: HeapState, m: Mem, m1: Mem, k: nat, p: int)
    requires Started(L, g0, h, k) && k < CLASSES && SlabRep(m, h.s) && PmFrame(L, h.g, m, m1)
    ensures SlabRep(StaticWords(L, m1, k, p), AddStatic(L, h.s, k, p))
  {
    hide IsUsed, IsPage, PagesOk;
    var m2, s' := StaticWords(L, m1, k, p), AddStatic(L, h.s, k, p);
    EmptyWord();
    hide SetOf;
    forall q | q in s'.slabs ensures HdrRep(m2, s', q) {
      if q != StaticHdr(L, k) { assert HdrRep(m, h.s, q); }
    }
    forall j | 0 <= j < |s'.lists| ensures Threaded(m2, s'.lists[j]) {
      if j < k { assert Threaded(m, h.s.lists[j]) && LinkOk(m, h.s.lists[j], 0); }
    }
  }

  lemma EmptyWord()
    ensures SetOf(0) == {}
  {
    SpecialWords();
  }

  lemma StaticKept(L: Layout, g0: PmState, h: HeapState, m0: Mem, m: Mem, m1: Mem, k: nat, p: int)
    requires PmInv(L, h.g) && Started(L, g0, h, k) && k < CLASSES && PmFrame(L, h.g, m, m1) && StartKept(L, g0, m0, m)
    ensures StartKept(L, g0, m0, StaticWords(L, m1, k, p))
  {
    hide PmInv, Started, IsUsed;
    StartedUsed(L, g0, h, k);
  }

  lemma StartedUsed(L: Layout, g0: PmState, h: HeapState, k: nat)
    requires PmInv(L, h.g) && Started(L, g0, h, k)
    ensures forall b :: IsUsed(g0, b) ==> L.kernelEnd <= b && IsUsed(h.g, b) && h.g.blocks[b] == g0.blocks[b]
  {
    hide HeadsOnly;
  }

  lemma InitPrefixStart(L: Layout, g: PmState, m: Mem)
    requires PmInv(L, g)
    ensures InitPrefix(L, g, 0) == Done(HeapState(g, EMPTY)) && Started(L, g, HeapState(g, EMPTY), 0)
    ensures SlabRep(m, EMPTY) && StartKept(L, g, m, m)
  {
    EmptyStarted(L, g);
  }

  lemma InitPrefixNext(L: Layout, g: PmState, h: HeapState, i: nat)
    requires PmInv(L, g) && InitPrefix(L, g, i) == Done(h) && i < CLASSES
    ensures PmInv(L, h.g) && |h.g.free| == 3 && InitPrefix(L, g, i + 1) == InitStep(L, h, i)
    ensures InitPrefix(L, g, i + 1).Panic? ==> InitPrefix(L, g, CLASSES).Panic?
    ensures InitPrefix(L, g, i + 1).Done? ==> Started(L, g, InitPrefix(L, g, i + 1).value, i + 1)
  {
    hide PmInv, InitStep, Started;
    FreeLen(L, h.g);
    PanicLasts(L, g, i + 1, CLASSES);
    PrefixStarted(L, g, i + 1);
  }
}
