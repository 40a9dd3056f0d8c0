/** The memory side of the process operations: each layer's step leaves the other layers' data alone. */
module ProcMem {
  import opened Bits
  import opened Memory
  import opened Blocks
  import opened Slabs
  import opened Heap
  import opened SlabMem
  import opened SlabSteps
  import opened PageTables
  import opened PageWalk
  import opened PageMem
  import opened Procs

  /** All three layers are consistent and represented in `m`. */
  ghost predicate CoreRep(L: Layout, h: HeapState, v: VmState, m: Mem) {
    Core(L, h, v) && PmRep(L, m, h.g) && SlabRep(m, h.s) && VmRep(m, v)
  }

  /** Unchanged: every client block, every other block outside the heap but the cells in `e`, frames of
      the trees included, and the kernel data of others. */
  ghost predicate OldKept(L: Layout, h: HeapState, m: Mem, m': Mem, e: set<int>) {
    && (forall a, k, x :: ClientOf(h, a, k) && a <= x < a + ClassSize(k) ==> At(m', x) == At(m, x))
    && (forall b, x :: Foreign(h, b) && b <= x < b + Size(h.g.blocks[b]) && x !in e ==> At(m', x) == At(m, x))
    && (forall x :: OtherKernelData(L, x) ==> At(m', x) == At(m, x))
  }

  /** All clients and all blocks outside the heap are still there. */
  ghost predicate Grows(h: HeapState, h': HeapState) {
    && (forall a, k :: ClientOf(h, a, k) ==> ClientOf(h', a, k))
    && (forall b :: Foreign(h, b) ==> Foreign(h', b) && h'.g.blocks[b] == h.g.blocks[b])
  }

  ghost predicate NotYet(h: HeapState, a: int) {
    forall k :: !ClientOf(h, a, k)
  }

  lemma StartHere(L: Layout, h: HeapState, m: Mem)
    ensures Grows(h, h) && OldKept(L, h, m, m, {})
  {
  }

  lemma OldTrans(L: Layout, h: HeapState, h1: HeapState, m1: Mem, m2: Mem, m3: Mem, e1: set<int>, e2: set<int>,
                 e: set<int>)
    requires Grows(h, h1) && OldKept(L, h, m1, m2, e1) && OldKept(L, h1, m2, m3, e2) && e1 <= e && e2 <= e
    ensures OldKept(L, h, m1, m3, e)
  {
    hide ClientOf, Foreign, OtherKernelData, ClassSize;
  }

  lemma OldMore(L: Layout, h: HeapState, m: Mem, m': Mem, e: set<int>, e': set<int>)
    requires OldKept(L, h, m, m', e) && e <= e'
    ensures OldKept(L, h, m, m', e')
  {
    hide ClientOf, Foreign, OtherKernelData, ClassSize;
  }

  lemma GrowsTrans(h: HeapState, h1: HeapState, h2: HeapState)
    requires Grows(h, h1) && Grows(h1, h2)
    ensures Grows(h, h2)
  {
    hide ClientOf, Foreign;
  }

  lemma RepParts(L: Layout, h: HeapState, v: VmState, m: Mem)
    requires CoreRep(L, h, v, m)
    ensures Rep(L, h, m) && VRep(L, VmSt(h.g, v), m) && |h.g.free| == 3 && |h.s.lists| == CLASSES
    ensures HeapInv(L, h) && PmInv(L, h.g) && Core(L, h, v) && PmRep(L, m, h.g)
  {
    hide PmRep, VmRep, FramesForeign, TreeOk, FramesOk;
  }

  // ---- A heap step ----

  lemma TablesThroughHeap(L: Layout, h: HeapState, v: VmState, m: Mem, m': Mem)
    requires Core(L, h, v) && VmRep(m, v) && Kept(L, h, m, m')
    ensures VmRep(m', v)
  {
    hide HeapInv, PmInv;
    forall p, i: nat | p in v.ent && IsTable(p, v.ent[p]) && i < ENTRIES ensures EntryOk(m', v, p, i) {
      assert EntryOk(m, v, p, i);
      assert OwnsFrame(v, Frame(v.ent[p]));
      CellInFrame(v.ent[p], i);
      hide Frame, TreeOk, EntryWord, IsUsed;
      assert Foreign(h, Frame(v.ent[p]));
    }
  }

  lemma HeapStepRep(L: Layout, h: HeapState, h': HeapState, v: VmState, m: Mem, m': Mem, a: int, k: nat)
    requires CoreRep(L, h, v, m) && OnlyAdds(h, h', a, k) && Rep(L, h', m') && Kept(L, h, m, m')
    ensures CoreRep(L, h', v, m') && Grows(h, h') && OldKept(L, h, m, m', {})
    ensures ClientOf(h', a, k) && !IsClient(h.s, a)
  {
    hide HeapInv, PmInv, PmRep, SlabRep, VmRep, StOk, Core, OwnsFrame, Foreign;
    RepHeapInv(L, h', m');
    CoreHeap(L, h, h', v);
    TablesThroughHeap(L, h, v, m, m');
  }

  /** The same for `kmfree`: what is still there after it is as it was. */
  lemma HeapFreeRep(L: Layout, h: HeapState, h': HeapState, v: VmState, m: Mem, m': Mem, a: int)
    requires CoreRep(L, h, v, m) && OnlyRemoves(h, h', a) && Rep(L, h', m') && Kept(L, h', m, m')
    ensures CoreRep(L, h', v, m') && OldKept(L, h', m, m', {})
  {
    hide HeapInv, PmInv, PmRep, SlabRep, VmRep, StOk, Core, OwnsFrame, Foreign, ClientsLess;
    RepHeapInv(L, h', m');
    CoreHeap(L, h, h', v);
    TablesThroughHeap(L, h', v, m, m');
  }

  lemma RepHeapInv(L: Layout, h: HeapState, m: Mem)
    requires Rep(L, h, m)
    ensures HeapInv(L, h)
  {
  }

  // ---- Writes inside a client block ----

  /** At most the bytes of block `a` differ. */
  ghost predicate OnlyIn(m: Mem, m': Mem, a: int, n: int) {
    forall x :: !(a <= x < a + n) ==> At(m', x) == At(m, x)
  }

  lemma TablesThroughWrite(L: Layout, h: HeapState, v: VmState, m: Mem, m': Mem, b: int)
    requires Core(L, h, v) && VmRep(m, v) && IsUsed(h.g, b) && HeapBlock(h, b) && OnlyIn(m, m', b, Size(h.g.blocks[b]))
    ensures VmRep(m', v)
  {
    hide HeapInv;
    forall p, i: nat | p in v.ent && IsTable(p, v.ent[p]) && i < ENTRIES ensures EntryOk(m', v, p, i) {
      assert EntryOk(m, v, p, i);
      assert OwnsFrame(v, Frame(v.ent[p]));
      CellInFrame(v.ent[p], i);
      hide Frame, TreeOk, EntryWord, IsUsed;
      assert Foreign(h, Frame(v.ent[p]));
      BlocksApart(L, h.g, b, Frame(v.ent[p]));
    }
  }

  /** Writing inside one client block disturbs no layer and no other client. */
  lemma BlockWriteRep(L: Layout, h: HeapState, v: VmState, m: Mem, m': Mem, a: int, k: nat)
    requires CoreRep(L, h, v, m) && ClientOf(h, a, k) && OnlyIn(m, m', a, ClassSize(k))
    ensures CoreRep(L, h, v, m')
    ensures forall b, j, x :: ClientOf(h, b, j) && b != a && b <= x < b + ClassSize(j) ==> At(m', x) == At(m, x)
    ensures forall b, x :: Foreign(h, b) && b <= x < b + Size(h.g.blocks[b]) ==> At(m', x) == At(m, x)
    ensures forall x :: x < L.kernelEnd ==> At(m', x) == At(m, x)
  {
    hide StOk, PmRep, SlabRep, VmRep, OwnsFrame, ListsOk, PagesOk, SlotsOk, HeadersOk, InService, PmCore;
    ClientWrite(L, h, m, m', a);
    OccPlace(L, h.g, h.s, a);
    var b := h.s.slabs[h.s.occ[a].hdr].page;
    OnlyInPage(m, m', a, ClassSize(k), b, Size(h.g.blocks[b]));
    TablesThroughWrite(L, h, v, m, m', b);
    hide Placed, IsPage, IsUsed, OnlyIn;
  }

  /** The same for a block that is new since `h0`: nothing older changes. */
  lemma BlockWrite(L: Layout, h0: HeapState, m0: Mem, e: set<int>, h: HeapState, v: VmState, m: Mem, m': Mem, a: int,
                   k: nat)
    requires CoreRep(L, h, v, m) && ClientOf(h, a, k) && OnlyIn(m, m', a, ClassSize(k))
    requires Grows(h0, h) && OldKept(L, h0, m0, m, e) && NotYet(h0, a)
    ensures CoreRep(L, h, v, m') && OldKept(L, h0, m0, m', e)
    ensures forall b, j, x :: ClientOf(h, b, j) && b != a && b <= x < b + ClassSize(j) ==> At(m', x) == At(m, x)
  {
    hide CoreRep, Grows, OldKept, OnlyIn, ClientOf, Foreign;
    BlockWriteRep(L, h, v, m, m', a, k);
    WriteOld(L, h0, m0, e, h, m, m', a);
  }

  lemma OnlyInPage(m: Mem, m': Mem, a: int, n: int, b: int, size: int)
    requires OnlyIn(m, m', a, n) && b <= a && a + n <= b + size
    ensures OnlyIn(m, m', b, size)
  {
  }

  lemma WriteOld(L: Layout, h0: HeapState, m0: Mem, e: set<int>, h: HeapState, m: Mem, m': Mem, a: int)
    requires Grows(h0, h) && OldKept(L, h0, m0, m, e) && NotYet(h0, a)
    requires forall b, k, x :: ClientOf(h, b, k) && b != a && b <= x < b + ClassSize(k) ==> At(m', x) == At(m, x)
    requires forall b, x :: Foreign(h, b) && b <= x < b + Size(h.g.blocks[b]) ==> At(m', x) == At(m, x)
    requires forall x :: x < L.kernelEnd ==> At(m', x) == At(m, x)
    ensures OldKept(L, h0, m0, m', e)
  {
    hide Foreign, ClassSize;
  }

  // ---- A step of the page tables ----

  /** The cells in `e` lie in no block outside the trees. */
  ghost predicate InTrees(st: VmSt, e: set<int>) {
    forall b, x :: Outside(st, b) && b <= x < b + Size(st.g.blocks[b]) ==> x !in e
  }

  /** Heap headers and clients are outside the trees. */
  lemma HeapThroughTables(L: Layout, h: HeapState, v: VmState, m: Mem, m': Mem, e: set<int>)
    requires Core(L, h, v) && SlabRep(m, h.s) && Spared(L, h.g, m, m', e) && InTrees(VmSt(h.g, v), e)
    ensures SlabRep(m', h.s) && OldKept(L, h, m, m', e)
  {
    hide StOk, SlabRep, OwnsFrame;
    PagesOutside(L, h, v);
    ThroughSlabs(L, h, m, m');
    hide Placed, PmCore, HeapInv, IsUsed;
  }

  lemma PagesOutside(L: Layout, h: HeapState, v: VmState)
    requires HeapInv(L, h) && FramesForeign(h, v)
    ensures PmCore(L, h.g) && Placed(L, h.g, h.s) && ListsOk(L, h.s)
    ensures forall q :: q in h.s.slabs ==> IsUsed(h.g, h.s.slabs[q].page) && Outside(VmSt(h.g, v), h.s.slabs[q].page)
  {
    hide OwnsFrame;
    forall q | q in h.s.slabs ensures Outside(VmSt(h.g, v), h.s.slabs[q].page) {
      assert IsPage(h.s, h.s.slabs[q].page);
    }
  }

  /** Memory that keeps the pages of listed slabs and the static headers keeps headers and clients. */
  lemma ThroughSlabs(L: Layout, h: HeapState, m: Mem, m': Mem)
    requires PmCore(L, h.g) && Placed(L, h.g, h.s) && ListsOk(L, h.s) && SlabRep(m, h.s)
    requires forall q, x ::
      q in h.s.slabs && h.s.slabs[q].page <= x < h.s.slabs[q].page + Size(h.g.blocks[h.s.slabs[q].page]) ==>
      At(m', x) == At(m, x)
    requires forall x :: x < L.kernelEnd && !(L.pmmap <= x < L.pmmap + 24) ==> At(m', x) == At(m, x)
    ensures SlabRep(m', h.s)
    ensures forall a, k, x :: ClientOf(h, a, k) && a <= x < a + ClassSize(k) ==> At(m', x) == At(m, x)
  {
    hide PmCore, Placed, ListsOk, SlabRep;
    forall hdr, x | hdr in h.s.slabs && InHdr(hdr, x) ensures At(m', x) == At(m, x) {
      HdrPlace(L, h.g, h.s, hdr);
    }
    RepFrame(L, h.s, m, m');
    forall a, k, x | ClientOf(h, a, k) && a <= x < a + ClassSize(k) ensures At(m', x) == At(m, x) {
      OccPlace(L, h.g, h.s, a);
    }
  }

  /** A step of the page tables that touches only the trees. */
  lemma TreeStepRep(L: Layout, h: HeapState, v: VmState, st: VmSt, m: Mem, m': Mem, e: set<int>)
    requires CoreRep(L, h, v, m) && VRep(L, st, m') && SameOutside(VmSt(h.g, v), st)
    requires Spared(L, h.g, m, m', e) && InTrees(VmSt(h.g, v), e)
    ensures var h' := HeapState(st.g, h.s);
      CoreRep(L, h', st.v, m') && OldKept(L, h, m, m', e) && Rep(L, h', m') && SameClients(h, h')
  {
    hide StOk, PmRep, VmRep, SlabRep, HeapInv, OwnsFrame, OldKept, FramesForeign, IsUsed, Spared, InTrees;
    CoreVm(L, h, v, st);
    HeapThroughTables(L, h, v, m, m', e);
  }

  /** A step of the page tables that takes every block in use along. */
  lemma TreeGrows(h: HeapState, st: VmSt)
    requires forall b :: IsUsed(h.g, b) ==> IsUsed(st.g, b) && st.g.blocks[b] == h.g.blocks[b]
    ensures Grows(h, HeapState(st.g, h.s)) && SameClients(h, HeapState(st.g, h.s))
  {
    hide IsPage, IsUsed;
  }

  /** The links a walk adds lie in the trees. */
  lemma LinksAreInTrees(L: Layout, st: VmSt, st': VmSt)
    requires StOk(L, st') && SameOutside(st, st')
    ensures InTrees(st, NewLinks(st.v, st'.v))
  {
    hide StOk, NewLinks, OwnsFrame;
    forall b, x | Outside(st, b) && b <= x < b + Size(st.g.blocks[b]) ensures x !in NewLinks(st.v, st'.v) {
      assert Outside(st', b);
      LinksInTrees(L, st', st.v, b, x);
    }
  }

  /** A whole walk. */
  lemma WalkStepRep(L: Layout, h: HeapState, v: VmState, st: VmSt, m: Mem, m': Mem)
    requires CoreRep(L, h, v, m) && VRep(L, st, m') && SameOutside(VmSt(h.g, v), st)
    requires VmKept(L, VmSt(h.g, v), st, m, m')
    ensures var h' := HeapState(st.g, h.s);
      && CoreRep(L, h', st.v, m') && OldKept(L, h, m, m', NewLinks(v, st.v)) && Rep(L, h', m')
      && SameClients(h, h') && Grows(h, h')
  {
    hide StOk, PmRep, VmRep, CoreRep, Rep, OldKept, SameOutside, Spared, InTrees, NewLinks, IsUsed;
    LinksAreInTrees(L, VmSt(h.g, v), st);
    TreeStepRep(L, h, v, st, m, m', NewLinks(v, st.v));
    TreeGrows(h, st);
  }

  // ---- A new root ----

  lemma RootRep(L: Layout, st: VmSt, m: Mem, p: int, w: int)
    requires TreeOk(st.v) && VmRep(m, st.v) && UserRoot(p) !in st.v.ent && ZeroRange(m, Frame(w), PM_4K)
    ensures VmRep(m, Add(st.v, UserRoot(p), w))
  {
    hide Frame, TreeOk, EntryWord, HasPS;
    var v, v' := st.v, Add(st.v, UserRoot(p), w);
    forall q, i: nat | q in v'.ent && IsTable(q, v'.ent[q]) && i < ENTRIES ensures EntryOk(m, v', q, i) {
      RootWords(v, p, w, q, i);
      if q == UserRoot(p) {
        CellInFrame(w, i);
      } else {
        assert EntryOk(m, v, q, i);
      }
    }
  }

  lemma RootWords(v: VmState, p: int, w: int, q: Pos, i: nat)
    requires TreeOk(v) && UserRoot(p) !in v.ent && i < ENTRIES && q.level >= 1 && (q in v.ent || q == UserRoot(p))
    ensures EntryWord(Add(v, UserRoot(p), w), q, i) == if q == UserRoot(p) then 0 else EntryWord(v, q, i)
  {
    hide TreeOk;
    if q == UserRoot(p) { RootEmpty(v, p, i); } else { RootNoParent(v, p, q); }
  }

  /** No position in the tree has the new root as its child. */
  lemma RootNoParent(v: VmState, p: int, q: Pos)
    requires TreeOk(v) && UserRoot(p) !in v.ent && q in v.ent
    ensures q.level >= 1 ==> forall i: nat :: Child(q, i) != UserRoot(p)
    ensures v.active != Some(p)
  {
    assert Shaped(v, q, v.ent[q]);
  }

  lemma RootEmpty(v: VmState, p: int, i: nat)
    requires TreeOk(v) && UserRoot(p) !in v.ent && i < ENTRIES
    ensures Child(UserRoot(p), i) !in v.ent
  {
    ChildParent(UserRoot(p), i);
    var c := Child(UserRoot(p), i);
    assert c in v.ent ==> Linked(v, c);
  }

  /** `pmalloc` of a root table for `p`. */
  lemma RootStep(L: Layout, h: HeapState, v: VmState, m: Mem, m1: Mem, p: int)
    requires CoreRep(L, h, v, m) && HeapInv(L, h) && UserRoot(p) !in v.ent && |h.g.free| == 3 && CanAlloc(h.g, 0)
    requires PmRep(L, m1, Alloc(h.g, 0)) && PmFrame(L, h.g, m, m1) && ZeroRange(m1, AllocAddr(h.g, 0), PM_4K)
    ensures AddRoot(L, h, v, p).Done?
    ensures var st, f := AddRoot(L, h, v, p).value, AllocAddr(h.g, 0);
      && CoreRep(L, HeapState(st.g, h.s), st.v, m1) && Grows(h, HeapState(st.g, h.s)) && OldKept(L, h, m, m1, {})
      && SameClients(h, HeapState(st.g, h.s)) && st == VmSt(Alloc(h.g, 0), Add(v, UserRoot(p), f + 7))
      && |st.g.free| == 3
      && f % PM_4K == 0 && 0 < f && f + 7 < WORD_LIMIT && Rep(L, HeapState(st.g, h.s), m1) && VRep(L, st, m1)
  {
    hide HeapInv, StOk, PmRep, VmRep, SlabRep, PmFrame, Alloc, AllocAddr, CanAlloc, OwnsFrame, OldKept, IsUsed;
    hide FramesForeign, Frame, SameOutside, Grows, AddRoot, Core, Spared, InTrees;
    RepParts(L, h, v, m);
    CoreSt(L, h, v);
    AddRootOk(L, h, v, p);
    AddRootValue(L, h, v, p);
    var f, st := AllocAddr(h.g, 0), AddRoot(L, h, v, p).value;
    RootMem(L, h, v, m, m1, p);
    NoneInTrees(VmSt(h.g, v));
    TreeStepRep(L, h, v, st, m, m1, {});
    FreshFrame(L, VmSt(h.g, v));
    TreeGrows(h, st);
  }

  lemma NoneInTrees(st: VmSt)
    ensures InTrees(st, {})
  {
  }

  lemma RootMem(L: Layout, h: HeapState, v: VmState, m: Mem, m1: Mem, p: int)
    requires StOk(L, VmSt(h.g, v)) && VmRep(m, v) && UserRoot(p) !in v.ent && |h.g.free| == 3 && CanAlloc(h.g, 0)
    requires PmRep(L, m1, Alloc(h.g, 0)) && PmFrame(L, h.g, m, m1) && ZeroRange(m1, AllocAddr(h.g, 0), PM_4K)
    requires StOk(L, VmSt(Alloc(h.g, 0), Add(v, UserRoot(p), AllocAddr(h.g, 0) + 7)))
    ensures var f := AllocAddr(h.g, 0); var st := VmSt(Alloc(h.g, 0), Add(v, UserRoot(p), f + 7));
      && VRep(L, st, m1) && Spared(L, h.g, m, m1, {}) && f % PM_4K == 0 && 0 < f && f + 7 < WORD_LIMIT
      && |st.g.free| == 3
  {
    hide StOk, PmRep, VmRep, PmFrame, Spared, Alloc, AllocAddr, CanAlloc, OwnsFrame, IsUsed, Frame, TreeOk, PmInv;
    hide PmCore, VmInv, ZeroRange;
    var f, st := AllocAddr(h.g, 0), VmSt(h.g, v);
    StParts(L, st);
    FreshFrame(L, st);
    PlainWord(f, 7);
    StParts(L, VmSt(Alloc(h.g, 0), Add(v, UserRoot(p), f + 7)));
    PmStepTables(L, h.g, v, m, m1);
    PmStepSpared(L, h.g, m, m1);
    RootRep(L, st, m1, p, f + 7);
  }

  lemma AddRootValue(L: Layout, h: HeapState, v: VmState, p: int)
    requires HeapInv(L, h) && |h.g.free| == 3
    ensures if CanAlloc(h.g, 0)
            then AddRoot(L, h, v, p) == Done(VmSt(Alloc(h.g, 0), Add(v, UserRoot(p), AllocAddr(h.g, 0) + 7)))
            else AddRoot(L, h, v, p).Panic?
  {
    hide HeapInv, Alloc, AllocAddr, CanAlloc;
  }
}
