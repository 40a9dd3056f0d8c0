/** Processes as transitions on the whole kernel memory state: the physical allocator, the slab
    allocator and the page tables together, and what every run of them keeps. Pure. */
module Procs {
  import opened Bits
  import opened Memory
  import opened Blocks
  import opened Slabs
  import opened Heap
  import opened PageTables
  import opened PageWalk
  import opened PageFree

  const SET := 1
  const READY := 2
  const RUN := 3
  const PROC_CLASS := 3
  const STACK_CLASS := 4
  const NODE_CLASS := 0

  /** A process: `kstack` its kernel stack, `node` its entry of the process list. */
  datatype Proc = Proc(stat: int, pid: nat, kstack: int, node: int)

  /** `procs` is keyed by the address of the process structure. */
  datatype Sys = Sys(h: HeapState, v: VmState, procs: map<int, Proc>, cur: Option<int>, nextpid: nat)

  ghost function St(y: Sys): VmSt {
    VmSt(y.h.g, y.v)
  }

  // ---- The two allocators' clients stay apart ----

  ghost predicate FramesForeign(h: HeapState, v: VmState) {
    forall f :: OwnsFrame(v, f) ==> Foreign(h, f)
  }

  /** Heap and page tables are each consistent, and no frame of a tree is a page of the heap. */
  ghost predicate Core(L: Layout, h: HeapState, v: VmState) {
    HeapInv(L, h) && StOk(L, VmSt(h.g, v)) && FramesForeign(h, v)
  }

  lemma CoreHeap(L: Layout, h: HeapState, h': HeapState, v: VmState)
    requires Core(L, h, v) && HeapInv(L, h') && SameForeign(h, h')
    ensures Core(L, h', v)
  {
    hide PmInv, SlabInv, TreeOk, Shaped, Owned, Frame;
    forall p | p in v.ent && Owned(p, v.ent[p])
      ensures IsUsed(h'.g, Frame(v.ent[p])) && h'.g.blocks[Frame(v.ent[p])] == 0
    {
      assert OwnsFrame(v, Frame(v.ent[p]));
      assert Foreign(h, Frame(v.ent[p])) && Foreign(h', Frame(v.ent[p]));
    }
  }

  lemma CoreVm(L: Layout, h: HeapState, v: VmState, st': VmSt)
    requires Core(L, h, v) && StOk(L, st') && SameOutside(VmSt(h.g, v), st')
    ensures Core(L, HeapState(st'.g, h.s), st'.v)
  {
    hide PmInv, OwnsFrame, TreeOk, FramesOk, IsUsed, IsPage, ListsOk, SlotsOk, HeadersOk, PagesOk;
    HeapOutside(h, v, st');
    SlabsThrough(L, h, st'.g);
  }

  ghost predicate HeapBlock(h: HeapState, b: int) {
    IsPage(h.s, b) || b in h.s.dropped
  }

  /** The heap's pages stay in use through a step of the page tables. */
  lemma HeapOutside(h: HeapState, v: VmState, st': VmSt)
    requires FramesForeign(h, v) && PagesOk(h.g, h.s) && FramesOk(st'.g, st'.v) && SameOutside(VmSt(h.g, v), st')
    ensures forall b :: HeapBlock(h, b) ==> IsUsed(st'.g, b) && st'.g.blocks[b] == h.g.blocks[b]
    ensures FramesForeign(HeapState(st'.g, h.s), st'.v)
  {
    forall b | HeapBlock(h, b) ensures Outside(st', b) && IsUsed(h.g, b) && st'.g.blocks[b] == h.g.blocks[b] {
      assert !Foreign(h, b);
      assert Outside(VmSt(h.g, v), b);
    }
    forall f | OwnsFrame(st'.v, f) ensures Foreign(HeapState(st'.g, h.s), f) {
      assert !Outside(st', f) && !HeapBlock(h, f);
    }
  }

  lemma SlabsThrough(L: Layout, h: HeapState, g': PmState)
    requires SlabInv(L, h.g, h.s)
    requires forall b :: HeapBlock(h, b) ==> IsUsed(g', b) && g'.blocks[b] == h.g.blocks[b]
    ensures SlabInv(L, g', h.s)
  {
    hide ListsOk, SlotsOk, HeadersOk, InService, IsUsed;
    forall q | q in h.s.slabs ensures HeapBlock(h, h.s.slabs[q].page) {}
    forall b | b in h.s.dropped ensures HeapBlock(h, b) {}
  }

  // ---- Allocations ----

  ghost function Acquire(L: Layout, h: HeapState, k: nat): (r: Outcome<Grab>)
    requires HeapInv(L, h) && k < CLASSES
    ensures r.Done? ==> HeapInv(L, r.value.h) && OnlyAdds(h, r.value.h, r.value.addr, k)
  {
    hide HeapInv, OnlyAdds;
    KAllocOk(L, h, k);
    KAlloc(L, h, k)
  }

  ghost predicate SameClients(h: HeapState, h': HeapState) {
    forall b, j :: ClientOf(h', b, j) <==> ClientOf(h, b, j)
  }

  /** A fresh root for process `p`. */
  ghost function AddRoot(L: Layout, h: HeapState, v: VmState, p: int): (r: Outcome<VmSt>)
    requires HeapInv(L, h)
    ensures r.Done? ==> HeapInv(L, HeapState(r.value.g, h.s)) && SameClients(h, HeapState(r.value.g, h.s))
  {
    hide IsUsed, IsPage, PmInv, SlabInv, Alloc, AllocAddr, CanAlloc;
    HeapLen(L, h);
    if CanAlloc(h.g, 0) then
      FreshPage(L, h, 0);
      Done(VmSt(Alloc(h.g, 0), Add(v, UserRoot(p), AllocAddr(h.g, 0) + PG_P + PG_RW + PG_US)))
    else Panic
  }

  lemma HeapLen(L: Layout, h: HeapState)
    requires HeapInv(L, h)
    ensures |h.g.free| == 3 && |h.s.lists| == CLASSES
  {
  }

  lemma AddRootOk(L: Layout, h: HeapState, v: VmState, p: int)
    requires Core(L, h, v) && UserRoot(p) !in v.ent
    ensures var r := AddRoot(L, h, v, p); r.Done? ==>
      && StOk(L, r.value) && SameOutside(VmSt(h.g, v), r.value) && Core(L, HeapState(r.value.g, h.s), r.value.v)
  {
    hide HeapInv, PmInv, VmInv, IsUsed, OwnsFrame, Owned, Shaped, Linked, Frame, HasPS, Present, Alloc, AllocAddr;
    hide CanAlloc, Core;
    var st := VmSt(h.g, v);
    CoreSt(L, h, v);
    HeapLen(L, h);
    if CanAlloc(h.g, 0) {
      FreshFrame(L, st);
      var f, g := AllocAddr(h.g, 0), Alloc(h.g, 0);
      PlainWord(f, 7);
      RootShape(v, p, f);
      AddInv(g, v, UserRoot(p), f + 7);
      AddExtends(st, g, UserRoot(p), f + 7, f);
      CoreVm(L, h, v, VmSt(g, Add(v, UserRoot(p), f + 7)));
    }
  }

  lemma CoreSt(L: Layout, h: HeapState, v: VmState)
    requires Core(L, h, v)
    ensures HeapInv(L, h) && StOk(L, VmSt(h.g, v)) && PmInv(L, h.g)
  {
  }

  lemma RootShape(v: VmState, p: int, f: int)
    requires 0 <= f && f + 7 < WORD_LIMIT && Present(f + 7) && !HasPS(f + 7) && (f + 7) % PM_4K == 7 && (f + 7) % 8 == 7
    ensures Shaped(v, UserRoot(p), f + 7) && Owned(UserRoot(p), f + 7) && IsRoot(UserRoot(p))
  {
  }

  // ---- The invariant ----

  /** A block that belongs to a process: its structure, its kernel stack or its list node. */
  ghost predicate Mine(y: Sys, a: int) {
    exists p :: p in y.procs && a in {p, y.procs[p].kstack, y.procs[p].node}
  }

  ghost predicate BlocksOk(y: Sys) {
    && (forall p :: p in y.procs ==>
          ClientOf(y.h, p, PROC_CLASS) && ClientOf(y.h, y.procs[p].kstack, STACK_CLASS)
            && ClientOf(y.h, y.procs[p].node, NODE_CLASS))
    && (forall p, q :: p in y.procs && q in y.procs && p != q ==>
          y.procs[p].kstack != y.procs[q].kstack && y.procs[p].node != y.procs[q].node)
  }

  ghost predicate PidsOk(y: Sys) {
    && (forall p :: p in y.procs ==> y.procs[p].pid < y.nextpid)
    && (forall p, q :: p in y.procs && q in y.procs && p != q ==> y.procs[p].pid != y.procs[q].pid)
  }

  /** Every user position belongs to a process, and slot 2 names one. */
  ghost predicate SpacesOk(y: Sys) {
    && (forall q :: q in y.v.ent && q.space.User? ==> q.space.id in y.procs)
    && (y.v.active.Some? ==> y.v.active.value in y.procs)
  }

  ghost predicate OneRuns(y: Sys) {
    && (forall p :: p in y.procs ==> (y.procs[p].stat == RUN <==> y.cur == Some(p)))
    && (y.cur.Some? ==> y.cur.value in y.procs)
  }

  ghost predicate SysInv(L: Layout, y: Sys) {
    Core(L, y.h, y.v) && BlocksOk(y) && PidsOk(y) && SpacesOk(y) && OneRuns(y)
  }

  // ---- palloc ----

  datatype Spawned = Spawned(y: Sys, p: int)

  ghost function Register(y: Sys, h: HeapState, v: VmState, p: int, kstack: int, node: int): Sys {
    Sys(h, v, y.procs[p := Proc(SET, y.nextpid, kstack, node)], y.cur, y.nextpid + 1)
  }

  /** `palloc`: the structure, the kernel stack, the root table and the list node, in that order. */
  ghost function Palloc(L: Layout, y: Sys): Outcome<Spawned>
    requires HeapInv(L, y.h)
  {
    hide HeapInv, OnlyAdds, Acquire, PallocRest;
    var a :- Acquire(L, y.h, PROC_CLASS);
    var b :- Acquire(L, a.h, STACK_CLASS);
    PallocRest(L, y, a, b)
  }

  ghost function PallocRest(L: Layout, y: Sys, a: Grab, b: Grab): Outcome<Spawned>
    requires HeapInv(L, b.h)
  {
    hide HeapInv, OnlyAdds, Acquire, AddRoot;
    var st :- AddRoot(L, b.h, y.v, a.addr);
    var n :- Acquire(L, HeapState(st.g, b.h.s), NODE_CLASS);
    Done(Spawned(Register(y, n.h, st.v, a.addr, b.addr, n.addr), a.addr))
  }

  /** `palloc` adds one process, with blocks of its own, no address space but an empty root, and
      status SET; every other process stays as it was. */
  lemma PallocOk(L: Layout, y: Sys)
    requires SysInv(L, y)
    ensures var r := Palloc(L, y); r.Done? ==>
      && SysInv(L, r.value.y) && r.value.p !in y.procs && UserRoot(r.value.p) in r.value.y.v.ent
      && r.value.p in r.value.y.procs
      && r.value.y.cur == y.cur && r.value.y.v.active == y.v.active
  {
    hide HeapInv, OnlyAdds, Acquire, PallocRest, Core, BlocksOk, PidsOk, SpacesOk, OneRuns;
    CoreSt(L, y.h, y.v);
    var ra := Acquire(L, y.h, PROC_CLASS);
    if ra.Done? {
      var a := ra.value;
      AcquireCore(L, y.h, a, PROC_CLASS, y.v);
      var rb := Acquire(L, a.h, STACK_CLASS);
      if rb.Done? {
        AcquireCore(L, a.h, rb.value, STACK_CLASS, y.v);
        NewAddress(y, a);
        PallocRestOk(L, y, a, rb.value);
      }
    }
  }

  lemma PallocRestOk(L: Layout, y: Sys, a: Grab, b: Grab)
    requires SysInv(L, y) && a.addr !in y.procs && UserRoot(a.addr) !in y.v.ent
    requires OnlyAdds(y.h, a.h, a.addr, PROC_CLASS) && OnlyAdds(a.h, b.h, b.addr, STACK_CLASS)
    requires HeapInv(L, a.h) && HeapInv(L, b.h) && Core(L, b.h, y.v)
    ensures var r := PallocRest(L, y, a, b); r.Done? ==>
      && SysInv(L, r.value.y) && r.value.p == a.addr && UserRoot(a.addr) in r.value.y.v.ent && a.addr in r.value.y.procs
      && r.value.y.cur == y.cur && r.value.y.v.active == y.v.active
  {
    hide HeapInv, OnlyAdds, Acquire, AddRoot, Core, BlocksOk, PidsOk, SpacesOk, OneRuns, SameClients;
    AddRootOk(L, b.h, y.v, a.addr);
    if AddRoot(L, b.h, y.v, a.addr).Done? {
      var st := AddRoot(L, b.h, y.v, a.addr).value;
      var i := HeapState(st.g, b.h.s);
      AddRootIs(L, b.h, y.v, a.addr);
      if Acquire(L, i, NODE_CLASS).Done? {
        var n := Acquire(L, i, NODE_CLASS).value;
        AcquireCore(L, i, n, NODE_CLASS, st.v);
        RegisterBlocks(y, a, b, i, n, st.v);
        RegisterOthers(y, n.h, st.v, a.addr, b.addr, n.addr);
      }
    }
  }

  lemma AcquireCore(L: Layout, h: HeapState, a: Grab, k: nat, v: VmState)
    requires Core(L, h, v) && HeapInv(L, a.h) && OnlyAdds(h, a.h, a.addr, k)
    ensures Core(L, a.h, v)
  {
    hide HeapInv, StOk, FramesForeign, ClientsPlus, SameForeign;
    CoreHeap(L, h, a.h, v);
  }

  lemma NewAddress(y: Sys, a: Grab)
    requires BlocksOk(y) && SpacesOk(y) && OnlyAdds(y.h, a.h, a.addr, PROC_CLASS) && PidsOk(y) && OneRuns(y)
    ensures a.addr !in y.procs && UserRoot(a.addr) !in y.v.ent
  {
  }

  lemma AddRootIs(L: Layout, h: HeapState, v: VmState, p: int)
    requires HeapInv(L, h) && AddRoot(L, h, v, p).Done?
    ensures var st := AddRoot(L, h, v, p).value; exists w :: st.v == Add(v, UserRoot(p), w)
  {
    hide HeapInv, IsUsed;
  }

  lemma RegisterBlocks(y: Sys, a: Grab, b: Grab, i: HeapState, n: Grab, v: VmState)
    requires BlocksOk(y) && a.addr !in y.procs
    requires OnlyAdds(y.h, a.h, a.addr, PROC_CLASS) && OnlyAdds(a.h, b.h, b.addr, STACK_CLASS)
    requires SameClients(b.h, i) && OnlyAdds(i, n.h, n.addr, NODE_CLASS)
    ensures BlocksOk(Register(y, n.h, v, a.addr, b.addr, n.addr))
  {
    hide SameForeign;
    ClientsSame(b.h, i);
    hide IsClient;
  }

  lemma ClientsSame(h: HeapState, i: HeapState)
    requires SameClients(h, i)
    ensures forall b, j :: ClientOf(h, b, j) ==> ClientOf(i, b, j)
    ensures forall b, j :: ClientOf(i, b, j) ==> IsClient(i.s, b)
    ensures forall b, j :: ClientOf(h, b, j) ==> IsClient(h.s, b)
  {
  }

  lemma RegisterOthers(y: Sys, h: HeapState, v: VmState, p: int, kstack: int, node: int)
    requires PidsOk(y) && SpacesOk(y) && OneRuns(y) && p !in y.procs
    requires exists w :: v == Add(y.v, UserRoot(p), w)
    ensures var y' := Register(y, h, v, p, kstack, node);
      PidsOk(y') && SpacesOk(y') && OneRuns(y') && UserRoot(p) in y'.v.ent && y'.v.active == y.v.active
  {
  }
}
