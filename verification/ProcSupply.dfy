/** How many frames `palloc`, a page fault and `uinit` need. */
module ProcSupply {
  import opened Memory
  import opened Blocks
  import opened Supply
  import opened Slabs
  import opened Heap
  import opened SlabSupply
  import opened PageTables
  import opened PageWalk
  import opened PageSupply
  import opened Procs
  import opened Runs
  import opened Vm
  import opened Contents
  import opened Isolation
  import opened CallSteps

  ghost function NewSlabs(s: SlabState, k: nat): nat {
    if OpenSlots(s, k) == {} then 1 else 0
  }

  /** The root table, a slab for the structure and one for the kernel stack where their classes are full,
      and one of 64-byte slots where those do not hold the headers and the list node. */
  ghost function PallocFrames(s: SlabState): nat {
    var n := 1 + NewSlabs(s, PROC_CLASS) + NewSlabs(s, STACK_CLASS);
    n + if |OpenSlots(s, NODE_CLASS)| < n then 1 else 0
  }

  lemma EmptySlots(s: SlabState, k: nat)
    ensures OpenSlots(s, k) == {} <==> |OpenSlots(s, k)| == 0
  {
    hide OpenSlots;
  }

  lemma AcquireSupply(L: Layout, h: HeapState, k: nat, i: nat)
    requires HeapInv(L, h) && k <= SLAB_4K && (i == 0 || i == k || i == 3 || i == 4)
    ensures |h.g.free| == 3
    ensures var r := Acquire(L, h, k);
      && (r.Panic? <==> FreeFrames(h.g) < FramesFor(h.s, k))
      && (r.Done? ==>
            && |r.value.h.g.free| == 3 && FreeFrames(r.value.h.g) == FreeFrames(h.g) - FramesFor(h.s, k)
            && |OpenSlots(r.value.h.s, i)| == OpenAfter(h.s, k, i))
  {
    hide HeapInv, KAlloc, OnlyAdds, FreeFrames, FramesFor, OpenAfter, OpenSlots;
    KAllocSupply(L, h, k, i);
  }

  /** `palloc` fails exactly when fewer frames are free than it needs, and takes exactly those. */
  lemma PallocSupply(L: Layout, y: Sys)
    requires HeapInv(L, y.h)
    ensures |y.h.g.free| == 3
    ensures var r := Palloc(L, y);
      && (r.Panic? <==> FreeFrames(y.h.g) < PallocFrames(y.h.s))
      && (r.Done? ==>
            |r.value.y.h.g.free| == 3 && FreeFrames(r.value.y.h.g) == FreeFrames(y.h.g) - PallocFrames(y.h.s))
  {
    hide HeapInv, Acquire, PallocRest, FreeFrames, OpenSlots, OnlyAdds, Slots;
    AcquireSupply(L, y.h, PROC_CLASS, NODE_CLASS);
    AcquireSupply(L, y.h, PROC_CLASS, STACK_CLASS);
    EmptySlots(y.h.s, NODE_CLASS);
    EmptySlots(y.h.s, STACK_CLASS);
    var ra := Acquire(L, y.h, PROC_CLASS);
    if ra.Done? {
      var a := ra.value;
      AcquireSupply(L, a.h, STACK_CLASS, NODE_CLASS);
      EmptySlots(a.h.s, NODE_CLASS);
      EmptySlots(a.h.s, STACK_CLASS);
      var rb := Acquire(L, a.h, STACK_CLASS);
      if rb.Done? {
        EmptySlots(rb.value.h.s, NODE_CLASS);
        RestSupply(L, y, a, rb.value);
      }
    }
  }

  lemma RestSupply(L: Layout, y: Sys, a: Grab, b: Grab)
    requires HeapInv(L, b.h)
    ensures |b.h.g.free| == 3
    ensures var r, n := PallocRest(L, y, a, b), 1 + FramesFor(b.h.s, NODE_CLASS);
      && (r.Panic? <==> FreeFrames(b.h.g) < n)
      && (r.Done? ==> |r.value.y.h.g.free| == 3 && FreeFrames(r.value.y.h.g) == FreeFrames(b.h.g) - n)
  {
    hide HeapInv, Acquire, FreeFrames, FramesFor, OnlyAdds, Alloc, AllocAddr, CanAlloc, OpenSlots, Add;
    HeapLen(L, b.h);
    AllocFrame(b.h.g);
    if AddRoot(L, b.h, y.v, a.addr).Done? {
      AcquireSupply(L, HeapState(AddRoot(L, b.h, y.v, a.addr).value.g, b.h.s), NODE_CLASS, NODE_CLASS);
    }
  }

  // ---- uinit ----

  /** A page directory, a page table and the page itself: the tree of a new process is its root alone. */
  const FIRST_PAGE_FRAMES := 3

  lemma FirstPageMissing(L: Layout, y: Sys)
    requires SysInv(L, y) && HeapInv(L, y.h) && Palloc(L, y).Done?
    ensures var r := Palloc(L, y).value;
      Missing(SwitchStep(r.y, r.p).v, USER_ADDR_START, false) == FIRST_PAGE_FRAMES
  {
    hide HeapInv, Core, Palloc, BlocksOk, PidsOk, OneRuns, Idx, HasPS;
    PallocOk(L, y);
    PallocTree(L, y);
    var r := Palloc(L, y).value;
    var v := SwitchStep(r.y, r.p).v;
    UserStart(v);
    UserStartIdx();
    forall q | q in v.ent && q.space == User(r.p) ensures q == UserRoot(r.p) {
      assert q !in y.v.ent;
    }
  }

  /** `uinit` fails exactly when `palloc` and the first page need more frames than are free. */
  lemma BootSupply(L: Layout, y: Sys)
    requires SysInv(L, y) && y.cur.None?
    ensures HeapInv(L, y.h) && |y.h.g.free| == 3
    ensures BootStep(L, y).Panic? <==> FreeFrames(y.h.g) < PallocFrames(y.h.s) + FIRST_PAGE_FRAMES
  {
    hide SysInv, HeapInv, Core, Palloc, Walk, FreeFrames, PallocFrames, Missing, Walkable, StOk, FramesForeign, PmInv;
    hide VmInv;
    SysCore(L, y);
    PallocSupply(L, y);
    PallocOk(L, y);
    if Palloc(L, y).Done? {
      var r := Palloc(L, y).value;
      var z := SwitchStep(r.y, r.p);
      FirstPageMissing(L, y);
      SwitchOk(L, r.y, r.p);
      SysCore(L, z);
      UserWalkable(z, USER_ADDR_START);
      WalkSupply(L, St(z), USER_ADDR_START, false);
      TouchFails(L, z, USER_ADDR_START);
    }
  }

  lemma TouchFails(L: Layout, y: Sys, va: nat)
    requires Core(L, y.h, y.v)
    ensures PmInv(L, y.h.g) && (TouchStep(L, y, va).Panic? <==> Walk(L, St(y), va, false).Panic?)
  {
    hide HeapInv, Walk, FramesForeign, PmInv, VmInv;
    CoreSt(L, y.h, y.v);
  }

  // ---- Every operation ----

  /** When an operation panics, on statuses, bitmaps, free lists and tables alone. */
  ghost predicate Fails(y: Sys, step: Step)
    requires |y.h.g.free| == 3
  {
    match step
    case Heap(Malloc(size)) => size > PM_512K || !CanServe(y.h, SizeToClass(size).value)
    case Heap(Free(a)) => !Freeable(y.h.s, a)
    case Spawn => FreeFrames(y.h.g) < PallocFrames(y.h.s)
    case Boot => FreeFrames(y.h.g) < PallocFrames(y.h.s) + FIRST_PAGE_FRAMES
    case Touch(va) => FreeFrames(y.h.g) < Missing(y.v, va, false)
    case Dispatch(next, prev) =>
      || next == 0 || prev == 0
      || (next in y.procs && prev in y.procs && (y.procs[prev].stat != RUN || y.procs[next].stat != READY))
    case _ => false
  }

  lemma PanicsExactly(L: Layout, y: Sys, step: Step)
    requires SysInv(L, y) && Allowed(y, step)
    ensures |y.h.g.free| == 3 && (Panics(L, y, step) <==> Fails(y, step))
  {
    hide SysInv, HeapInv, Core, Palloc, BootStep, TouchStep, FreeStep, HeapStep, DispatchStep, KAlloc, CanServe, Panics;
    hide FreeFrames, PallocFrames, Missing, Walkable, Freeable, SizeToClass, StOk, Perform, Mine, IsClient;
    SysCore(L, y);
    HeapLen(L, y.h);
    match step {
      case Heap(c) =>
        match c {
          case Malloc(size) =>
            MallocPanics(L, y, size);
            if SizeToClass(size).Done? { KAllocServes(L, y.h, SizeToClass(size).value); }
          case Free(a) => FreePanics(L, y, a);
        }
      case Spawn =>
        SpawnPanics(L, y);
        PallocSupply(L, y);
      case Boot =>
        BootStepIs(L, y);
        BootSupply(L, y);
      case Touch(va) =>
        TouchPanics(L, y, va);
        TouchFails(L, y, va);
        WalkSupply(L, St(y), va, false);
      case Dispatch(next, prev) => DispatchPanics(L, y, next, prev);
      case _ => NeverPanics(L, y, step);
    }
  }

  lemma DispatchPanics(L: Layout, y: Sys, next: int, prev: int)
    requires SysInv(L, y) && Allowed(y, Dispatch(next, prev)) && |y.h.g.free| == 3
    ensures Panics(L, y, Dispatch(next, prev)) <==> Fails(y, Dispatch(next, prev))
  {
    hide SysInv, Panics;
    DispatchStepIs(L, y, next, prev);
  }

  lemma NeverPanics(L: Layout, y: Sys, step: Step)
    requires SysInv(L, y) && Allowed(y, step) && (step.Switch? || step.MakeReady? || step.FreeTree?)
    ensures !Panics(L, y, step)
  {
    hide SysInv, HeapStep, Palloc, BootStep, TouchStep, FreeStep;
  }
}
