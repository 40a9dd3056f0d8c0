/** Heap calls, page faults and the teardown of an address space as steps of the whole kernel: the
    structures of the processes and the layers they do not touch survive them in memory. */
module CallSteps {
  import opened Bits
  import opened Memory
  import opened Blocks
  import opened Slabs
  import opened Heap
  import opened SlabMem
  import opened SlabSteps
  import opened PageTables
  import opened PageWalk
  import opened PageFree
  import opened PageMem
  import opened Vm
  import opened Procs
  import opened ProcMem
  import opened Runs
  import opened Contents
  import opened ProcSteps

  /** The kernel state `y` as memory `m` holds it. */
  ghost predicate Holding(L: Layout, y: Sys, m: Mem) {
    SysInv(L, y) && CoreRep(L, y.h, y.v, m) && ProcsRep(m, y.procs, y.v)
  }

  /** The step is one the kernel may take, and it panics. */
  ghost predicate Panics(L: Layout, y: Sys, step: Step) {
    SysInv(L, y) && Allowed(y, step) && Perform(L, y, step).Panic?
  }

  /** `step` leads from `y` to `y'`, and the frames of processes it does not affect are as they were. */
  ghost predicate Stepped(L: Layout, y: Sys, m: Mem, step: Step, y': Sys, m': Mem) {
    Moves(L, y, step, y') && SpacesKept(y.v, m, step, y'.v, m')
  }

  ghost predicate Moves(L: Layout, y: Sys, step: Step, y': Sys) {
    SysInv(L, y) && Allowed(y, step) && Perform(L, y, step) == Done(y') && SysInv(L, y')
  }

  // ---- kmalloc and kmfree ----

  lemma MallocPanics(L: Layout, y: Sys, size: nat)
    requires SysInv(L, y)
    ensures HeapInv(L, y.h) && Core(L, y.h, y.v)
    ensures var r := SizeToClass(size);
      && (Panics(L, y, Step.Heap(Malloc(size))) <==> r.Panic? || KAlloc(L, y.h, r.value).Panic?)
      && (r.Done? && KAlloc(L, y.h, r.value).Done? ==>
            Perform(L, y, Step.Heap(Malloc(size))) == Done(y.(h := KAlloc(L, y.h, r.value).value.h)))
  {
    hide SysInv, HeapInv, Core, KAlloc, SizeToClass;
    SysCore(L, y);
  }

  lemma MallocStep(L: Layout, y: Sys, m: Mem, size: nat, h': HeapState, m': Mem, a: int, k: nat)
    requires Holding(L, y, m) && SizeToClass(size) == Done(k) && HeapInv(L, y.h)
    requires KAlloc(L, y.h, k) == Done(Grab(h', a))
    requires OnlyAdds(y.h, h', a, k) && Rep(L, h', m') && Kept(L, y.h, m, m')
    ensures var step, y' := Step.Heap(Malloc(size)), y.(h := h');
      && Stepped(L, y, m, step, y', m') && Holding(L, y', m') && OldKept(L, y.h, m, m', {})
      && ClientOf(h', a, k) && !IsClient(y.h.s, a)
  {
    hide SysInv, HeapInv, Core, CoreRep, Rep, KAlloc, SizeToClass, OnlyAdds, Kept, OldKept, ClientOf, IsClient, Perform;
    hide ProcsRep, SpacesKept, ForeignKept, BlocksOk, Grows;
    SysParts(L, y);
    MallocPanics(L, y, size);
    PerformOk(L, y, Step.Heap(Malloc(size)));
    HeapStepRep(L, y.h, h', y.v, m, m', a, k);
    ProcsKept(L, y, m, m', {}, y.v);
    OldForeign(L, y.h, m, m', {});
    NothingReached(L, y.h, y.v, m, Step.Heap(Malloc(size)), y.v, m');
  }

  lemma SysParts(L: Layout, y: Sys)
    requires SysInv(L, y)
    ensures Core(L, y.h, y.v) && HeapInv(L, y.h) && BlocksOk(y) && SpacesOk(y)
  {
    hide BlocksOk, SpacesOk, PidsOk, OneRuns, HeapInv, StOk, FramesForeign;
  }

  lemma FreePanics(L: Layout, y: Sys, a: int)
    requires SysInv(L, y) && IsClient(y.h.s, a) && !Mine(y, a)
    ensures HeapInv(L, y.h) && (Panics(L, y, Step.Heap(Free(a))) <==> !Freeable(y.h.s, a))
    ensures Freeable(y.h.s, a) ==> Perform(L, y, Step.Heap(Free(a))) == Done(y.(h := KFree(L, y.h, a)))
  {
    hide SysInv, HeapInv, Core, KFree, IsClient, Mine;
    SysCore(L, y);
  }

  lemma FreeStepRep(L: Layout, y: Sys, m: Mem, h': HeapState, m': Mem, a: int)
    requires Holding(L, y, m) && IsClient(y.h.s, a) && !Mine(y, a) && Freeable(y.h.s, a) && HeapInv(L, y.h)
    requires h' == KFree(L, y.h, a) && OnlyRemoves(y.h, h', a) && Rep(L, h', m') && Kept(L, h', m, m')
    ensures var step, y' := Step.Heap(Free(a)), y.(h := h');
      && Stepped(L, y, m, step, y', m') && Holding(L, y', m') && OldKept(L, h', m, m', {})
  {
    hide SysInv, HeapInv, Core, CoreRep, Rep, KFree, OnlyRemoves, Kept, OldKept, IsClient, Mine, Perform, Freeable;
    hide ProcsRep, SpacesKept, ForeignKept, BlocksOk, SpacesOk;
    var y' := y.(h := h');
    SysParts(L, y);
    FreePanics(L, y, a);
    PerformOk(L, y, Step.Heap(Free(a)));
    SysParts(L, y');
    HeapFreeRep(L, y.h, h', y.v, m, m', a);
    ProcsKept(L, y', m, m', {}, y.v);
    OldForeign(L, h', m, m', {});
    NothingReached(L, h', y.v, m, Step.Heap(Free(a)), y.v, m');
  }

  // ---- The page fault ----

  lemma TouchPanics(L: Layout, y: Sys, va: nat)
    requires SysInv(L, y) && Allowed(y, Touch(va))
    ensures Core(L, y.h, y.v) && Perform(L, y, Touch(va)) == TouchStep(L, y, va)
    ensures Panics(L, y, Touch(va)) <==> TouchStep(L, y, va).Panic?
  {
    hide SysInv, HeapStep, Procs.Palloc, BootStep, TouchStep, FreeStep, SwitchStep, DispatchStep, SetStat;
    hide HeapInv, Walkable, FramesForeign, PmInv, VmInv;
    SysCore(L, y);
  }

  lemma TouchIs(L: Layout, y: Sys, va: nat)
    requires Core(L, y.h, y.v)
    ensures StOk(L, St(y)) && PmInv(L, y.h.g)
    ensures var w, r := Walk(L, St(y), va, false), TouchStep(L, y, va);
      (r.Panic? <==> w.Panic?) && (r.Done? ==> r.value == WithSt(y, w.value))
  {
    hide HeapInv, Walk, FramesForeign, PmInv, VmInv;
    CoreSt(L, y.h, y.v);
  }

  lemma TouchStepRep(L: Layout, y: Sys, m: Mem, st: VmSt, m': Mem, va: nat)
    requires Holding(L, y, m) && Allowed(y, Touch(va)) && Core(L, y.h, y.v)
    requires TouchStep(L, y, va) == Done(WithSt(y, st))
    requires CoreRep(L, HeapState(st.g, y.h.s), st.v, m') && OldKept(L, y.h, m, m', NewLinks(y.v, st.v))
    ensures Stepped(L, y, m, Touch(va), WithSt(y, st), m') && Holding(L, WithSt(y, st), m')
  {
    hide SysInv, HeapInv, Core, CoreRep, OldKept, Perform, ProcsRep, SpacesKept, ForeignKept, BlocksOk, Walk, Walkable;
    hide StOk, OnPath, NewLinks, PmInv, Mapped, LargeWord, TouchStep;
    SysParts(L, y);
    TouchPanics(L, y, va);
    TouchIs(L, y, va);
    PerformOk(L, y, Touch(va));
    WalkOk(L, St(y), va, false);
    FaultKept(L, y, m, st, m', va);
    OldForeign(L, y.h, m, m', NewLinks(y.v, st.v));
    FaultSpares(L, y.h, y.v, m, st, m', va);
  }

  // ---- switch_uvm and switch_proc ----

  lemma LinkStepRep(L: Layout, y: Sys, m: Mem, m': Mem, p: int)
    requires Holding(L, y, m) && UserRoot(p) in y.v.ent
    requires CoreRep(L, y.h, SwitchStep(y, p).v, m') && ProcsRep(m', y.procs, SwitchStep(y, p).v)
    requires OldKept(L, y.h, m, m', {SlotCell(y.v)})
    ensures Stepped(L, y, m, Switch(p), SwitchStep(y, p), m') && Holding(L, SwitchStep(y, p), m')
  {
    hide HeapInv, Core, CoreRep, OldKept, ProcsRep, SpacesKept, ForeignKept, BlocksOk, SysInv;
    SysParts(L, y);
    SwitchOk(L, y, p);
    OldForeign(L, y.h, m, m', {SlotCell(y.v)});
    SwitchSpares(L, y.h, y.v, m, Switch(p), SwitchStep(y, p).v, m');
  }

  /** The root word of a process in memory is the one of its tree. */
  lemma UpmlInMemory(L: Layout, y: Sys, m: Mem, p: int)
    requires Holding(L, y, m) && UserRoot(p) in y.v.ent
    ensures p in y.procs && p % 8 == 0 && At(m, p + PROC_UPML4) == y.v.ent[UserRoot(p)]
    ensures 0 <= At(m, p + PROC_UPML4) < WORD_LIMIT
    ensures Present(At(m, p + PROC_UPML4))
  {
    hide HeapInv, CoreRep, BlocksOk, PmInv, FramesOk, StructOk, FramesForeign, Present, HasPS;
    SysParts(L, y);
    CoreSt(L, y.h, y.v);
    StParts(L, St(y));
    ProcFacts(L, y, m, p);
    assert Shaped(y.v, UserRoot(p), y.v.ent[UserRoot(p)]);
  }

  // ---- free_uvm ----

  /** The page of the slab that holds a process structure is outside the trees and contains its root word. */
  lemma StructHome(L: Layout, y: Sys, p: int) returns (home: int)
    requires SysInv(L, y) && p in y.procs
    ensures Outside(St(y), home) && home <= p && p + PROC_UPML4 < home + Size(y.h.g.blocks[home]) && !Foreign(y.h, home)
  {
    hide StOk, OwnsFrame, PidsOk, SpacesOk, OneRuns;
    SysParts(L, y);
    PagesOutside(L, y.h, y.v);
    OccPlace(L, y.h.g, y.h.s, p);
    Sizes();
    hide HeapInv, Placed, PmCore, ListsOk;
    home := y.h.s.slabs[y.h.s.occ[p].hdr].page;
  }

  /** Memory that differs in the root word of a process alone keeps headers and other clients. */
  lemma SlabsBesides(L: Layout, h: HeapState, m: Mem, m': Mem, p: int)
    requires HeapInv(L, h) && SlabRep(m, h.s) && ClientOf(h, p, PROC_CLASS) && Spared(L, h.g, m, m', {p + PROC_UPML4})
    ensures SlabRep(m', h.s)
    ensures forall a, k, x :: ClientOf(h, a, k) && a <= x < a + ClassSize(k) && x != p + PROC_UPML4 ==>
      At(m', x) == At(m, x)
  {
    hide Spared, SlabRep, HeapInv, ClientOf, PmCore, Placed, ListsOk;
    HeapCore(L, h);
    forall hdr, x | hdr in h.s.slabs && InHdr(hdr, x) ensures At(m', x) == At(m, x) {
      StructNoHdr(L, h, p, hdr, x);
      HdrSpared(L, h, m, m', p + PROC_UPML4, hdr, x);
    }
    RepFrame(L, h.s, m, m');
    forall a, k, x | ClientOf(h, a, k) && a <= x < a + ClassSize(k) && x != p + PROC_UPML4
      ensures At(m', x) == At(m, x)
    {
      ClientSpared(L, h, m, m', p + PROC_UPML4, a, k, x);
    }
  }

  lemma StructNoHdr(L: Layout, h: HeapState, p: int, hdr: int, x: int)
    requires PmCore(L, h.g) && Placed(L, h.g, h.s) && ClientOf(h, p, PROC_CLASS) && hdr in h.s.slabs && InHdr(hdr, x)
    ensures x != p + PROC_UPML4
  {
    Sizes();
    HdrClientApart(L, h.g, h.s, hdr, p);
    hide Placed, PmCore;
  }

  lemma ClientSpared(L: Layout, h: HeapState, m: Mem, m': Mem, c: int, a: int, k: nat, x: int)
    requires PmCore(L, h.g) && Placed(L, h.g, h.s) && ClientOf(h, a, k) && a <= x < a + ClassSize(k) && x != c
    requires Spared(L, h.g, m, m', {c})
    ensures At(m', x) == At(m, x)
  {
    hide Spared;
    OccPlace(L, h.g, h.s, a);
    SparedByte(L, h, m, m', c, h.s.slabs[h.s.occ[a].hdr].page, x);
  }

  lemma HdrSpared(L: Layout, h: HeapState, m: Mem, m': Mem, c: int, hdr: int, x: int)
    requires PmCore(L, h.g) && Placed(L, h.g, h.s) && hdr in h.s.slabs && InHdr(hdr, x) && x != c
    requires Spared(L, h.g, m, m', {c})
    ensures At(m', x) == At(m, x)
  {
    hide Placed, PmCore, IsUsed, Spared;
    HdrPlace(L, h.g, h.s, hdr);
    if hdr < L.kernelEnd {
      LowByte(L, h, m, m', c, x);
    } else {
      SparedByte(L, h, m, m', c, h.s.slabs[h.s.occ[hdr].hdr].page, x);
    }
  }

  lemma LowByte(L: Layout, h: HeapState, m: Mem, m': Mem, c: int, x: int)
    requires Spared(L, h.g, m, m', {c}) && x < L.kernelEnd && !(L.pmmap <= x < L.pmmap + 24)
    ensures At(m', x) == At(m, x)
  {
  }

  lemma SparedByte(L: Layout, h: HeapState, m: Mem, m': Mem, c: int, b: int, x: int)
    requires Spared(L, h.g, m, m', {c}) && IsUsed(h.g, b) && b <= x < b + Size(h.g.blocks[b]) && x != c
    ensures At(m', x) == At(m, x)
  {
    hide IsUsed;
  }

  /** No client but the structure itself contains the root word of a process. */
  lemma RootWordApart(L: Layout, h: HeapState, p: int, a: int, k: nat)
    requires PmCore(L, h.g) && Placed(L, h.g, h.s) && ClientOf(h, p, PROC_CLASS) && ClientOf(h, a, k) && a != p
    ensures !(a <= p + PROC_UPML4 < a + ClassSize(k))
  {
    Sizes();
    if a < p { OccupantsApart(L, h.g, h.s, a, p); } else { OccupantsApart(L, h.g, h.s, p, a); }
  }

  /** After the teardown the structures of the processes are as they were, but for the cleared root word. */
  lemma ProcsAfterFree(L: Layout, h: HeapState, procs: map<int, Procs.Proc>, m: Mem, v: VmState, m': Mem, v': VmState,
                       p: int)
    requires HeapInv(L, h) && StructBlocks(h, procs) && ProcsRep(m, procs, v) && SlabRep(m, h.s) && p in procs
    requires Spared(L, h.g, m, m', {p + PROC_UPML4}) && At(m', p + PROC_UPML4) == 0
    requires forall x :: UpmlWord(v', x) == if x == p then 0 else UpmlWord(v, x)
    ensures ProcsRep(m', procs, v') && SlabRep(m', h.s)
  {
    hide HeapInv, Placed, PmCore, ListsOk, SlabRep, Spared, UpmlWord, ClassSize, ClientOf;
    HeapCore(L, h);
    SlabsBesides(L, h, m, m', p);
    Sizes();
    forall x | x in procs ensures StructOk(m', procs[x], x) && At(m', x + PROC_UPML4) == UpmlWord(v', x) {
      assert StructOk(m, procs[x], x);
      NodeApart(L, h, procs, p, x);
    }
  }

  /** The root word of process `p` is in no other structure and in no node. */
  lemma NodeApart(L: Layout, h: HeapState, procs: map<int, Procs.Proc>, p: int, x: int)
    requires PmCore(L, h.g) && Placed(L, h.g, h.s) && StructBlocks(h, procs) && p in procs && x in procs
    ensures procs[x].node != p + PROC_UPML4 && (x != p ==> !(x <= p + PROC_UPML4 < x + 512))
    ensures ClientOf(h, x, PROC_CLASS) && ClientOf(h, procs[x].node, NODE_CLASS)
  {
    hide PmCore, Placed, ClientOf, ClassSize;
    Sizes();
    ClassesDiffer(h, p, PROC_CLASS, procs[x].node, NODE_CLASS);
    RootWordApart(L, h, p, procs[x].node, NODE_CLASS);
    if x != p { RootWordApart(L, h, p, x, PROC_CLASS); }
  }

  ghost predicate StructBlocks(h: HeapState, procs: map<int, Procs.Proc>) {
    forall p :: p in procs ==> ClientOf(h, p, PROC_CLASS) && ClientOf(h, procs[p].node, NODE_CLASS)
  }

  lemma UpmlWithout(v: VmState, p: int)
    ensures forall x :: UpmlWord(WithoutSpace(v, p), x) == if x == p then 0 else UpmlWord(v, x)
  {
  }

  lemma FreeStepIs(L: Layout, y: Sys, p: int)
    requires SysInv(L, y) && Allowed(y, FreeTree(p))
    ensures UserRoot(p) in y.v.ent && HeapInv(L, y.h) && Perform(L, y, FreeTree(p)) == Done(FreeStep(L, y, p))
    ensures SysInv(L, FreeStep(L, y, p))
  {
    hide SysInv, HeapStep, Procs.Palloc, BootStep, TouchStep, FreeStep, SwitchStep, DispatchStep, SetStat;
    hide HeapInv, BlocksOk, SpacesOk, Core;
    SysParts(L, y);
    FreeStepOk(L, y, p);
  }

  lemma FreeStepParts(L: Layout, y: Sys, p: int)
    requires HeapInv(L, y.h) && UserRoot(p) in y.v.ent && |y.h.g.free| == 3
    ensures var y' := FreeStep(L, y, p);
      y' == WithSt(y, PageFree.FreeUvm(St(y), p)) && y'.v == WithoutSpace(y.v, p) && y'.procs == y.procs
  {
    hide HeapInv, PushAll, PostOrder, Frames, WithoutSpace;
  }

  /** `free_uvm` in memory: what it leaves is the abstract teardown. */
  lemma TeardownRep(L: Layout, y: Sys, m: Mem, m': Mem, p: int, y': Sys)
    requires Holding(L, y, m) && SysInv(L, y') && y'.v == WithoutSpace(y.v, p) && y'.procs == y.procs && y'.h.s == y.h.s
    requires p in y.procs
    requires VRep(L, St(y'), m') && Spared(L, y'.h.g, m, m', {p + PROC_UPML4}) && At(m', p + PROC_UPML4) == 0
    ensures Holding(L, y', m') && SpacesKept(y.v, m, FreeTree(p), y'.v, m')
  {
    hide SysInv, HeapInv, Core, PmRep, VmRep, StOk, ProcsRep, SpacesKept, SpacesOk, Spared, UpmlWord, SlabRep;
    hide WithoutSpace, ClientOf;
    SysParts(L, y');
    UpmlWithout(y.v, p);
    ProcsAfterFree(L, y'.h, y.procs, m, y.v, m', y'.v, p);
    TeardownSpares(L, y', y.v, m, m', p);
  }

  lemma TeardownSpares(L: Layout, y': Sys, v: VmState, m: Mem, m': Mem, p: int)
    requires SysInv(L, y') && y'.v == WithoutSpace(v, p) && p in y'.procs && Spared(L, y'.h.g, m, m', {p + PROC_UPML4})
    ensures SpacesKept(v, m, FreeTree(p), y'.v, m')
  {
    hide SysInv, HeapInv, Core, Spared, FrameKept, ForeignKept, Outside;
    SysParts(L, y');
    var home := StructHome(L, y', p);
    SparedForeign(L, y'.h, m, m', {p + PROC_UPML4});
    OutOfForeign(L, y', home, p + PROC_UPML4);
    FreeSpares(L, y'.h, y'.v, m, m', p, p + PROC_UPML4);
    hide Foreign;
    forall q | q in v.ent && q.space.User? && q.space != User(p) ensures FrameKept(v, m, y'.v, m', q) {
      assert q in y'.v.ent && FrameKept(y'.v, m, y'.v, m', q);
      KeptThere(y'.v, v, m, m', q);
    }
  }

  lemma KeptThere(v': VmState, v: VmState, m: Mem, m': Mem, q: Pos)
    requires q in v.ent && q in v'.ent && v'.ent[q] == v.ent[q] && FrameKept(v', m, v', m', q)
    ensures FrameKept(v, m, v', m', q)
  {
  }

  lemma SparedForeign(L: Layout, h: HeapState, m: Mem, m': Mem, e: set<int>)
    requires Spared(L, h.g, m, m', e)
    ensures ForeignKept(h, m, m', e)
  {
    hide IsUsed, IsPage;
  }

  lemma OutOfForeign(L: Layout, y: Sys, home: int, c: int)
    requires SysInv(L, y) && Outside(St(y), home) && home <= c < home + Size(y.h.g.blocks[home]) && !Foreign(y.h, home)
    ensures forall b :: Foreign(y.h, b) ==> !(b <= c < b + Size(y.h.g.blocks[b]))
  {
    hide OwnsFrame, IsPage, PmCore, HeapInv, SysInv, ListsOk, SlotsOk, HeadersOk, PagesOk;
    SysParts(L, y);
    HeapCore(L, y.h);
    forall b | Foreign(y.h, b) ensures !(b <= c < b + Size(y.h.g.blocks[b])) {
      BlocksApart(L, y.h.g, b, home);
    }
  }

  // ---- palloc, uinit, a status ----

  lemma SpawnStepRep(L: Layout, y: Sys, m: Mem, y': Sys, m': Mem, p: int)
    requires Holding(L, y, m) && HeapInv(L, y.h) && Procs.Palloc(L, y) == Done(Spawned(y', p))
    requires OldKept(L, y.h, m, m', {})
    requires p !in y.procs && UserRoot(p) in y'.v.ent && y'.v == Add(y.v, UserRoot(p), y'.v.ent[UserRoot(p)])
    ensures Stepped(L, y, m, Spawn, y', m')
  {
    hide SysInv, HeapStep, Procs.Palloc, BootStep, TouchStep, FreeStep, SwitchStep, DispatchStep, SetStat;
    hide HeapInv, CoreRep, ProcsRep, OldKept, ForeignKept, SpacesKept, Core;
    SysParts(L, y);
    PallocOk(L, y);
    NoSpaceYet(y, p);
    OldForeign(L, y.h, m, m', {});
    NothingReached(L, y.h, y.v, m, Spawn, y'.v, m');
  }

  lemma SpawnPanics(L: Layout, y: Sys)
    requires SysInv(L, y)
    ensures HeapInv(L, y.h) && (Panics(L, y, Spawn) <==> Procs.Palloc(L, y).Panic?)
  {
    hide SysInv, HeapInv, Core, Procs.Palloc;
    SysCore(L, y);
  }

  lemma BootStepIs(L: Layout, y: Sys)
    requires SysInv(L, y) && y.cur.None?
    ensures Panics(L, y, Boot) <==> BootStep(L, y).Panic?
    ensures BootStep(L, y).Done? ==> Moves(L, y, Boot, BootStep(L, y).value)
  {
    hide SysInv, BootStep, Lookup;
    BootOk(L, y);
  }

  lemma DispatchStepIs(L: Layout, y: Sys, next: int, prev: int)
    requires (next != 0 ==> next in y.procs && UserRoot(next) in y.v.ent) && (prev != 0 ==> prev in y.procs)
    ensures var r, step := DispatchStep(y, next, prev), Dispatch(next, prev); SysInv(L, y) ==>
      (Panics(L, y, step) <==> r.Panic?) && (r.Done? ==> Moves(L, y, step, r.value))
  {
    hide SysInv, DispatchStep;
    if SysInv(L, y) {
      PerformOk(L, y, Dispatch(next, prev));
    }
  }

  lemma SteppedFrom(L: Layout, y: Sys, m: Mem, step: Step, y': Sys, m': Mem)
    requires Moves(L, y, step, y') && SpacesKept(y.v, m, step, y'.v, m')
    ensures Stepped(L, y, m, step, y', m')
  {
    hide Moves, SpacesKept;
  }

  lemma NoSpaceYet(y: Sys, p: int)
    requires SpacesOk(y) && p !in y.procs
    ensures forall q :: q in y.v.ent ==> q.space != User(p)
  {
  }

  lemma BootStepRep(L: Layout, y: Sys, m: Mem, z: Sys, p: int, st: VmSt, m': Mem)
    requires SysInv(L, y) && SysInv(L, z) && p !in y.procs && UserRoot(p) in z.v.ent && PmInv(L, z.h.g)
    requires z.v == Add(y.v, UserRoot(p), z.v.ent[UserRoot(p)])
    requires Walk(L, LinkedSt(z, p), USER_ADDR_START, false) == Done(st)
    requires OldKept(L, y.h, m, m', {SlotCell(y.v)} + NewLinks(LinkedSt(z, p).v, st.v))
    ensures SpacesKept(y.v, m, Boot, st.v, m')
  {
    hide SysInv, HeapInv, OldKept, ForeignKept, SpacesKept, Core, Walk, OnPath, PmInv, VmInv, NewLinks, Walkable;
    hide Mapped, LargeWord;
    SysParts(L, y);
    NoSpaceYet(y, p);
    SwitchOk(L, z, p);
    CoreSt(L, z.h, SwitchStep(z, p).v);
    UserWalkable(SwitchStep(z, p), USER_ADDR_START);
    WalkOk(L, LinkedSt(z, p), USER_ADDR_START, false);
    OldForeign(L, y.h, m, m', {SlotCell(y.v)} + NewLinks(LinkedSt(z, p).v, st.v));
    BootSpares(L, y.h, y.v, m, LinkedSt(z, p), st, m', p);
  }

  lemma ReadyStepRep(L: Layout, y: Sys, m: Mem, p: int)
    requires Holding(L, y, m) && Allowed(y, MakeReady(p))
    ensures p in y.procs && var y', m' := SetStat(y, p, READY), Put(m, p, READY);
      Stepped(L, y, m, MakeReady(p), y', m') && Holding(L, y', m') && p % 8 == 0
  {
    hide SysInv, HeapInv, CoreRep, ProcsRep, ForeignKept, SpacesKept, Core, BlocksOk, OneRuns;
    SysParts(L, y);
    ReadyOk(L, y, p);
    ProcFacts(L, y, m, p);
    StatStore(L, y, m, p, READY);
    NothingReached(L, y.h, y.v, m, MakeReady(p), y.v, Put(m, p, READY));
  }

  /** `switch_proc`: two status words and the cell of slot 2. */
  lemma DispatchSpares(L: Layout, y: Sys, m: Mem, m2: Mem, m': Mem, next: int, prev: int)
    requires SysInv(L, y) && ForeignKept(y.h, m, m2, {}) && OldKept(L, y.h, m2, m', {SlotCell(y.v)})
    ensures SpacesKept(y.v, m, Dispatch(next, prev), y.v.(active := Some(next)), m')
  {
    hide SysInv, HeapInv, OldKept, ForeignKept, SpacesKept, Core;
    SysParts(L, y);
    OldForeign(L, y.h, m2, m', {SlotCell(y.v)});
    ForeignTrans(y.h, m, m2, m', {SlotCell(y.v)});
    SwitchSpares(L, y.h, y.v, m, Dispatch(next, prev), y.v.(active := Some(next)), m');
  }

  /** `switch_proc` in memory: what it leaves is the abstract step, and only the new process runs. */
  lemma DispatchRep(L: Layout, y: Sys, m: Mem, m2: Mem, m': Mem, next: int, prev: int)
    requires Holding(L, y, m) && next in y.procs && UserRoot(next) in y.v.ent && prev in y.procs
    requires DispatchStep(y, next, prev).Done? && m2 == Put(Put(m, prev, READY), next, RUN)
    requires var v' := y.v.(active := Some(next));
      VRep(L, VmSt(y.h.g, v'), m') && Spared(L, y.h.g, m2, m', {SlotCell(y.v)})
    ensures var y' := DispatchStep(y, next, prev).value;
      && Holding(L, y', m') && Stepped(L, y, m, Dispatch(next, prev), y', m')
      && (forall p :: p in y'.procs ==> (At(m', p) == RUN <==> p == next))
      && (next + PROC_KSTACK) % 8 == 0 && At(m', next + PROC_KSTACK) == y.procs[next].kstack
  {
    hide PmInv, PmRep, VRep, CoreRep, HeapInv, ClientOf, SysInv, ProcsRep, BlocksOk, SpacesKept, Spared, OldKept;
    hide ForeignKept, Frame;
    hide Core, StOk, Panics, Stepped, Moves, Perform;
    var y', z := DispatchStep(y, next, prev).value, SetStat(SetStat(y, prev, READY), next, RUN);
    DispatchStepIs(L, y, next, prev);
    BeforeSwitch(L, y, m, next, prev);
    SwitchRep(L, z, m2, m', next);
    AfterSwitch(L, y', m', next);
    DispatchSpares(L, y, m, m2, m', next, prev);
    SteppedFrom(L, y, m, Dispatch(next, prev), y', m');
  }

  // ---- Runs ----

  /** Every step of the run is one the kernel may take when its turn comes. */
  ghost predicate RunAllowed(L: Layout, y: Sys, steps: seq<Step>)
    decreases |steps|
  {
    steps != [] ==>
      && SysInv(L, y) && Allowed(y, steps[0])
      && (Perform(L, y, steps[0]).Done? ==> RunAllowed(L, Perform(L, y, steps[0]).value, steps[1..]))
  }

  /** The run completes, and leads from `y` to `y'`. */
  ghost predicate Leads(L: Layout, y: Sys, steps: seq<Step>, y': Sys) {
    SysInv(L, y) && SysRun(L, y, steps, y')
  }

  lemma RunStep(L: Layout, y: Sys, steps: seq<Step>)
    requires SysInv(L, y) && RunAllowed(L, y, steps) && steps != []
    ensures Allowed(y, steps[0])
    ensures Panics(L, y, steps[0]) ==> forall y' :: !Leads(L, y, steps, y')
    ensures forall m, z, m1 :: Stepped(L, y, m, steps[0], z, m1) ==>
      RunAllowed(L, z, steps[1..]) && LeadsVia(L, y, steps, z)
  {
    hide SysInv, Perform, Allowed, SpacesKept;
  }

  /** The run completes from `y` as the rest of it does from `z`. */
  ghost predicate LeadsVia(L: Layout, y: Sys, steps: seq<Step>, z: Sys)
    requires steps != []
  {
    forall y' :: Leads(L, y, steps, y') <==> Leads(L, z, steps[1..], y')
  }

  lemma NoPanic(L: Layout, y: Sys, m: Mem, step: Step, y': Sys, m': Mem)
    requires Stepped(L, y, m, step, y', m')
    ensures !Panics(L, y, step)
  {
    hide SysInv, Perform, Allowed, SpacesKept;
  }

  lemma KeptByStep(L: Layout, y: Sys, m: Mem, step: Step, y': Sys, m': Mem)
    requires Stepped(L, y, m, step, y', m')
    ensures SpacesKept(y.v, m, step, y'.v, m')
    ensures SysInv(L, y) && Allowed(y, step) && Perform(L, y, step) == Done(y')
  {
    hide SysInv, Perform, Allowed, SpacesKept;
  }
}
