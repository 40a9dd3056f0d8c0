/** Every run of the kernel's memory operations: heap calls, process creation, address-space switches,
    page faults and address-space teardown, in any order. */
module Runs {
  import opened Bits
  import opened Memory
  import opened Blocks
  import opened Slabs
  import opened Heap
  import opened PageTables
  import opened PageWalk
  import opened PageFree
  import opened Procs
  import opened PageInit
  import opened SlabStart

  datatype Step =
    | Heap(call: Call)
    | Spawn
    | Boot
    | Switch(proc: int)
    | Touch(va: nat)
    | Dispatch(next: int, prev: int)
    | MakeReady(proc: int)
    | FreeTree(proc: int)

  ghost function SetStat(y: Sys, p: int, stat: int): Sys
    requires p in y.procs
  {
    y.(procs := y.procs[p := y.procs[p].(stat := stat)])
  }

  ghost function WithSt(y: Sys, st: VmSt): Sys {
    y.(h := HeapState(st.g, y.h.s), v := st.v)
  }

  /** A page fault at `va`: `walk_pgdir(va, TRUE, FALSE)`. */
  ghost function TouchStep(L: Layout, y: Sys, va: nat): Outcome<Sys>
    requires Core(L, y.h, y.v)
  {
    hide HeapInv, VmInv, FramesForeign, Walk;
    var st :- Walk(L, St(y), va, false);
    Done(WithSt(y, st))
  }

  /** `switch_uvm` */
  ghost function SwitchStep(y: Sys, p: int): Sys {
    y.(v := y.v.(active := Some(p)))
  }

  /** `switch_proc`, which panics on NULL and unless the old process runs and the new one is ready. */
  ghost function DispatchStep(y: Sys, next: int, prev: int): Outcome<Sys>
    requires next != 0 ==> next in y.procs
    requires prev != 0 ==> prev in y.procs
  {
    if next == 0 || prev == 0 then Panic
    else if y.procs[prev].stat != RUN || y.procs[next].stat != READY then Panic
    else Done(SwitchStep(SetStat(SetStat(y, prev, READY), next, RUN).(cur := Some(next)), next))
  }

  /** `uinit`: the first process, running, its first page touched. */
  ghost function BootStep(L: Layout, y: Sys): Outcome<Sys>
    requires SysInv(L, y)
  {
    hide SysInv, Palloc, TouchStep;
    SysCore(L, y);
    PallocOk(L, y);
    var r :- Palloc(L, y);
    SwitchOk(L, r.y, r.p);
    var t :- TouchStep(L, SwitchStep(r.y, r.p), USER_ADDR_START);
    TouchProcs(L, SwitchStep(r.y, r.p), USER_ADDR_START);
    Done(SetStat(t, r.p, RUN).(cur := Some(r.p)))
  }

  lemma SysCore(L: Layout, y: Sys)
    requires SysInv(L, y)
    ensures Core(L, y.h, y.v) && HeapInv(L, y.h) && StOk(L, St(y))
  {
  }

  /** What a caller owes: a process block is not freed as a heap block, a tree that is linked in slot
      2 is not torn down, and only live trees are switched to. */
  ghost predicate Allowed(y: Sys, step: Step) {
    match step
    case Heap(c) => c.Free? ==> IsClient(y.h.s, c.addr) && !Mine(y, c.addr)
    case Spawn => true
    case Boot => y.cur.None?
    case Switch(p) => UserRoot(p) in y.v.ent
    case Touch(va) => Walkable(y.v, va)
    case Dispatch(next, prev) =>
      && (next != 0 ==> next in y.procs && UserRoot(next) in y.v.ent)
      && (prev != 0 ==> prev in y.procs)
    case MakeReady(p) => p in y.procs && y.procs[p].stat == SET
    case FreeTree(p) => UserRoot(p) in y.v.ent && y.v.active != Some(p)
  }

  ghost function HeapStep(L: Layout, y: Sys, c: Call): Outcome<Sys>
    requires HeapInv(L, y.h) && (c.Free? ==> IsClient(y.h.s, c.addr))
  {
    if Legal(L, y.h, c) then Done(y.(h := Next(L, y.h, c))) else Panic
  }

  ghost function FreeStep(L: Layout, y: Sys, p: int): Sys
    requires HeapInv(L, y.h) && UserRoot(p) in y.v.ent
  {
    HeapLen(L, y.h);
    WithSt(y, FreeUvm(St(y), p))
  }

  ghost function Perform(L: Layout, y: Sys, step: Step): Outcome<Sys>
    requires SysInv(L, y) && Allowed(y, step)
  {
    hide SysInv, HeapStep, Palloc, BootStep, TouchStep, FreeStep, HeapInv, Core, StOk, Walkable, Mine, IsClient;
    SysCore(L, y);
    match step
    case Heap(c) => HeapStep(L, y, c)
    case Spawn => var r :- Palloc(L, y); Done(r.y)
    case Boot => BootStep(L, y)
    case Switch(p) => Done(SwitchStep(y, p))
    case Touch(va) => TouchStep(L, y, va)
    case Dispatch(next, prev) => DispatchStep(y, next, prev)
    case MakeReady(p) => Done(SetStat(y, p, READY))
    case FreeTree(p) => Done(FreeStep(L, y, p))
  }

  // ---- Each step keeps the invariant ----

  lemma SwitchOk(L: Layout, y: Sys, p: int)
    requires SysInv(L, y) && UserRoot(p) in y.v.ent
    ensures SysInv(L, SwitchStep(y, p)) && Core(L, y.h, SwitchStep(y, p).v)
  {
    hide HeapInv, FramesForeign, BlocksOk, PidsOk, OneRuns, SameOutside, Outside, VmInv, PmInv;
    SwitchTree(L, St(y), p);
    SwitchOutside(St(y), p);
    CoreVm(L, y.h, y.v, VmSt(y.h.g, y.v.(active := Some(p))));
    SwitchKeeps(y, p);
  }

  lemma SwitchOutside(st: VmSt, p: int)
    ensures SameOutside(st, VmSt(st.g, st.v.(active := Some(p))))
  {
    var v' := st.v.(active := Some(p));
    forall f ensures OwnsFrame(v', f) <==> OwnsFrame(st.v, f) {}
    hide OwnsFrame, IsUsed;
  }

  lemma SwitchKeeps(y: Sys, p: int)
    requires SpacesOk(y) && UserRoot(p) in y.v.ent
    ensures SpacesOk(SwitchStep(y, p)) && (BlocksOk(y) ==> BlocksOk(SwitchStep(y, p)))
    ensures (PidsOk(y) ==> PidsOk(SwitchStep(y, p))) && (OneRuns(y) ==> OneRuns(SwitchStep(y, p)))
  {
  }

  lemma TouchProcs(L: Layout, y: Sys, va: nat)
    requires Core(L, y.h, y.v)
    ensures TouchStep(L, y, va).Done? ==> TouchStep(L, y, va).value.procs == y.procs
  {
    hide Walk, Core;
  }

  lemma TouchOk(L: Layout, y: Sys, va: nat)
    requires SysInv(L, y) && Walkable(y.v, va)
    ensures var r := TouchStep(L, y, va); r.Done? ==>
      && SysInv(L, r.value) && r.value.procs == y.procs && r.value.cur == y.cur && r.value.v.active == y.v.active
      && Lookup(r.value.v, va).Some?
  {
    hide HeapInv, FramesForeign, BlocksOk, PidsOk, OneRuns, SpacesOk, SameOutside, Outside, VmInv, PmInv, Walk, OnPath;
    hide Lookup, Walkable;
    WalkOk(L, St(y), va, false);
    if TouchStep(L, y, va).Done? {
      var st := Walk(L, St(y), va, false).value;
      PathOutside(St(y), st, va);
      CoreVm(L, y.h, y.v, st);
      TouchKeeps(y, st, va);
      WalkRefinesMap(L, St(y), va, false, va);
    }
  }

  lemma PathOutside(st: VmSt, st': VmSt, va: nat)
    requires OnPath(st, st', va)
    ensures SameOutside(st, st') && st'.v.active == st.v.active
  {
    hide SameOutside;
  }

  lemma TouchKeeps(y: Sys, st: VmSt, va: nat)
    requires OnPath(St(y), st, va) && BlocksOk(y) && PidsOk(y) && SpacesOk(y) && OneRuns(y)
    ensures var y' := WithSt(y, st); BlocksOk(y') && PidsOk(y') && SpacesOk(y') && OneRuns(y')
  {
    hide SameOutside, Idx, IsClient;
    forall q | q in st.v.ent && q.space.User? ensures q.space.id in y.procs {
      if q !in y.v.ent { assert q == PathPos(y.v, va, q.level); }
    }
  }

  lemma HeapStepOk(L: Layout, y: Sys, c: Call)
    requires SysInv(L, y) && Allowed(y, Step.Heap(c))
    ensures var r := HeapStep(L, y, c); r.Done? ==> SysInv(L, r.value)
  {
    hide HeapInv, StOk, FramesForeign, PidsOk, OneRuns, SpacesOk, BlocksOk, Mine, SameForeign, ClientsPlus, ClientsLess;
    hide IsClient;
    if Legal(L, y.h, c) {
      var h' := Next(L, y.h, c);
      match c {
      case Malloc(size) =>
        KAllocOk(L, y.h, SizeToClass(size).value);
        var a := KAlloc(L, y.h, SizeToClass(size).value).value.addr;
        AddedBlocks(y, h', a, SizeToClass(size).value);
      case Free(a) =>
        KFreeOk(L, y.h, a);
        RemovedBlocks(y, h', a);
      }
      CoreHeap(L, y.h, h', y.v);
      HeapKeeps(y, h');
    }
  }

  lemma AddedBlocks(y: Sys, h': HeapState, a: int, k: nat)
    requires BlocksOk(y) && ClientsPlus(y.h, h', a, k)
    ensures BlocksOk(y.(h := h'))
  {
  }

  lemma RemovedBlocks(y: Sys, h': HeapState, a: int)
    requires BlocksOk(y) && ClientsLess(y.h, h', a) && !Mine(y, a)
    ensures BlocksOk(y.(h := h'))
  {
    hide ClientOf, IsClient;
  }

  lemma HeapKeeps(y: Sys, h': HeapState)
    requires PidsOk(y) && SpacesOk(y) && OneRuns(y)
    ensures var y' := y.(h := h'); PidsOk(y') && SpacesOk(y') && OneRuns(y')
  {
  }

  lemma DispatchOk(L: Layout, y: Sys, next: int, prev: int)
    requires SysInv(L, y) && (next != 0 ==> next in y.procs && UserRoot(next) in y.v.ent)
    requires (prev != 0 ==> prev in y.procs)
    ensures var r := DispatchStep(y, next, prev); r.Done? ==>
      && SysInv(L, r.value) && r.value.cur == Some(next) && r.value.v.active == Some(next) && y.cur == Some(prev)
      && (forall p :: p in r.value.procs ==> (r.value.procs[p].stat == RUN <==> p == next))
  {
    hide HeapInv, Core, BlocksOk, PidsOk, SpacesOk, OneRuns, SetStat;
    if DispatchStep(y, next, prev).Done? {
      var z := SetStat(y, prev, READY);
      StatKeeps(y, prev, READY);
      StatKeeps(z, next, RUN);
      CurKeeps(SetStat(z, next, RUN), Some(next));
      DispatchRuns(y, next, prev);
      SwitchOk(L, SetStat(z, next, RUN).(cur := Some(next)), next);
    }
  }

  lemma DispatchRuns(y: Sys, next: int, prev: int)
    requires OneRuns(y) && next in y.procs && prev in y.procs && y.procs[prev].stat == RUN
    requires y.procs[next].stat == READY
    ensures var y' := SetStat(SetStat(y, prev, READY), next, RUN).(cur := Some(next));
      OneRuns(y') && y.cur == Some(prev) && forall p :: p in y'.procs ==> (y'.procs[p].stat == RUN <==> p == next)
  {
  }

  lemma CurKeeps(y: Sys, cur: Option<int>)
    ensures var y' := y.(cur := cur);
      (BlocksOk(y) ==> BlocksOk(y')) && (PidsOk(y) ==> PidsOk(y')) && (SpacesOk(y) ==> SpacesOk(y'))
  {
  }

  /** Changing a status alone keeps everything but who runs. */
  lemma StatKeeps(y: Sys, p: int, stat: int)
    requires p in y.procs
    ensures var y' := SetStat(y, p, stat);
      && p in y'.procs && y'.procs.Keys == y.procs.Keys && y'.h == y.h && y'.v == y.v
      && (BlocksOk(y) ==> BlocksOk(y')) && (PidsOk(y) ==> PidsOk(y')) && (SpacesOk(y) ==> SpacesOk(y'))
  {
  }

  lemma ReadyOk(L: Layout, y: Sys, p: int)
    requires SysInv(L, y) && p in y.procs && y.procs[p].stat == SET
    ensures SysInv(L, SetStat(y, p, READY))
  {
    hide HeapInv, StOk, FramesForeign, Core;
    StatKeeps(y, p, READY);
  }

  lemma BootOk(L: Layout, y: Sys)
    requires SysInv(L, y) && y.cur.None?
    ensures var r := BootStep(L, y); r.Done? ==>
      && SysInv(L, r.value) && r.value.cur.Some? && r.value.v.active == r.value.cur
      && Lookup(r.value.v, USER_ADDR_START).Some?
  {
    hide HeapInv, StOk, FramesForeign, Core, Palloc, TouchStep, SysInv, Lookup, Walkable;
    SysCore(L, y);
    PallocOk(L, y);
    if Palloc(L, y).Done? {
      var r := Palloc(L, y).value;
      SwitchOk(L, r.y, r.p);
      UserWalkable(SwitchStep(r.y, r.p), USER_ADDR_START);
      TouchOk(L, SwitchStep(r.y, r.p), USER_ADDR_START);
      if TouchStep(L, SwitchStep(r.y, r.p), USER_ADDR_START).Done? {
        var t := TouchStep(L, SwitchStep(r.y, r.p), USER_ADDR_START).value;
        FirstRuns(L, t, r.p);
      }
    }
  }

  lemma UserWalkable(y: Sys, va: nat)
    requires y.v.active.Some? && va < VA_LIMIT
    ensures Walkable(y.v, va)
  {
  }

  lemma FirstRuns(L: Layout, y: Sys, p: int)
    requires SysInv(L, y) && y.cur.None? && p in y.procs
    ensures SysInv(L, SetStat(y, p, RUN).(cur := Some(p)))
  {
    hide Core;
    StatKeeps(y, p, RUN);
  }

  lemma FreeStepOk(L: Layout, y: Sys, p: int)
    requires SysInv(L, y) && HeapInv(L, y.h) && UserRoot(p) in y.v.ent && y.v.active != Some(p)
    ensures SysInv(L, FreeStep(L, y, p)) && FreeStep(L, y, p).procs == y.procs
  {
    hide HeapInv, FramesForeign, BlocksOk, PidsOk, OneRuns, SameOutside, Outside, VmInv, PmInv;
    HeapLen(L, y.h);
    FreeUvmOk(L, St(y), p);
    CoreVm(L, y.h, y.v, FreeUvm(St(y), p));
    FreeKeeps(L, y, p);
  }

  lemma FreeKeeps(L: Layout, y: Sys, p: int)
    requires HeapInv(L, y.h) && UserRoot(p) in y.v.ent && SpacesOk(y) && BlocksOk(y) && PidsOk(y) && OneRuns(y)
    ensures var y' := FreeStep(L, y, p); SpacesOk(y') && BlocksOk(y') && PidsOk(y') && OneRuns(y')
  {
    hide HeapInv, PushAll, PostOrder, IsClient;
  }

  /** Every allowed step that does not panic keeps the invariant. */
  lemma PerformOk(L: Layout, y: Sys, step: Step)
    requires SysInv(L, y) && Allowed(y, step)
    ensures Perform(L, y, step).Done? ==> SysInv(L, Perform(L, y, step).value)
  {
    hide SysInv, HeapStep, Palloc, BootStep, TouchStep, FreeStep, SwitchStep, DispatchStep, SetStat;
    SysCore(L, y);
    match step
    case Heap(c) => HeapStepOk(L, y, c);
    case Spawn => PallocOk(L, y);
    case Boot => BootOk(L, y);
    case Switch(p) => SwitchOk(L, y, p);
    case Touch(va) => TouchOk(L, y, va);
    case Dispatch(next, prev) => DispatchOk(L, y, next, prev);
    case MakeReady(p) => ReadyOk(L, y, p);
    case FreeTree(p) => FreeStepOk(L, y, p);
  }

  // ---- Runs ----

  ghost predicate SysRun(L: Layout, y: Sys, steps: seq<Step>, y': Sys)
    requires SysInv(L, y)
    decreases |steps|
  {
    if steps == [] then y' == y
    else
      && Allowed(y, steps[0]) && Perform(L, y, steps[0]).Done?
      && (PerformOk(L, y, steps[0]); SysRun(L, Perform(L, y, steps[0]).value, steps[1..], y'))
  }

  lemma {:induction false} RunKeeps(L: Layout, y: Sys, steps: seq<Step>, y': Sys)
    requires SysInv(L, y) && SysRun(L, y, steps, y')
    ensures SysInv(L, y')
    decreases |steps|
  {
    hide SysInv, Perform, Allowed;
    if steps != [] {
      PerformOk(L, y, steps[0]);
      RunKeeps(L, Perform(L, y, steps[0]).value, steps[1..], y');
    }
  }

  // ---- The state `mm_init` leaves ----

  /** `mm_init` after `pm_init`: `vm_init`, then `slab_init`. */
  ghost function MmStart(L: Layout, g: PmState): Outcome<Sys>
    requires PmInv(L, g)
  {
    hide StOk, PmInv, VmInit, InitPrefix, PmCore, VmInv, FramesOk;
    var st :- VmInit(L, g);
    StParts(L, st);
    var h :- InitPrefix(L, st.g, CLASSES);
    Done(Sys(h, st.v, map[], None, 0))
  }

  lemma MmStartOk(L: Layout, g: PmState)
    requires PmInv(L, g)
    ensures var r := MmStart(L, g); r.Done? ==>
      && SysInv(L, r.value) && r.value.procs == map[] && Quiescent(L, r.value.h.s)
      && (forall a :: !IsClient(r.value.h.s, a)) && forall va: nat :: va < LOW_LIMIT ==>
            Lookup(r.value.v, va) == Some(va)
  {
    hide StOk, PmInv, VmInit, InitPrefix, PrefixOk, HeapInv, Quiescent, IsClient, Lookup, Foreign, IsUsed, Outside;
    hide PmCore, VmInv, FramesOk, TreeOk, Core, SysInv;
    if VmInit(L, g).Done? {
      var st := VmInit(L, g).value;
      StParts(L, st);
      VmInitMeaning(L, g);
      if InitPrefix(L, st.g, CLASSES).Done? {
        var h := InitPrefix(L, st.g, CLASSES).value;
        StartOk(L, st.g);
        CoreStart(L, st, h);
        NoUsersYet(st.v);
        NoProcsYet(L, h, st.v);
      }
    }
  }

  lemma NoProcsYet(L: Layout, h: HeapState, v: VmState)
    requires Core(L, h, v) && v.active == None && forall q :: q in v.ent ==> q.space.Kernel?
    ensures SysInv(L, Sys(h, v, map[], None, 0))
  {
    hide Core;
  }

  lemma CoreStart(L: Layout, st: VmSt, h: HeapState)
    requires StOk(L, st) && HeapInv(L, h)
    requires forall b :: Foreign(h, b) <==> IsUsed(st.g, b)
    requires forall b :: IsUsed(st.g, b) ==> b in h.g.blocks && h.g.blocks[b] == st.g.blocks[b]
    ensures Core(L, h, st.v)
  {
    hide PmInv, SlabInv, TreeOk, Shaped, Frame, IsPage, Owned;
    forall f | OwnsFrame(st.v, f) ensures Foreign(h, f) { assert IsUsed(st.g, f); }
    forall p | p in st.v.ent && Owned(p, st.v.ent[p])
      ensures IsUsed(h.g, Frame(st.v.ent[p])) && h.g.blocks[Frame(st.v.ent[p])] == 0
    {
      assert Foreign(h, Frame(st.v.ent[p]));
    }
  }

  lemma NoUsersYet(v: VmState)
    requires PrefixOk(v, MAPPINGS)
    ensures forall q :: q in v.ent ==> q.space.Kernel?
  {
    forall q | q in v.ent ensures q.space.Kernel? { assert InPrefix(q, MAPPINGS); }
  }
}
