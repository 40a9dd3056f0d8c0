/** The processes of arch/x86/proc.c. */
module Proc {
  import opened Bits
  import opened Memory
  import opened Blocks
  import opened Supply
  import opened SlabSupply
  import opened PageSupply
  import opened Access
  import opened PhysAlloc
  import opened Slabs
  import opened Heap
  import opened SlabMem
  import opened SlabSteps
  import opened SlabAlloc
  import opened PageTables
  import opened PageWalk
  import PageFree
  import opened PageMem
  import opened Vm
  import opened Procs
  import opened ProcMem
  import opened Contents
  import opened Runs
  import opened ProcSteps
  import opened ProcSupply
  import opened CallSteps
  import opened Isolation
  import opened PageInit
  import opened SlabStart
  import opened Boot

  class Kernel {
    const L: Layout
    const pm: PhysMem
    const heap: SlabAllocator
    const dir: PageDir
    var curproc: int
    var nextpid: Word
    var sysenterStack: int
    ghost var procs: map<int, Procs.Proc>
    ghost var pids: nat

    constructor (L: Layout, pm: PhysMem, heap: SlabAllocator, dir: PageDir)
      requires pm.L == L && heap.L == L && dir.L == L && heap.pm == pm && dir.pm == pm
      ensures this.L == L && this.pm == pm && this.heap == heap && this.dir == dir && procs == map[] && curproc == 0
      ensures pids == 0
    {
      this.L := L;
      this.pm := pm;
      this.heap := heap;
      this.dir := dir;
      curproc := 0;
      nextpid := 0;
      sysenterStack := 0;
      procs := map[];
      pids := 0;
    }

    ghost function Y(): Sys
      reads this, heap, dir, pm
    {
      Sys(HeapState(pm.g, heap.s), dir.v, procs, if curproc == 0 then None else Some(curproc), pids)
    }

    /** The layers are stacked on one physical memory, consistent and represented. */
    ghost predicate Layers()
      reads heap, dir, pm, pm.ram
    {
      && heap.L == L && dir.L == L && pm.L == L && heap.pm == pm && dir.pm == pm
      && CoreRep(L, heap.H(), dir.v, pm.ram.mem) && dir.pgdir == dir.v.pgdir
    }

    ghost predicate Valid()
      reads this, heap, dir, pm, pm.ram
    {
      Layers() && SysInv(L, Y()) && ProcsRep(pm.ram.mem, procs, dir.v) && nextpid == pids % WORD_LIMIT
    }

    lemma LayersValid()
      requires Layers()
      ensures heap.Valid() && dir.Valid() && pm.Valid() && HeapInv(L, heap.H())
    {
      RepParts(L, heap.H(), dir.v, pm.ram.mem);
      hide CoreRep, Rep, VRep, PmInv, PmRep, HeapInv;
    }

    /** Nothing that was there in `h0`, `m0` has changed so far, but the cells in `e`. */
    ghost predicate Stage(h0: HeapState, m0: Mem, e: set<int>)
      reads heap, dir, pm, pm.ram
    {
      Layers() && Grows(h0, heap.H()) && OldKept(L, h0, m0, pm.ram.mem, e)
    }

    /** `pm_init` of memory that reaches up to `allocatableMax`. */
    method CarveMemory(allocatableMax: int)
      requires pm.L == L && allocatableMax % PM_4K == 0 && allocatableMax <= L.memTotal
      requires At(pm.ram.mem, L.pmmap) == At(pm.ram.mem, L.pmmap + 8) == At(pm.ram.mem, L.pmmap + 16) == 0
      modifies pm, pm.ram
      ensures pm.Valid() && PmInv(L, pm.g) && AllFree(pm.g) && pm.g.hi == allocatableMax
      ensures MmStart(L, pm.g).Done? <==> allocatableMax - L.kernelEnd >= START_FRAMES * PM_4K
    {
      hide PmInv, PmCore, PmRep, AllFree, MmStart, Greedy;
      var carved := pm.PmInit(allocatableMax);
      EnoughMemory(L, pm.g);
    }

    /** `mm_init`: carving, identity mapping, static slabs. It leaves no process and no client block,
        every address below 4 GiB mapped to itself and none of them open to user mode. It succeeds exactly
        when 909 frames are carved. `g1` is what the carving leaves. */
    method MmInit(allocatableMax: int) returns (r: Outcome<()>, ghost g1: PmState)
      requires heap.L == L && dir.L == L && pm.L == L && heap.pm == pm && dir.pm == pm
      requires procs == map[] && curproc == 0 && nextpid == 0 && pids == 0
      requires allocatableMax % PM_4K == 0 && allocatableMax <= L.memTotal
      requires At(pm.ram.mem, L.pmmap) == At(pm.ram.mem, L.pmmap + 8) == At(pm.ram.mem, L.pmmap + 16) == 0
      modifies heap, dir, pm, pm.ram
      ensures PmInv(L, g1) && AllFree(g1) && g1.hi == allocatableMax
      ensures r.Panic? <==> MmStart(L, g1).Panic?
      ensures r.Done? <==> allocatableMax - L.kernelEnd >= START_FRAMES * PM_4K
      ensures r.Done? ==>
        && Valid() && MmStart(L, g1) == Done(Y()) && (forall a :: !IsClient(heap.s, a)) && Quiescent(L, heap.s)
        && (forall va: nat :: va < LOW_LIMIT ==> Translate(pm.ram.mem, dir.pgdir, va) == Some(va))
        && SpacesApart(Y(), pm.ram.mem)
    {
      hide SpacesApart, PmInv, PmCore, PmRep, VRep, CoreRep, Rep, HeapInv, SysInv, VmInit, InitPrefix, StartKept;
      hide Translate;
      hide IsClient, Quiescent, AllFree, PmFrame, MmStart, Foreign, IsUsed, ProcsRep, Valid, Layers, PageDir.Valid;
      hide SlabAllocator.Valid;
      CarveMemory(allocatableMax);
      g1 := pm.g;
      MmStartIs(L, g1);
      r := dir.VmInit();
      if r.Panic? {
        return Panic, g1;
      }
      ghost var st, m := VmSt(pm.g, dir.v), pm.ram.mem;
      DirParts();
      MmStartRest(L, g1, st);
      r := heap.SlabInit();
      if r.Panic? {
        return Panic, g1;
      }
      HeapRep();
      MmStartLayers(L, g1, st, heap.H(), m, pm.ram.mem);
      LayersFrom();
      ValidFrom();
      TablesHold();
      StateApart(L, Y(), pm.ram.mem);
      return Done(()), g1;
    }

    lemma DirParts()
      requires dir.Valid() && dir.L == L && dir.pm == pm
      ensures VRep(L, VmSt(pm.g, dir.v), pm.ram.mem) && pm.Valid() && PmInv(L, pm.g) && dir.pgdir == dir.v.pgdir
    {
      hide VRep, PmInv, PmRep;
    }

    lemma HeapRep()
      requires heap.Valid() && heap.L == L && heap.pm == pm
      ensures Rep(L, heap.H(), pm.ram.mem)
    {
      hide Rep, PmInv, PmRep;
    }

    lemma LayersFrom()
      requires heap.L == L && dir.L == L && pm.L == L && heap.pm == pm && dir.pm == pm
      requires CoreRep(L, heap.H(), dir.v, pm.ram.mem) && dir.pgdir == dir.v.pgdir
      ensures Layers() && (procs == map[] ==> ProcsRep(pm.ram.mem, procs, dir.v))
    {
      hide CoreRep;
    }

    lemma IsHolding()
      requires Valid()
      ensures Holding(L, Y(), pm.ram.mem) && Layers() && nextpid == pids % WORD_LIMIT
      ensures SysInv(L, Y()) && CoreRep(L, heap.H(), dir.v, pm.ram.mem) && ProcsRep(pm.ram.mem, procs, dir.v)
      ensures heap.L == L && dir.L == L && pm.L == L && heap.pm == pm && dir.pm == pm && dir.pgdir == dir.v.pgdir
    {
      hide SysInv, CoreRep, ProcsRep;
    }

    lemma ValidAgain()
      requires heap.L == L && dir.L == L && pm.L == L && heap.pm == pm && dir.pm == pm
      requires Holding(L, Y(), pm.ram.mem) && dir.pgdir == dir.v.pgdir && nextpid == pids % WORD_LIMIT
      ensures Valid()
    {
      hide SysInv, CoreRep, ProcsRep;
    }

    lemma ValidParts()
      requires Valid()
      ensures SysInv(L, Y()) && ProcsRep(pm.ram.mem, procs, dir.v)
    {
    }

    lemma ValidFrom()
      requires Layers() && ProcsRep(pm.ram.mem, procs, dir.v) && nextpid == pids % WORD_LIMIT && SysInv(L, Y())
      ensures Valid()
    {
    }

    /** `palloc`, its structure: `kmalloc(sizeof(proc_t))`, `stat` and `pid`. */
    method NewStruct(ghost h0: HeapState, ghost m0: Mem, ghost e: set<int>) returns (r: Outcome<int>)
      requires Stage(h0, m0, e)
      modifies this`nextpid, heap, pm, pm.ram
      ensures HeapInv(L, old(heap.H())) && (r.Panic? <==> Acquire(L, old(heap.H()), PROC_CLASS).Panic?)
      ensures r.Done? ==>
        && Acquire(L, old(heap.H()), PROC_CLASS) == Done(Grab(heap.H(), r.value)) && Stage(h0, m0, e)
        && NotYet(h0, r.value) && ClientOf(heap.H(), r.value, PROC_CLASS) && r.value % 8 == 0
        && 0 < r.value < WORD_LIMIT
        && Holds(pm.ram.mem, r.value, 64, [SET, old(nextpid)]) && nextpid == (old(nextpid) + 1) % WORD_LIMIT
    {
      hide PmInv, PmRep, VRep, CoreRep, Rep, HeapInv, Kept, OldKept, Grows, ClientOf, OnlyAdds, ClassSize, ZeroRange;
      hide Holds, NotYet;
      ghost var h, m := heap.H(), pm.ram.mem;
      LayersValid();
      Sizes();
      var p :- heap.Kmalloc(PROC_BYTES);
      StructStage(L, h0, m0, e, h, heap.H(), dir.v, m, pm.ram.mem, p, nextpid);
      pm.ram.Store(p, SET);
      pm.ram.Store(p + PROC_PID, nextpid);
      nextpid := (nextpid + 1) % WORD_LIMIT;
      return Done(p);
    }

    /** The first context: where `context_switch` returns to, with interrupts enabled. */
    method InitContext(context: int, sysret: Word)
      requires (context + CONTEXT_RIP) % 8 == 0 && (context + CONTEXT_R13) % 8 == 0
      modifies pm.ram
      ensures pm.ram.mem == Put(Put(old(pm.ram.mem), context + CONTEXT_RIP, sysret), context + CONTEXT_R13, RFLAGS_IF)
    {
      pm.ram.Store(context + CONTEXT_RIP, sysret);
      pm.ram.Store(context + CONTEXT_R13, RFLAGS_IF);
    }

    /** `palloc`, the kernel stack and the context at its top. */
    method NewStack(p: int, sysret: Word, ghost pid: int, ghost h0: HeapState, ghost m0: Mem, ghost e: set<int>)
      returns (r: Outcome<int>)
      requires Stage(h0, m0, e) && ClientOf(heap.H(), p, PROC_CLASS) && NotYet(h0, p) && p % 8 == 0
      requires Holds(pm.ram.mem, p, 64, [SET, pid])
      modifies heap, pm, pm.ram
      ensures HeapInv(L, old(heap.H())) && (r.Panic? <==> Acquire(L, old(heap.H()), STACK_CLASS).Panic?)
      ensures r.Done? ==>
        && Acquire(L, old(heap.H()), STACK_CLASS) == Done(Grab(heap.H(), r.value)) && Stage(h0, m0, e)
        && ClientOf(heap.H(), p, PROC_CLASS) && ClientOf(heap.H(), r.value, STACK_CLASS) && NotYet(h0, r.value)
        && Holds(pm.ram.mem, p, 64, [SET, pid, r.value, ContextOf(r.value), 0])
        && StackHolds(pm.ram.mem, r.value, sysret)
    {
      hide PmInv, PmRep, VRep, CoreRep, Rep, HeapInv, Kept, OldKept, Grows, ClientOf, OnlyAdds, ClassSize, ZeroRange;
      hide Holds, NotYet, StackHolds, SlabAllocator.Valid, PageDir.Valid;
      ghost var h, m := heap.H(), pm.ram.mem;
      StageKept(h0, m0, e);
      LayersValid();
      Sizes();
      var kstack :- heap.Kmalloc(KSTACK_SIZE);
      HeapRep();
      StackStage(L, h0, m0, e, h, heap.H(), dir.v, m, pm.ram.mem, p, pid, kstack, sysret);
      pm.ram.Store(p + PROC_KSTACK, kstack);
      var sp := kstack + KSTACK_SIZE;
      sp := sp - CONTEXT_BYTES;
      pm.ram.Store(p + PROC_CONTEXT, sp);
      InitContext(sp, sysret);
      pm.ram.Store(p + PROC_WCHAN, 0);
      return Done(kstack);
    }

    /** `palloc`, the root table of the address space and the standard files. */
    method NewRoot(p: int, kstack: int, stdio: Word, ghost pid: int, ghost sysret: int, ghost h0: HeapState,
                   ghost m0: Mem, ghost e: set<int>)
      returns (r: Outcome<()>)
      requires Stage(h0, m0, e) && ClientOf(heap.H(), p, PROC_CLASS) && NotYet(h0, p) && p % 8 == 0
      requires UserRoot(p) !in dir.v.ent
      requires ClientOf(heap.H(), kstack, STACK_CLASS) && p != kstack && StackHolds(pm.ram.mem, kstack, sysret)
      requires Holds(pm.ram.mem, p, 64, [SET, pid, kstack, ContextOf(kstack), 0])
      modifies heap, dir`v, pm, pm.ram
      ensures HeapInv(L, old(heap.H())) && heap.s == old(heap.s)
      ensures r.Panic? <==> AddRoot(L, old(heap.H()), old(dir.v), p).Panic?
      ensures r.Done? ==>
        && AddRoot(L, old(heap.H()), old(dir.v), p) == Done(VmSt(pm.g, dir.v)) && Stage(h0, m0, e)
        && SameClients(old(heap.H()), heap.H()) && UserRoot(p) in dir.v.ent
        && Holds(pm.ram.mem, p, 64, [SET, pid, kstack, ContextOf(kstack), 0, dir.v.ent[UserRoot(p)], stdio, stdio])
        && StackHolds(pm.ram.mem, kstack, sysret)
    {
      hide PmInv, PmRep, VRep, CoreRep, Rep, HeapInv, OldKept, Grows, ClientOf, ClassSize, ZeroRange, Holds, NotYet;
      hide StackHolds, AddRoot, Alloc, AllocAddr, CanAlloc, PmFrame, SameClients, Or;
      ghost var h, v, m := heap.H(), dir.v, pm.ram.mem;
      LayersValid();
      AddRootValue(L, h, v, p);
      var page :- pm.Pmalloc(PM_4K);
      RootStage(L, h0, m0, e, h, v, m, pm.ram.mem, p, kstack, pid, sysret, stdio);
      RootFlags(page);
      pm.ram.Store(p + PROC_UPML4, Or(Or(Or(page, PG_P), PG_RW), PG_US));
      dir.v := Add(v, UserRoot(p), page + 7);
      pm.ram.Store(p + PROC_OFILE, stdio);
      pm.ram.Store(p + PROC_OFILE + 8, stdio);
      return Done(());
    }

    /** `palloc`, the entry in the process list: `list_push` allocates a node that names the process. */
    method NewNode(p: int, kstack: int, ghost words: seq<int>, ghost sysret: int, ghost h0: HeapState, ghost m0: Mem,
                   ghost e: set<int>)
      returns (r: Outcome<int>)
      requires Stage(h0, m0, e) && ClientOf(heap.H(), p, PROC_CLASS) && NotYet(h0, p)
      requires ClientOf(heap.H(), kstack, STACK_CLASS)
      requires Holds(pm.ram.mem, p, 64, words) && StackHolds(pm.ram.mem, kstack, sysret) && 0 <= p < WORD_LIMIT
      modifies heap, pm, pm.ram
      ensures HeapInv(L, old(heap.H())) && (r.Panic? <==> Acquire(L, old(heap.H()), NODE_CLASS).Panic?)
      ensures r.Done? ==>
        && Acquire(L, old(heap.H()), NODE_CLASS) == Done(Grab(heap.H(), r.value)) && Stage(h0, m0, e)
        && Holds(pm.ram.mem, p, 64, words) && StackHolds(pm.ram.mem, kstack, sysret) && At(pm.ram.mem, r.value) == p
    {
      hide PmInv, PmRep, VRep, CoreRep, Rep, HeapInv, Kept, OldKept, Grows, ClientOf, OnlyAdds, ClassSize, ZeroRange;
      hide Holds, NotYet, StackHolds;
      ghost var h, m := heap.H(), pm.ram.mem;
      LayersValid();
      Sizes();
      var node :- heap.Kmalloc(NODE_BYTES);
      NodeStage(L, h0, m0, e, h, heap.H(), dir.v, m, pm.ram.mem, p, kstack, words, sysret, node);
      pm.ram.Store(node, p);
      return Done(node);
    }

    /** `palloc`: a process with a zeroed structure, a kernel stack whose first context returns to
        `sysret`, and an empty address space. It panics exactly when fewer frames are free than the four
        allocations need, and changes no byte of any block that was there before. */
    method Palloc(sysret: Word, stdio: Word) returns (r: Outcome<int>)
      requires Valid()
      modifies this, heap, dir, pm, pm.ram
      ensures |old(pm.g).free| == 3 && (r.Panic? <==> FreeFrames(old(pm.g)) < PallocFrames(old(heap.s)))
      ensures HeapInv(L, old(Y()).h) && (r.Panic? <==> Procs.Palloc(L, old(Y())).Panic?)
      ensures r.Panic? <==> Panics(L, old(Y()), Spawn)
      ensures r.Done? ==>
        && Valid() && Procs.Palloc(L, old(Y())) == Done(Spawned(Y(), r.value)) && r.value !in old(procs)
        && r.value in procs
        && Stage(old(heap.H()), old(pm.ram.mem), {}) && NotYet(old(heap.H()), r.value)
        && NotYet(old(heap.H()), procs[r.value].kstack)
        && UserRoot(r.value) in dir.v.ent && dir.v == Add(old(dir.v), UserRoot(r.value), dir.v.ent[UserRoot(r.value)])
        && NewProcess(pm.ram.mem, r.value, procs[r.value], dir.v.ent[UserRoot(r.value)], sysret, stdio)
        && curproc == old(curproc)
        && Stepped(L, old(Y()), old(pm.ram.mem), Spawn, Y(), pm.ram.mem)
    {
      hide FreeFrames, PallocFrames;
      hide PmInv, PmRep, VRep, CoreRep, Rep, HeapInv, OldKept, Grows, ClientOf, ClassSize, Holds, NotYet, StackHolds;
      hide AddRoot, Acquire, OnlyAdds, SameClients, SysInv, ProcsRep, Procs.Palloc, PallocRest, BlocksOk;
      hide Valid, Layers, Stage, Stepped, Panics, Holding, SpacesKept, Core, NewProcess;
      ghost var y, h0, v0, m0, e: set<int> := Y(), heap.H(), dir.v, pm.ram.mem, {};
      IsHolding();
      LayersValid();
      StageHere();
      SpawnPanics(L, y);
      PallocSupply(L, y);
      PallocFirst(L, y);
      PallocOk(L, y);
      ghost var pid := nextpid;
      var p :- NewStruct(h0, m0, e);
      ghost var a := Grab(heap.H(), p);
      FirstBlock(L, y, a);
      var kstack :- NewStack(p, sysret, pid, h0, m0, e);
      ghost var b := Grab(heap.H(), kstack);
      OtherBlock(a.h, b, PROC_CLASS, p);
      PallocLast(L, y, a, b);
      var _ :- NewRoot(p, kstack, stdio, pid, sysret, h0, m0, e);
      AddRootIs(L, b.h, v0, p);
      ghost var words := [SET, pid, kstack, ContextOf(kstack), 0, dir.v.ent[UserRoot(p)], stdio, stdio];
      SameClient(b.h, heap.H(), p, PROC_CLASS);
      SameClient(b.h, heap.H(), kstack, STACK_CLASS);
      var node :- NewNode(p, kstack, words, sysret, h0, m0, e);
      StageKept(h0, m0, e);
      procs := procs[p := Procs.Proc(SET, pids, kstack, node)];
      NewRep(L, y, m0, pm.ram.mem, dir.v, p, procs[p], sysret, stdio, words);
      pids := pids + 1;
      NextPid(pids);
      SpawnStepRep(L, y, m0, Y(), pm.ram.mem, p);
      ValidFrom();
      return Done(p);
    }

    /** `walk_pgdir(va, TRUE, FALSE)`, whose result is never NULL. */
    method Fault(va: nat) returns (r: Outcome<()>)
      requires Layers() && Walkable(dir.v, va)
      modifies dir`v, pm, pm.ram
      ensures PmInv(L, old(pm.g)) && (r.Panic? <==> Walk(L, VmSt(old(pm.g), old(dir.v)), va, false).Panic?)
      ensures |old(pm.g).free| == 3 && (r.Panic? <==> FreeFrames(old(pm.g)) < Missing(old(dir.v), va, false))
      ensures r.Done? ==>
        && Layers() && Walk(L, VmSt(old(pm.g), old(dir.v)), va, false) == Done(VmSt(pm.g, dir.v))
        && OldKept(L, old(heap.H()), old(pm.ram.mem), pm.ram.mem, NewLinks(old(dir.v), dir.v))
        && Grows(old(heap.H()), heap.H())
        && (Translate(old(pm.ram.mem), dir.pgdir, va).None? ==> MapsAnew(old(pm.g), pm.ram.mem, dir.pgdir, va))
    {
      hide FreeFrames, Missing, Answers, MapsAnew, Translate;
      hide PmInv, PmRep, VRep, CoreRep, Rep, HeapInv, OldKept, Grows, Walkable, Walk, Mapped, LeafCell, VmKept;
      hide SameOutside, NewLinks;
      ghost var h, v, m := heap.H(), dir.v, pm.ram.mem;
      LayersValid();
      WalkSafe(L, VmSt(pm.g, v), m, va);
      var cell :- dir.WalkPgdir(va, true, false);
      if cell == 0 {
        assert false;
      }
      WalkStepRep(L, h, v, VmSt(pm.g, dir.v), m, pm.ram.mem);
      return Done(());
    }

    /** `switch_proc` up to `context_switch`. It panics exactly on NULL and unless the old process runs
        and the new one is ready; afterwards the new process is the only one that runs, and slot 2 of
        the PML4 holds its `upml4`. */
    method SwitchProc(next: int, prev: int) returns (r: Outcome<()>)
      requires Valid() && (next != 0 ==> next in procs && UserRoot(next) in dir.v.ent) && (prev != 0 ==> prev in procs)
      modifies this, dir, pm.ram
      ensures r.Panic? <==> DispatchStep(old(Y()), next, prev).Panic?
      ensures r.Panic? <==> Panics(L, old(Y()), Dispatch(next, prev))
      ensures r.Panic? ==> Y() == old(Y()) && pm.ram.mem == old(pm.ram.mem)
      ensures r.Done? ==>
        && Valid() && DispatchStep(old(Y()), next, prev) == Done(Y()) && curproc == next
        && (forall p :: p in procs ==> (At(pm.ram.mem, p) == RUN <==> p == next))
        && At(pm.ram.mem, dir.pgdir + 8 * USER_SLOT) == At(pm.ram.mem, next + PROC_UPML4)
        && sysenterStack == procs[next].kstack + KSTACK_SIZE
        && var m2 := Put(Put(old(pm.ram.mem), prev, READY), next, RUN);
        && pm.ram.mem == Put(m2, dir.pgdir + 8 * USER_SLOT, At(m2, next + PROC_UPML4))
        && Stepped(L, old(Y()), old(pm.ram.mem), Dispatch(next, prev), Y(), pm.ram.mem)
    {
      hide PmInv, PmRep, VRep, CoreRep, Rep, HeapInv, Grows, ClientOf, SysInv, ProcsRep, BlocksOk, SpacesKept, Spared;
      hide OldKept, ForeignKept, Frame;
      hide Valid, Layers, Holding, PageDir.Valid, Core, StOk, Panics, Stepped, Moves, Perform;
      IsHolding();
      DispatchStepIs(L, Y(), next, prev);
      if next == 0 || prev == 0 {
        return Panic;
      }
      ghost var y, m := Y(), pm.ram.mem;
      BeforeSwitch(L, y, m, next, prev);
      var oldStat := pm.ram.Load(prev);
      var newStat := pm.ram.Load(next);
      if oldStat != RUN || newStat != READY {
        return Panic;
      }
      pm.ram.Store(prev, READY);
      pm.ram.Store(next, RUN);
      ghost var z, m2 := SetStat(SetStat(y, prev, READY), next, RUN), pm.ram.mem;
      procs := z.procs;
      curproc := next;
      LayersFrom();
      LayersValid();
      ProcRoot(z, m2, next);
      dir.SwitchUvm(next);
      DirParts();
      DispatchRep(L, y, m, m2, pm.ram.mem, next, prev);
      var kstack := pm.ram.Load(next + PROC_KSTACK);
      sysenterStack := kstack + KSTACK_SIZE;
      ValidAgain();
      return Done(());
    }

    /** During `uinit`: all of the invariant but who runs. */
    ghost predicate Starting(init: int)
      reads this, heap, dir, pm, pm.ram
    {
      && Layers() && BlocksOk(Y()) && ProcsRep(pm.ram.mem, procs, dir.v) && nextpid == pids % WORD_LIMIT
      && init in procs && At(pm.ram.mem, init + PROC_CONTEXT) == ContextOf(procs[init].kstack)
    }

    lemma StartingFrom(init: int)
      requires Valid() && BlocksOk(Y()) && init in procs
      requires At(pm.ram.mem, init + PROC_CONTEXT) == ContextOf(procs[init].kstack)
      ensures Starting(init)
    {
    }

    lemma StageHere()
      requires Layers()
      ensures Stage(heap.H(), pm.ram.mem, {})
    {
      StartHere(L, heap.H(), pm.ram.mem);
    }

    lemma StageKept(h0: HeapState, m0: Mem, e: set<int>)
      requires Stage(h0, m0, e)
      ensures OldKept(L, h0, m0, pm.ram.mem, e) && Layers()
    {
      hide OldKept;
    }

    lemma StageMore(h0: HeapState, m0: Mem, e: set<int>)
      requires Stage(h0, m0, {})
      ensures Stage(h0, m0, e)
    {
      OldMore(L, h0, m0, pm.ram.mem, {}, e);
      hide OldKept;
    }

    lemma StartingParts(init: int)
      requires Starting(init)
      ensures Layers() && ProcsRep(pm.ram.mem, procs, dir.v) && nextpid == pids % WORD_LIMIT && init in procs
    {
    }

    /** `uinit`, the first process runs and is linked in slot 2. */
    method LinkFirst(init: int, ghost sysret: int, ghost h0: HeapState, ghost m0: Mem, ghost e: set<int>)
      requires Valid() && Starting(init) && UserRoot(init) in dir.v.ent && Stage(h0, m0, e) && NotYet(h0, init)
      requires SlotCell(dir.v) in e && StackHolds(pm.ram.mem, procs[init].kstack, sysret)
      modifies this`procs, this`sysenterStack, dir`v, pm.ram
      ensures Starting(init) && procs == SetStat(old(Y()), init, RUN).procs
      ensures dir.v == old(dir.v).(active := Some(init))
      ensures sysenterStack == procs[init].kstack + KSTACK_SIZE && procs[init].kstack == old(procs[init].kstack)
      ensures Stage(h0, m0, e) && StackHolds(pm.ram.mem, procs[init].kstack, sysret)
    {
      hide PmInv, PmRep, VRep, CoreRep, Rep, HeapInv, OldKept, Grows, ClientOf, SysInv, ProcsRep, BlocksOk, VmKept;
      hide Frame, NotYet, StackHolds;
      ghost var y, m := Y(), pm.ram.mem;
      ProcFacts(L, y, m, init);
      StatStore(L, y, m, init, RUN);
      StatOld(L, h0, m0, e, y, m, init, RUN);
      StatStack(L, y, m, init, RUN, sysret);
      pm.ram.Store(init, RUN);
      ghost var z, m1 := SetStat(y, init, RUN), pm.ram.mem;
      procs := z.procs;
      LayersValid();
      ProcRoot(z, m1, init);
      dir.SwitchUvm(init);
      SwitchRep(L, z, m1, pm.ram.mem, init);
      ContextKept(L, z, m1, pm.ram.mem, {SlotCell(z.v)}, init);
      OldStack(L, z, m1, pm.ram.mem, {SlotCell(z.v)}, init, sysret);
      SwitchOld(L, h0, m0, e, z, m1, pm.ram.mem);
      BlocksHere(y, init, RUN);
      StartWords(L, Y(), pm.ram.mem, init);
      var kstack := pm.ram.Load(init + PROC_KSTACK);
      sysenterStack := kstack + KSTACK_SIZE;
    }

    /** `uinit`, its first user page is touched and its context set to start there. */
    method FaultFirst(init: int, ghost sysret: int, ghost h0: HeapState, ghost m0: Mem, ghost e: set<int>)
      returns (r: Outcome<()>)
      requires Starting(init) && Stage(h0, m0, e) && NotYet(h0, procs[init].kstack) && Walkable(dir.v, USER_ADDR_START)
      requires PmInv(L, pm.g) && StackHolds(pm.ram.mem, procs[init].kstack, sysret)
      modifies dir`v, pm, pm.ram
      ensures r.Panic? <==> Walk(L, VmSt(old(pm.g), old(dir.v)), USER_ADDR_START, false).Panic?
      ensures r.Done? ==>
        && Starting(init) && Walk(L, VmSt(old(pm.g), old(dir.v)), USER_ADDR_START, false) == Done(VmSt(pm.g, dir.v))
        && StartsAt(pm.ram.mem, procs[init].kstack, sysret) && Stage(h0, m0, e + NewLinks(old(dir.v), dir.v))
    {
      hide FreeFrames, Missing, MapsAnew, Translate;
      hide PmInv, PmRep, VRep, CoreRep, Rep, HeapInv, OldKept, Grows, ClientOf, SysInv, ProcsRep, BlocksOk, VmKept;
      hide Frame, Walk, Walkable, NotYet, StackHolds, StartsAt;
      ghost var y, m := Y(), pm.ram.mem;
      var _ :- Fault(USER_ADDR_START);
      ghost var e' := e + NewLinks(y.v, dir.v);
      FaultOld(L, h0, m0, e, y, m, VmSt(pm.g, dir.v), pm.ram.mem);
      FaultKept(L, y, m, VmSt(pm.g, dir.v), pm.ram.mem, USER_ADDR_START);
      ContextKept(L, y, m, pm.ram.mem, NewLinks(y.v, dir.v), init);
      OldStack(L, y, m, pm.ram.mem, NewLinks(y.v, dir.v), init, sysret);
      StackStarts(pm.ram.mem, procs[init].kstack, sysret);
      StartWords(L, Y(), pm.ram.mem, init);
      var context := pm.ram.Load(init + PROC_CONTEXT);
      StartContext(L, Y(), pm.ram.mem, init);
      ContextOld(L, h0, m0, e', Y(), pm.ram.mem, init);
      pm.ram.Store(context + CONTEXT_R15, USER_ADDR_START);
      pm.ram.Store(context + CONTEXT_R14, USER_ADDR_START + PM_4K);
      return Done(());
    }

    /** `uinit` up to `context_switch`, without copying the first program: one process, running, linked
        in slot 2, with its first page mapped and its context set to start there. */
    method Uinit(sysret: Word, stdio: Word) returns (r: Outcome<int>)
      requires Valid() && curproc == 0
      modifies this, heap, dir, pm, pm.ram
      ensures |old(pm.g).free| == 3
      ensures r.Panic? <==> FreeFrames(old(pm.g)) < PallocFrames(old(heap.s)) + FIRST_PAGE_FRAMES
      ensures SysInv(L, old(Y())) && (r.Panic? <==> BootStep(L, old(Y())).Panic?)
      ensures r.Panic? <==> Panics(L, old(Y()), Boot)
      ensures r.Done? ==>
        && Valid() && BootStep(L, old(Y())) == Done(Y()) && curproc == r.value != 0 && r.value in procs
        && Lookup(dir.v, USER_ADDR_START).Some? && sysenterStack == procs[r.value].kstack + KSTACK_SIZE
        && StartsAt(pm.ram.mem, procs[r.value].kstack, sysret)
        && OldKept(L, old(heap.H()), old(pm.ram.mem), pm.ram.mem,
             {SlotCell(old(dir.v))} + NewLinks(old(dir.v), dir.v))
        && Stepped(L, old(Y()), old(pm.ram.mem), Boot, Y(), pm.ram.mem)
    {
      hide FreeFrames, PallocFrames, Missing;
      hide PmInv, PmRep, VRep, CoreRep, Rep, HeapInv, OldKept, Grows, ClientOf, SysInv, ProcsRep, BlocksOk, VmKept;
      hide Frame, Procs.Palloc, BootStep, Walk, Walkable, NewProcess, Lookup, StartsAt, SetStat, NotYet, StackHolds;
      hide SpacesKept, Stepped, Panics, Moves, Perform, NewLinks, Core, StOk, Spared;
      hide Valid, Starting, Layers, Stage;
      ghost var y0, h0, m0, e := Y(), heap.H(), pm.ram.mem, {SlotCell(dir.v)};
      ValidParts();
      BootPanics(L, y0);
      BootStepIs(L, y0);
      BootSupply(L, y0);
      var init :- Palloc(sysret, stdio);
      ghost var y := Y();
      ValidParts();
      BootRest(L, y0, y, pm.ram.mem, init, sysret, stdio);
      StartingFrom(init);
      StageMore(h0, m0, e);
      LinkFirst(init, sysret, h0, m0, e);
      ghost var v1 := dir.v;
      var _ :- FaultFirst(init, sysret, h0, m0, e);
      StartingParts(init);
      StageKept(h0, m0, e + NewLinks(v1, dir.v));
      BootStepRep(L, y0, m0, y, init, VmSt(pm.g, dir.v), pm.ram.mem);
      FewerLinks(y0.v, v1, dir.v);
      OldMore(L, h0, m0, pm.ram.mem, e + NewLinks(v1, dir.v), e + NewLinks(y0.v, dir.v));
      curproc := init;
      assert Y() == Sys(HeapState(pm.g, heap.s), dir.v, SetStat(y, init, RUN).procs, Some(init), y.nextpid);
      ValidFrom();
      SteppedFrom(L, y0, m0, Boot, Y(), pm.ram.mem);
      return Done(init);
    }

    // ---- The other operations, from and to consistent kernel states ----

    /** `kmalloc` while processes exist. */
    method Kmalloc(size: nat) returns (r: Outcome<int>)
      requires Valid()
      modifies heap, pm, pm.ram
      ensures |old(pm.g).free| == 3
      ensures r.Done? <==> size <= PM_512K && CanServe(old(heap.H()), SizeToClass(size).value)
      ensures r.Panic? <==> Panics(L, old(Y()), Step.Heap(Malloc(size)))
      ensures r.Done? ==>
        && Valid() && Stepped(L, old(Y()), old(pm.ram.mem), Step.Heap(Malloc(size)), Y(), pm.ram.mem)
        && ClientOf(heap.H(), r.value, SizeToClass(size).value) && !IsClient(old(heap.s), r.value)
        && ZeroRange(pm.ram.mem, r.value, size) && OldKept(L, old(heap.H()), old(pm.ram.mem), pm.ram.mem, {})
    {
      hide CanServe;
      hide PmInv, PmRep, VRep, CoreRep, Rep, HeapInv, Kept, OldKept, ClientOf, OnlyAdds, ClassSize, SysInv, ProcsRep;
      hide IsClient;
      hide Valid, Layers, Stepped, Panics, Moves, Perform, KAlloc, SizeToClass, ZeroRange;
      ghost var y, m := Y(), pm.ram.mem;
      IsHolding();
      LayersValid();
      MallocPanics(L, y, size);
      r := heap.Kmalloc(size);
      if r.Done? {
        HeapRep();
        MallocStep(L, y, m, size, heap.H(), pm.ram.mem, r.value, SizeToClass(size).value);
        ZeroFewer(pm.ram.mem, r.value, ClassSize(SizeToClass(size).value), size);
        ValidAgain();
      }
    }

    /** `kmfree` of a block that belongs to no process. */
    method Kmfree(addr: int) returns (r: Outcome<()>)
      requires Valid() && Allowed(Y(), Step.Heap(Free(addr)))
      modifies heap, pm, pm.ram
      ensures r.Panic? <==> Panics(L, old(Y()), Step.Heap(Free(addr)))
      ensures r.Panic? ==> Y() == old(Y()) && pm.ram.mem == old(pm.ram.mem)
      ensures r.Done? ==>
        && Valid() && Stepped(L, old(Y()), old(pm.ram.mem), Step.Heap(Free(addr)), Y(), pm.ram.mem)
        && OldKept(L, heap.H(), old(pm.ram.mem), pm.ram.mem, {})
    {
      hide PmInv, PmRep, VRep, CoreRep, Rep, HeapInv, Kept, OldKept, OnlyRemoves, SysInv, ProcsRep, IsClient, Mine;
      hide KFree, Freeable, FreeOk;
      hide Valid, Layers, Holding, Stepped, Perform;
      ghost var y, m := Y(), pm.ram.mem;
      IsHolding();
      LayersValid();
      FreePanics(L, y, addr);
      LiveFreeable(L, y.h, addr);
      r := heap.Kmfree(addr);
      if r.Done? {
        HeapRep();
        FreeStepRep(L, y, m, heap.H(), pm.ram.mem, addr);
        ValidAgain();
      }
    }

    /** The page-fault branch of `trap`. */
    method PageFault(va: nat) returns (r: Outcome<()>)
      requires Valid() && Walkable(dir.v, va)
      modifies dir`v, pm, pm.ram
      ensures |old(pm.g).free| == 3 && (r.Panic? <==> FreeFrames(old(pm.g)) < Missing(old(dir.v), va, false))
      ensures r.Panic? <==> Panics(L, old(Y()), Touch(va))
      ensures r.Done? ==>
        && Valid() && Stepped(L, old(Y()), old(pm.ram.mem), Touch(va), Y(), pm.ram.mem)
        && OldKept(L, old(heap.H()), old(pm.ram.mem), pm.ram.mem, NewLinks(old(dir.v), dir.v))
        && Lookup(dir.v, va).Some?
        && (Translate(old(pm.ram.mem), dir.pgdir, va).None? ==> MapsAnew(old(pm.g), pm.ram.mem, dir.pgdir, va))
    {
      hide FreeFrames, Missing, MapsAnew, Translate;
      hide PmInv, PmRep, VRep, CoreRep, Rep, HeapInv, OldKept, Grows, Walkable, Walk, SysInv, ProcsRep, NewLinks;
      hide Lookup;
      hide Valid, Holding, Stepped, Panics, Moves, Perform, TouchStep, Core;
      ghost var y, m := Y(), pm.ram.mem;
      IsHolding();
      TouchPanics(L, y, va);
      TouchIs(L, y, va);
      TouchOk(L, y, va);
      r := Fault(va);
      if r.Done? {
        TouchStepRep(L, y, m, VmSt(pm.g, dir.v), pm.ram.mem, va);
        ValidAgain();
      }
    }

    /** `switch_uvm` */
    method SwitchUvm(proc: int)
      requires Valid() && UserRoot(proc) in dir.v.ent
      modifies dir`v, pm.ram
      ensures Valid() && Stepped(L, old(Y()), old(pm.ram.mem), Switch(proc), Y(), pm.ram.mem)
    {
      hide PmInv, PmRep, VRep, CoreRep, Rep, HeapInv, OldKept, SysInv, ProcsRep, BlocksOk;
      hide Valid, Stepped, Present, Spared;
      ghost var y, m := Y(), pm.ram.mem;
      IsHolding();
      LayersValid();
      UpmlInMemory(L, y, m, proc);
      SysParts(L, y);
      dir.SwitchUvm(proc);
      DirParts();
      SwitchRep(L, y, m, pm.ram.mem, proc);
      LinkStepRep(L, y, m, pm.ram.mem, proc);
      ValidAgain();
    }

    /** `free_uvm` of a process that is not linked in slot 2; it never panics there. */
    method FreeUvm(proc: int) returns (r: Outcome<()>)
      requires Valid() && Allowed(Y(), FreeTree(proc))
      modifies dir`v, pm, pm.ram
      ensures r.Done? && Valid() && Stepped(L, old(Y()), old(pm.ram.mem), FreeTree(proc), Y(), pm.ram.mem)
    {
      hide PmInv, PmRep, VRep, CoreRep, Rep, HeapInv, SysInv, ProcsRep, BlocksOk, Outside, Spared, PageFree.FreeUvm;
      hide PageFree.WithoutSpace, FreeStep;
      hide Valid, Perform, Present, NamesHead, SpacesKept;
      ghost var y, m := Y(), pm.ram.mem;
      IsHolding();
      LayersValid();
      UpmlInMemory(L, y, m, proc);
      ghost var home := StructHome(L, y, proc);
      FreeStepIs(L, y, proc);
      r := dir.FreeUvm(proc, home);
      FreeStepParts(L, y, proc);
      DirParts();
      TeardownRep(L, y, m, pm.ram.mem, proc, Y());
      ValidAgain();
    }

    /** The store that makes a new process eligible for `switch_proc`. */
    method MarkReady(proc: int)
      requires Valid() && Allowed(Y(), MakeReady(proc))
      modifies this`procs, pm.ram
      ensures Valid() && Stepped(L, old(Y()), old(pm.ram.mem), MakeReady(proc), Y(), pm.ram.mem)
    {
      hide PmInv, PmRep, VRep, CoreRep, Rep, HeapInv, SysInv, ProcsRep, BlocksOk, Valid, Stepped, Panics, Moves;
      hide Perform, Holding;
      ghost var y, m := Y(), pm.ram.mem;
      IsHolding();
      ReadyStepRep(L, y, m, proc);
      pm.ram.Store(proc, READY);
      procs := SetStat(y, proc, READY).procs;
      ValidAgain();
    }

    lemma TablesHold()
      requires Valid()
      ensures SysInv(L, Y()) && VmRep(pm.ram.mem, dir.v)
    {
      hide SysInv, ProcsRep, SlabRep, VmRep, Core, PmRep;
    }

    lemma Served(y: Sys, m: Mem, step: Step)
      requires Valid() && SysInv(L, y) && VmRep(m, y.v) && Stepped(L, y, m, step, Y(), pm.ram.mem)
      ensures BystandersKept(y, m, step, Y(), pm.ram.mem) && !Panics(L, y, step)
    {
      hide Valid, SysInv, VmRep, Stepped, Panics, BystandersKept, SpacesKept, Perform, Allowed;
      NoPanic(L, y, m, step, Y(), pm.ram.mem);
      KeptByStep(L, y, m, step, Y(), pm.ram.mem);
      TablesHold();
      BystandersSeeNothing(L, y, m, step, Y(), pm.ram.mem);
    }

    /** Any one of the operations. It panics exactly when `Fails` says so; otherwise memory holds
        what the abstract step leaves, and every process the step is not about reaches the same frames
        as before, with every byte as it was. */
    method Serve(step: Step, sysret: Word, stdio: Word) returns (r: Outcome<()>)
      requires Valid() && Allowed(Y(), step)
      modifies this, heap, dir, pm, pm.ram
      ensures |old(pm.g).free| == 3 && (r.Panic? <==> Fails(old(Y()), step))
      ensures r.Panic? <==> Panics(L, old(Y()), step)
      ensures r.Done? ==>
        && Valid() && Stepped(L, old(Y()), old(pm.ram.mem), step, Y(), pm.ram.mem)
        && BystandersKept(old(Y()), old(pm.ram.mem), step, Y(), pm.ram.mem)
    {
      hide MapsAnew, Translate, FreeFrames, PallocFrames, Missing, CanServe, Fails;
      hide BystandersKept, SpacesKept, VmRep;
      hide Valid, Stepped, Panics, Moves, Perform, OldKept, NewLinks, Procs.Palloc, BootStep, DispatchStep, NewProcess;
      hide SysInv, HeapInv, Layers;
      hide Stage, NotYet, StartsAt, Lookup, ZeroRange, ClientOf, IsClient;
      ghost var y, m := Y(), pm.ram.mem;
      TablesHold();
      PanicsExactly(L, y, step);
      match step {
        case Heap(call) =>
          match call {
            case Malloc(size) => var _ :- Kmalloc(size);
            case Free(addr) => var _ :- Kmfree(addr);
          }
        case Spawn => var _ :- Palloc(sysret, stdio);
        case Boot => var _ :- Uinit(sysret, stdio);
        case Switch(proc) => SwitchUvm(proc);
        case Touch(va) => var _ :- PageFault(va);
        case Dispatch(next, prev) => var _ :- SwitchProc(next, prev);
        case MakeReady(proc) => MarkReady(proc);
        case FreeTree(proc) => var _ := FreeUvm(proc);
      }
      Served(y, m, step);
      return Done(());
    }

    /** Any run of the operations. It completes exactly when the abstract run does; memory then holds the
        state that run leads to, address spaces are apart in it, and no page of a process has changed
        unless its tree was torn down. */
    method Execute(steps: seq<Step>, sysret: Word, stdio: Word) returns (r: Outcome<()>)
      requires Valid() && RunAllowed(L, Y(), steps)
      modifies this, heap, dir, pm, pm.ram
      ensures r.Panic? ==> forall y' :: !Leads(L, old(Y()), steps, y')
      ensures r.Done? ==>
        && Valid() && Leads(L, old(Y()), steps, Y())
        && PagesKept(old(dir.v), old(pm.ram.mem), steps, dir.v, pm.ram.mem)
        && SpacesApart(Y(), pm.ram.mem)
      decreases |steps|
    {
      hide Valid, RunAllowed, Stepped, Panics, Moves, Perform, SysInv, Allowed, SpacesKept, PagesKept, BystandersKept;
      hide SpacesApart, VmRep;
      ghost var y, m := Y(), pm.ram.mem;
      TablesHold();
      if steps == [] {
        NoStepPages(y.v, m);
        StateApart(L, y, m);
        return Done(());
      }
      RunStep(L, y, steps);
      var _ :- Serve(steps[0], sysret, stdio);
      ghost var y1, m1 := Y(), pm.ram.mem;
      var _ :- Execute(steps[1..], sysret, stdio);
      KeptByStep(L, y, m, steps[0], y1, m1);
      StepThenPages(y.v, m, y1.v, m1, steps, dir.v, pm.ram.mem);
      return Done(());
    }
  }
}
