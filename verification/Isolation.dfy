/** What the processor reaches from a process's root table, and that no two processes reach the same
    frame, in any state of any run. */
module Isolation {
  import opened Bits
  import opened Memory
  import opened Blocks
  import opened Slabs
  import opened Heap
  import opened PageTables
  import opened PageWalk
  import opened PageFree
  import opened Procs
  import opened ProcMem
  import opened Runs
  import opened Contents
  import opened Access

  ghost function Entry(m: Mem, e: int, i: nat): int {
    At(m, Frame(e) + 8 * i)
  }

  /** Frame `f` is reached from the entry word `e` through at most `level` more tables: it is the frame
      `e` names, or is reached from a present entry of that table. */
  ghost predicate Reaches(m: Mem, e: int, level: nat, f: int)
    decreases level
  {
    f == Frame(e)
    || (level > 0 && exists i: nat ::
          && i < ENTRIES && Present(Entry(m, e, i))
          && Reaches(m, Entry(m, e, i), level - 1, f))
  }

  ghost predicate InTree(v: VmState, p: Pos, f: int) {
    exists q :: q in v.ent && Under(q, p) && Frame(v.ent[q]) == f
  }

  /** The entry read at index i of a process table is the tree's child there. */
  lemma ChildEntry(v: VmState, m: Mem, p: Pos, i: nat)
    requires TreeOk(v) && VmRep(m, v) && IsProcessTable(v, p) && i < ENTRIES
    ensures var c := Child(p, i);
      && (Present(Entry(m, v.ent[p], i)) <==> c in v.ent) && (c in v.ent ==> Entry(m, v.ent[p], i) == v.ent[c])
      && c.level == p.level - 1 && c.space == p.space
  {
    hide Frame, Present, HasPS;
    UserOwned(v, p);
    ChildParent(p, i);
    WalkEntry(m, v, p, Child(p, i));
    ZeroWord();
    if Child(p, i) in v.ent { UserOwned(v, Child(p, i)); }
  }

  lemma {:induction false} ReachesTree(v: VmState, m: Mem, p: Pos, f: int)
    requires TreeOk(v) && VmRep(m, v) && p in v.ent && p.space.User? && p.level <= 3
    ensures Reaches(m, v.ent[p], p.level, f) <==> InTree(v, p, f)
    decreases p.level
  {
    hide TreeOk, VmRep, Frame, Present, Under, Ancestor;
    SelfUnder(p);
    if f == Frame(v.ent[p]) {
    } else if p.level > 0 {
      if Reaches(m, v.ent[p], p.level, f) {
        var i: nat :| i < ENTRIES && Present(Entry(m, v.ent[p], i))
          && Reaches(m, Entry(m, v.ent[p], i), p.level - 1, f);
        ChildEntry(v, m, p, i);
        ReachesTree(v, m, Child(p, i), f);
        var q :| q in v.ent && Under(q, Child(p, i)) && Frame(v.ent[q]) == f;
        UnderChild(q, p, i);
      }
      if InTree(v, p, f) {
        var q :| q in v.ent && Under(q, p) && Frame(v.ent[q]) == f;
        var i := ChildOnPath(v, p, q);
        ChildEntry(v, m, p, i);
        ReachesTree(v, m, Child(p, i), f);
      }
    } else {
      LeafAlone(v, p, f);
    }
  }

  lemma LeafAlone(v: VmState, p: Pos, f: int)
    requires p in v.ent && p.level == 0
    ensures InTree(v, p, f) ==> f == Frame(v.ent[p])
  {
  }

  /** The child of `p` that `q` lies under. */
  lemma ChildOnPath(v: VmState, p: Pos, q: Pos) returns (i: nat)
    requires TreeOk(v) && q in v.ent && Under(q, p) && q != p && 1 <= p.level <= 3 && p.space.User?
    ensures i < ENTRIES && Child(p, i) in v.ent && Under(q, Child(p, i))
  {
    hide Shaped, Slot;
    UnderSplit(q, p);
    var c := Ancestor(q, p.level - 1);
    AncestorSpace(q, p.level - 1);
    AncestorMapped(v, q, p.level - 1);
    i := c.idx % ENTRIES;
    ParentChild(c);
  }

  /** Frame `f` is reached from the root table of process `p`. */
  ghost predicate ProcReaches(y: Sys, m: Mem, p: int, f: int) {
    UserRoot(p) in y.v.ent && Reaches(m, y.v.ent[UserRoot(p)], 3, f)
  }

  /** The frame is one of the kernel's own tables. */
  ghost predicate KernelTable(v: VmState, f: int) {
    exists q :: q in v.ent && q.space.Kernel? && Owned(q, v.ent[q]) && Frame(v.ent[q]) == f
  }

  ghost predicate IsFree(g: PmState, f: int) {
    exists k :: 0 <= k < |g.free| && f in g.free[k]
  }

  lemma ProcFrame(y: Sys, m: Mem, p: int, f: int) returns (q: Pos)
    requires TreeOk(y.v) && VmRep(m, y.v) && ProcReaches(y, m, p, f)
    ensures q in y.v.ent && q.space == User(p) && Frame(y.v.ent[q]) == f && Owned(q, y.v.ent[q])
  {
    hide Reaches, Under, Frame, VmRep, TreeOk, Owned;
    ReachesTree(y.v, m, UserRoot(p), f);
    q :| q in y.v.ent && Under(q, UserRoot(p)) && Frame(y.v.ent[q]) == f;
    UnderRoot(y.v, p, q);
    UserOwned(y.v, q);
  }

  /** What one process reaches no other process reaches, and it is a 4K block in use that is on no
      free list, is no kernel table and backs no slab. */
  lemma ProcessIsolated(L: Layout, y: Sys, m: Mem, p: int, f: int)
    requires Core(L, y.h, y.v) && VmRep(m, y.v) && ProcReaches(y, m, p, f)
    ensures forall p' :: p' != p ==> !ProcReaches(y, m, p', f)
    ensures IsUsed(y.h.g, f) && y.h.g.blocks[f] == 0 && !IsFree(y.h.g, f)
    ensures !KernelTable(y.v, f) && !IsPage(y.h.s, f) && f !in y.h.s.dropped
  {
    hide ProcReaches, Frame, VmRep, Shaped, Linked, Owned, HeapInv, PmInv;
    var q := ProcFrame(y, m, p, f);
    assert OwnsFrame(y.v, f);
    forall p' | p' != p ensures !ProcReaches(y, m, p', f) {
      if ProcReaches(y, m, p', f) { var q' := ProcFrame(y, m, p', f); }
    }
    FreeIsNotUsed(L, y.h.g, f);
  }

  lemma FreeIsNotUsed(L: Layout, g: PmState, f: int)
    requires PmInv(L, g) && IsUsed(g, f)
    ensures !IsFree(g, f)
  {
    forall k | 0 <= k < |g.free| ensures f !in g.free[k] { assert ListOk(g, k); }
  }

  /** A user address translates only into frames reached from the process linked in slot 2. */
  lemma UserTranslation(L: Layout, y: Sys, m: Mem, va: nat)
    requires Core(L, y.h, y.v) && VmRep(m, y.v) && va < VA_LIMIT && Idx(va, 3) == USER_SLOT
    ensures var t := Translate(m, y.v.pgdir, va); t.Some? ==>
      y.v.active.Some? && ProcReaches(y, m, y.v.active.value, Frame(t.value)) && t.value % PM_4K == va % PM_4K
  {
    hide HeapInv, PmInv, VmRep, Idx, Reaches, FramesOk, FramesForeign, Translate, HasPS;
    TranslateIsLookup(y.h.g, y.v, m, va);
    if Translate(m, y.v.pgdir, va).Some? {
      var p := y.v.active.value;
      var large, page := PathPos(y.v, va, 1), PathPos(y.v, va, 0);
      if large in y.v.ent { UserOwned(y.v, large); UserNoLarge(y.v, large); }
      UnderRoot(y.v, p, page);
      ReachesTree(y.v, m, UserRoot(p), Frame(y.v.ent[page]));
      PageOffset(y.v.ent[page], va);
    }
  }

  lemma UserNoLarge(v: VmState, q: Pos)
    requires TreeOk(v) && q in v.ent && q.space.User?
    ensures !HasPS(v.ent[q])
  {
    assert Shaped(v, q, v.ent[q]);
    UserNoPS(v.ent[q]);
  }

  /** Address spaces are apart: no frame is reached by two processes, what a process reaches is in use
      and is no kernel table or slab page, a user address of the linked process translates to no frame
      that another process reaches, and user mode reaches exactly what is mapped from the start of the
      user range on, nothing below it. Everything mapped may be written. */
  ghost predicate SpacesApart(y: Sys, m: Mem) {
    && (forall p, q, f :: ProcReaches(y, m, p, f) && ProcReaches(y, m, q, f) ==> p == q)
    && (forall p, f :: ProcReaches(y, m, p, f) ==>
          p in y.procs && IsUsed(y.h.g, f) && !IsFree(y.h.g, f) && !KernelTable(y.v, f) && !IsPage(y.h.s, f))
    && (forall va: nat, q :: va < VA_LIMIT && Idx(va, 3) == USER_SLOT && q in y.procs && y.v.active != Some(q) ==>
          var t := Translate(m, y.v.pgdir, va); t.Some? ==> !ProcReaches(y, m, q, Frame(t.value)))
    && (forall va: nat :: va < USER_ADDR_START ==> TranslateIf(m, y.v.pgdir, va, PG_US) == None)
    && (forall va: nat :: USER_ADDR_START <= va < VA_LIMIT ==>
          TranslateIf(m, y.v.pgdir, va, PG_US) == Translate(m, y.v.pgdir, va))
    && (forall va: nat :: va < VA_LIMIT ==> TranslateIf(m, y.v.pgdir, va, PG_RW) == Translate(m, y.v.pgdir, va))
  }

  lemma UserModeApart(L: Layout, y: Sys, m: Mem)
    requires Core(L, y.h, y.v) && VmRep(m, y.v)
    ensures forall va: nat :: va < USER_ADDR_START ==> TranslateIf(m, y.v.pgdir, va, PG_US) == None
    ensures forall va: nat :: USER_ADDR_START <= va < VA_LIMIT ==>
      TranslateIf(m, y.v.pgdir, va, PG_US) == Translate(m, y.v.pgdir, va)
    ensures forall va: nat :: va < VA_LIMIT ==> TranslateIf(m, y.v.pgdir, va, PG_RW) == Translate(m, y.v.pgdir, va)
  {
    hide HeapInv, PmInv, VmRep, Translate, TranslateIf, TreeOk, FramesOk, FramesForeign;
    forall va: nat | va < VA_LIMIT
      ensures TranslateIf(m, y.v.pgdir, va, PG_RW) == Translate(m, y.v.pgdir, va)
      ensures TranslateIf(m, y.v.pgdir, va, PG_US) ==
        if va >= USER_ADDR_START then Translate(m, y.v.pgdir, va) else None
    {
      RightsOfTables(y.h.g, y.v, m, va);
    }
  }

  lemma StateApart(L: Layout, y: Sys, m: Mem)
    requires SysInv(L, y) && VmRep(m, y.v)
    ensures SpacesApart(y, m)
  {
    hide SysInv, ProcReaches, IsUsed, IsFree, KernelTable, IsPage, VmRep, Translate, TranslateIf, Core, Idx, Frame;
    SysCore(L, y);
    UserModeApart(L, y, m);
    forall p, f | ProcReaches(y, m, p, f)
      ensures p in y.procs && IsUsed(y.h.g, f) && !IsFree(y.h.g, f) && !KernelTable(y.v, f) && !IsPage(y.h.s, f)
      ensures forall q :: ProcReaches(y, m, q, f) ==> p == q
    {
      ProcessIsolated(L, y, m, p, f);
      RootOwner(L, y, m, p, f);
    }
    forall va: nat, q | va < VA_LIMIT && Idx(va, 3) == USER_SLOT && q in y.procs && y.v.active != Some(q)
      ensures var t := Translate(m, y.v.pgdir, va); t.Some? ==> !ProcReaches(y, m, q, Frame(t.value))
    {
      UserTranslation(L, y, m, va);
      var t := Translate(m, y.v.pgdir, va);
      if t.Some? { ProcessIsolated(L, y, m, y.v.active.value, Frame(t.value)); }
    }
  }

  /** In every state of every run address spaces are apart. */
  lemma RunIsolated(L: Layout, y: Sys, steps: seq<Step>, y': Sys, m: Mem)
    requires SysInv(L, y) && SysRun(L, y, steps, y') && VmRep(m, y'.v)
    ensures SpacesApart(y', m)
  {
    hide SysInv, SysRun, SpacesApart, VmRep;
    RunKeeps(L, y, steps, y');
    StateApart(L, y', m);
  }

  lemma RootOwner(L: Layout, y: Sys, m: Mem, p: int, f: int)
    requires SysInv(L, y) && ProcReaches(y, m, p, f)
    ensures p in y.procs
  {
    hide Core, Reaches;
  }

  // ---- What a process reaches, through the steps of others ----

  /** The step is neither a page fault of process `p` nor the teardown of its tree. */
  ghost predicate Bystander(v: VmState, step: Step, p: int) {
    !(step.Touch? && v.active == Some(p)) && step != FreeTree(p)
  }

  ghost predicate SameFrame(m: Mem, m': Mem, f: int) {
    forall x :: f <= x < f + PM_4K ==> At(m', x) == At(m, x)
  }

  /** A process the step is not about reaches exactly the frames it reached, with every byte as it was. */
  ghost predicate BystandersKept(y: Sys, m: Mem, step: Step, y': Sys, m': Mem) {
    forall p, f :: Bystander(y.v, step, p) && UserRoot(p) in y.v.ent ==>
      && (ProcReaches(y', m', p, f) <==> ProcReaches(y, m, p, f))
      && (ProcReaches(y, m, p, f) ==> SameFrame(m, m', f))
  }

  /** The step maps nothing new for a process it is not about. */
  ghost predicate NothingGained(v: VmState, step: Step, v': VmState) {
    forall q :: q in v'.ent && q.space.User? && UserRoot(q.space.id) in v.ent && Bystander(v, step, q.space.id) ==>
      q in v.ent
  }

  lemma StepGains(L: Layout, y: Sys, step: Step)
    requires SysInv(L, y) && Allowed(y, step)
    ensures Perform(L, y, step).Done? ==> NothingGained(y.v, step, Perform(L, y, step).value.v)
  {
    hide SysInv, HeapInv, Core, StOk, Palloc, BootStep, TouchStep, FreeStep, HeapStep, Walkable, NothingGained, Mine;
    SysCore(L, y);
    match step {
      case Heap(c) => HeapGains(L, y, c);
      case Spawn => SpawnGains(L, y);
      case Boot => BootGains(L, y);
      case Touch(va) => FaultGains(L, y, va);
      case FreeTree(p) => FreeGains(L, y, p);
      case Switch(p) => SameEntries(y.v, step, SwitchStep(y, p).v);
      case MakeReady(p) => SameEntries(y.v, step, y.v);
      case Dispatch(next, prev) => SameEntries(y.v, step, SwitchStep(y, next).v);
    }
  }

  lemma SameEntries(v: VmState, step: Step, v': VmState)
    requires forall q :: q in v'.ent ==> q in v.ent
    ensures NothingGained(v, step, v')
  {
    hide Bystander;
  }

  lemma HeapGains(L: Layout, y: Sys, c: Call)
    requires HeapInv(L, y.h) && (c.Free? ==> IsClient(y.h.s, c.addr))
    ensures HeapStep(L, y, c).Done? ==> NothingGained(y.v, Step.Heap(c), HeapStep(L, y, c).value.v)
  {
    hide HeapInv, Next, Legal, NothingGained;
    SameEntries(y.v, Step.Heap(c), y.v);
  }

  lemma FreeGains(L: Layout, y: Sys, p: int)
    requires HeapInv(L, y.h) && UserRoot(p) in y.v.ent
    ensures NothingGained(y.v, FreeTree(p), FreeStep(L, y, p).v)
  {
    hide HeapInv, PushAll, PostOrder, Frames, NothingGained;
    SameEntries(y.v, FreeTree(p), FreeStep(L, y, p).v);
  }

  lemma SpawnGains(L: Layout, y: Sys)
    requires SysInv(L, y) && HeapInv(L, y.h)
    ensures Palloc(L, y).Done? ==> NothingGained(y.v, Spawn, Palloc(L, y).value.y.v)
  {
    hide SysInv, HeapInv, Palloc;
    PallocTree(L, y);
  }

  lemma FaultGains(L: Layout, y: Sys, va: nat)
    requires SysInv(L, y) && Core(L, y.h, y.v) && Walkable(y.v, va)
    ensures TouchStep(L, y, va).Done? ==> NothingGained(y.v, Touch(va), TouchStep(L, y, va).value.v)
  {
    hide SysInv, HeapInv, Core, TouchStep, Walkable, Idx;
    TouchGains(L, y, va);
  }

  lemma PallocTree(L: Layout, y: Sys)
    requires SysInv(L, y) && HeapInv(L, y.h)
    ensures var r := Palloc(L, y); r.Done? ==>
      && UserRoot(r.value.p) !in y.v.ent
      && (forall q :: q in r.value.y.v.ent <==> q in y.v.ent || q == UserRoot(r.value.p))
  {
    hide HeapInv, Core, Acquire, OnlyAdds, PallocRest, BlocksOk, PidsOk, OneRuns;
    PallocOk(L, y);
    if Palloc(L, y).Done? {
      var a := Acquire(L, y.h, PROC_CLASS).value;
      var b := Acquire(L, a.h, STACK_CLASS).value;
      RestTree(L, y, a, b);
    }
  }

  lemma RestTree(L: Layout, y: Sys, a: Grab, b: Grab)
    requires HeapInv(L, b.h)
    ensures var r := PallocRest(L, y, a, b); r.Done? ==>
      r.value.p == a.addr && forall q :: q in r.value.y.v.ent <==> q in y.v.ent || q == UserRoot(a.addr)
  {
    hide HeapInv, Acquire, OnlyAdds, AddRoot;
    if AddRoot(L, b.h, y.v, a.addr).Done? { AddRootIs(L, b.h, y.v, a.addr); }
  }

  lemma TouchGains(L: Layout, y: Sys, va: nat)
    requires SysInv(L, y) && Core(L, y.h, y.v) && Walkable(y.v, va)
    ensures var r := TouchStep(L, y, va); r.Done? ==>
      forall q :: q in r.value.v.ent && q !in y.v.ent ==> q.space == SpaceOf(y.v, va)
  {
    hide SysInv, HeapInv, FramesForeign, PmInv, VmInv, Walk, Idx, SameOutside, Walkable, Mapped, SpaceOf;
    WalkOk(L, St(y), va, false);
    if TouchStep(L, y, va).Done? {
      PathKeeps(St(y), Walk(L, St(y), va, false).value, va);
    }
  }

  lemma BootGains(L: Layout, y: Sys)
    requires SysInv(L, y) && HeapInv(L, y.h) && y.cur.None?
    ensures BootStep(L, y).Done? ==> NothingGained(y.v, Boot, BootStep(L, y).value.v)
  {
    hide SysInv, HeapInv, Core, Palloc, TouchStep, Walkable, SpaceOf;
    SysCore(L, y);
    PallocOk(L, y);
    PallocTree(L, y);
    if BootStep(L, y).Done? {
      var r := Palloc(L, y).value;
      var z := SwitchStep(r.y, r.p);
      SwitchOk(L, r.y, r.p);
      UserWalkable(z, USER_ADDR_START);
      TouchGains(L, z, USER_ADDR_START);
      UserStart(z.v);
    }
  }

  lemma BystanderFrame(L: Layout, y: Sys, m: Mem, step: Step, y': Sys, m': Mem, p: int, f: int)
    requires TreeOk(y.v) && VmRep(m, y.v) && TreeOk(y'.v) && VmRep(m', y'.v) && SpacesKept(y.v, m, step, y'.v, m')
    requires Bystander(y.v, step, p) && ProcReaches(y, m, p, f)
    ensures ProcReaches(y', m', p, f) && SameFrame(m, m', f)
  {
    hide Frame, VmRep, TreeOk, Owned, Reaches, Idx;
    var q := ProcFrame(y, m, p, f);
    assert FrameKept(y.v, m, y'.v, m', q) && FrameKept(y.v, m, y'.v, m', UserRoot(p));
    UnderRoot(y'.v, p, q);
    ReachesTree(y'.v, m', UserRoot(p), f);
  }

  lemma BystanderBack(L: Layout, y: Sys, m: Mem, step: Step, y': Sys, m': Mem, p: int, f: int)
    requires TreeOk(y.v) && VmRep(m, y.v) && TreeOk(y'.v) && VmRep(m', y'.v) && SpacesKept(y.v, m, step, y'.v, m')
    requires NothingGained(y.v, step, y'.v) && Bystander(y.v, step, p) && UserRoot(p) in y.v.ent
    requires ProcReaches(y', m', p, f)
    ensures ProcReaches(y, m, p, f)
  {
    hide Frame, VmRep, TreeOk, Owned, Reaches, Idx;
    var q := ProcFrame(y', m', p, f);
    assert q in y.v.ent && FrameKept(y.v, m, y'.v, m', q);
    UnderRoot(y.v, p, q);
    ReachesTree(y.v, m, UserRoot(p), f);
  }

  lemma BystandersFrom(L: Layout, y: Sys, m: Mem, step: Step, y': Sys, m': Mem)
    requires TreeOk(y.v) && VmRep(m, y.v) && TreeOk(y'.v) && VmRep(m', y'.v) && SpacesKept(y.v, m, step, y'.v, m')
    requires NothingGained(y.v, step, y'.v)
    ensures BystandersKept(y, m, step, y', m')
  {
    hide ProcReaches, SameFrame, Bystander, SpacesKept, VmRep, TreeOk, NothingGained;
    forall p, f | Bystander(y.v, step, p) && UserRoot(p) in y.v.ent
      ensures ProcReaches(y', m', p, f) <==> ProcReaches(y, m, p, f)
      ensures ProcReaches(y, m, p, f) ==> SameFrame(m, m', f)
    {
      if ProcReaches(y, m, p, f) { BystanderFrame(L, y, m, step, y', m', p, f); }
      if ProcReaches(y', m', p, f) { BystanderBack(L, y, m, step, y', m', p, f); }
    }
  }

  /** Whatever the step, a process it is not about reaches exactly the frames it reached, byte for byte. */
  lemma BystandersSeeNothing(L: Layout, y: Sys, m: Mem, step: Step, y': Sys, m': Mem)
    requires SysInv(L, y) && VmRep(m, y.v) && SysInv(L, y') && VmRep(m', y'.v) && SpacesKept(y.v, m, step, y'.v, m')
    requires Allowed(y, step) && Perform(L, y, step) == Done(y')
    ensures BystandersKept(y, m, step, y', m')
  {
    hide SysInv, SpacesKept, VmRep, TreeOk, FramesOk, Core, Perform, NothingGained, Allowed, BystandersKept;
    SysCore(L, y);
    SysCore(L, y');
    TreeHere(L, y);
    TreeHere(L, y');
    StepGains(L, y, step);
    BystandersFrom(L, y, m, step, y', m');
  }

  lemma TreeHere(L: Layout, y: Sys)
    requires Core(L, y.h, y.v)
    ensures TreeOk(y.v)
  {
    hide HeapInv, PmInv, FramesForeign, TreeOk;
  }

  // ---- READY is only ever assigned by switch_proc itself ----

  ghost predicate NoneReady(y: Sys) {
    forall p :: p in y.procs ==> y.procs[p].stat != READY
  }

  lemma StepNoneReady(L: Layout, y: Sys, step: Step)
    requires SysInv(L, y) && NoneReady(y) && Allowed(y, step) && !step.MakeReady?
    ensures Perform(L, y, step).Done? ==> !step.Dispatch? && NoneReady(Perform(L, y, step).value)
  {
    hide SysInv, HeapInv, Core, Palloc, BootStep, TouchStep, FreeStep, HeapStep;
    SysCore(L, y);
    match step {
      case Heap(c) => HeapProcs(L, y, c);
      case Spawn => PallocNoneReady(L, y);
      case Boot => if BootStep(L, y).Done? { BootNoneReady(L, y); }
      case Touch(va) => TouchProcs(L, y, va);
      case FreeTree(p) => FreeProcs(L, y, p);
      case _ =>
    }
  }

  lemma HeapProcs(L: Layout, y: Sys, c: Call)
    requires HeapInv(L, y.h) && (c.Free? ==> IsClient(y.h.s, c.addr))
    ensures HeapStep(L, y, c).Done? ==> HeapStep(L, y, c).value.procs == y.procs
  {
    hide HeapInv, Next, Legal;
  }

  lemma FreeProcs(L: Layout, y: Sys, p: int)
    requires HeapInv(L, y.h) && UserRoot(p) in y.v.ent
    ensures FreeStep(L, y, p).procs == y.procs
  {
    hide HeapInv, FreeUvm;
  }

  lemma PallocNoneReady(L: Layout, y: Sys)
    requires HeapInv(L, y.h) && NoneReady(y)
    ensures Palloc(L, y).Done? ==> NoneReady(Palloc(L, y).value.y)
  {
    hide HeapInv, Acquire, AddRoot, OnlyAdds;
  }

  lemma BootNoneReady(L: Layout, y: Sys)
    requires SysInv(L, y) && NoneReady(y) && BootStep(L, y).Done?
    ensures NoneReady(BootStep(L, y).value)
  {
    hide SysInv, HeapInv, Core, Palloc, TouchStep;
    SysCore(L, y);
    PallocOk(L, y);
    PallocNoneReady(L, y);
    var r := Palloc(L, y).value;
    SwitchOk(L, r.y, r.p);
    TouchProcs(L, SwitchStep(r.y, r.p), USER_ADDR_START);
  }

  /** As the code stands nothing makes a new process READY, so from a state with no READY process
      every run that completes has made no successful switch: `switch_proc` always panics. */
  lemma {:induction false} NoSwitchWithoutReady(L: Layout, y: Sys, steps: seq<Step>, y': Sys)
    requires SysInv(L, y) && NoneReady(y) && SysRun(L, y, steps, y') && forall s :: s in steps ==> !s.MakeReady?
    ensures NoneReady(y') && forall s :: s in steps ==> !s.Dispatch?
    decreases |steps|
  {
    hide SysInv, Perform, Allowed, NoneReady;
    if steps != [] {
      StepNoneReady(L, y, steps[0]);
      PerformOk(L, y, steps[0]);
      NoSwitchWithoutReady(L, Perform(L, y, steps[0]).value, steps[1..], y');
    }
  }
}
