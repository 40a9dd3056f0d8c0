/** The contents of user pages and process tables: which bytes of them a kernel operation can reach. */
module Contents {
  import opened Bits
  import opened Memory
  import opened Blocks
  import opened Slabs
  import opened Heap
  import opened SlabMem
  import opened SlabSteps
  import opened PageTables
  import opened PageWalk
  import opened PageFree
  import opened PageMem
  import opened Vm
  import opened Procs
  import opened ProcMem
  import opened Runs

  /** The cell of the PML4 that links the process. */
  ghost function SlotCell(v: VmState): int {
    v.pgdir + 8 * USER_SLOT
  }

  /** Position `q` names the same frame as before, and no byte of that frame has changed. */
  ghost predicate FrameKept(v: VmState, m: Mem, v': VmState, m': Mem, q: Pos)
    requires q in v.ent
  {
    && q in v'.ent && v'.ent[q] == v.ent[q]
    && forall x :: Frame(v.ent[q]) <= x < Frame(v.ent[q]) + PM_4K ==> At(m', x) == At(m, x)
  }

  /** The steps that reach a frame of a process: the teardown of its tree reaches all of them, and a
      page fault of the process its tables, but none of its pages. */
  ghost predicate Affects(v: VmState, step: Step, q: Pos) {
    match step
    case FreeTree(p) => q.space == User(p)
    case Touch(va) => q.level > 0 && q.space == SpaceOf(v, va)
    case _ => false
  }

  /** No other frame of any process is changed by the step. */
  ghost predicate SpacesKept(v: VmState, m: Mem, step: Step, v': VmState, m': Mem) {
    forall q :: q in v.ent && q.space.User? && !Affects(v, step, q) ==> FrameKept(v, m, v', m', q)
  }

  /** Through a whole run no page of a process changes, unless the run tears its tree down. */
  ghost predicate PagesKept(v: VmState, m: Mem, steps: seq<Step>, v': VmState, m': Mem) {
    forall q :: q in v.ent && q.space.User? && q.level == 0 && FreeTree(q.space.id) !in steps ==>
      FrameKept(v, m, v', m', q)
  }

  lemma NoStepPages(v: VmState, m: Mem)
    ensures PagesKept(v, m, [], v, m)
  {
  }

  lemma StepThenPages(v: VmState, m: Mem, v1: VmState, m1: Mem, steps: seq<Step>, v': VmState, m': Mem)
    requires steps != [] && SpacesKept(v, m, steps[0], v1, m1) && PagesKept(v1, m1, steps[1..], v', m')
    ensures PagesKept(v, m, steps, v', m')
  {
    forall q | q in v.ent && q.space.User? && q.level == 0 && FreeTree(q.space.id) !in steps
      ensures FrameKept(v, m, v', m', q)
    {
      assert steps[0] in steps && FrameKept(v, m, v1, m1, q);
      assert FrameKept(v1, m1, v', m', q);
    }
  }

  ghost predicate ForeignKept(h: HeapState, m: Mem, m': Mem, e: set<int>) {
    forall b, x :: Foreign(h, b) && b <= x < b + Size(h.g.blocks[b]) && x !in e ==> At(m', x) == At(m, x)
  }

  /** None of the cells in `e` lies in the frame of `q`. */
  ghost predicate Clear(v: VmState, q: Pos, e: set<int>)
    requires q in v.ent
  {
    forall x :: Frame(v.ent[q]) <= x < Frame(v.ent[q]) + PM_4K ==> x !in e
  }

  lemma UserFrame(L: Layout, h: HeapState, v: VmState, q: Pos)
    requires Core(L, h, v) && q in v.ent && q.space.User?
    ensures Foreign(h, Frame(v.ent[q])) && h.g.blocks[Frame(v.ent[q])] == 0 && Owned(q, v.ent[q])
    ensures OwnsFrame(v, Frame(v.ent[q]))
  {
    hide HeapInv, Shaped, Linked, IsTable, Owned, Frame, Foreign, IsUsed;
    CoreSt(L, h, v);
    UserOwned(v, q);
  }

  lemma OffCells(L: Layout, h: HeapState, v: VmState, m: Mem, v': VmState, m': Mem, e: set<int>, q: Pos)
    requires Core(L, h, v) && ForeignKept(h, m, m', e) && q in v.ent && q.space.User? && Clear(v, q, e)
    requires q in v'.ent && v'.ent[q] == v.ent[q]
    ensures FrameKept(v, m, v', m', q)
  {
    hide Core, Frame, Foreign, Owned, OwnsFrame;
    UserFrame(L, h, v, q);
  }

  /** A step that touches no block outside the heap. */
  lemma NothingReached(L: Layout, h: HeapState, v: VmState, m: Mem, step: Step, v': VmState, m': Mem)
    requires Core(L, h, v) && ForeignKept(h, m, m', {}) && forall q :: q in v.ent ==>
      q in v'.ent && v'.ent[q] == v.ent[q]
    ensures SpacesKept(v, m, step, v', m')
  {
    hide Core, ForeignKept, FrameKept, Affects;
    forall q | q in v.ent && q.space.User? ensures FrameKept(v, m, v', m', q) {
      OffCells(L, h, v, m, v', m', {}, q);
    }
  }

  lemma OldForeign(L: Layout, h: HeapState, m: Mem, m': Mem, e: set<int>)
    requires OldKept(L, h, m, m', e)
    ensures ForeignKept(h, m, m', e)
  {
    hide ClientOf, Foreign, OtherKernelData;
  }

  lemma ForeignTrans(h: HeapState, m: Mem, m1: Mem, m2: Mem, e: set<int>)
    requires ForeignKept(h, m, m1, {}) && ForeignKept(h, m1, m2, e)
    ensures ForeignKept(h, m, m2, e)
  {
    hide Foreign;
  }

  /** The frame of another position of the tree. */
  lemma FramesDiffer(L: Layout, st: VmSt, p: Pos, q: Pos, x: int)
    requires StOk(L, st) && p in st.v.ent && q in st.v.ent && Owned(p, st.v.ent[p]) && Owned(q, st.v.ent[q]) && p != q
    requires Frame(st.v.ent[p]) <= x < Frame(st.v.ent[p]) + PM_4K
    ensures !(Frame(st.v.ent[q]) <= x < Frame(st.v.ent[q]) + PM_4K)
  {
    hide Frame, TreeOk, Owned, IsUsed, PmInv;
    StParts(L, st);
    BlocksApart(L, st.g, Frame(st.v.ent[p]), Frame(st.v.ent[q]));
  }

  lemma SlotClear(L: Layout, h: HeapState, v: VmState, q: Pos)
    requires Core(L, h, v) && q in v.ent && q.space.User?
    ensures Clear(v, q, {SlotCell(v)})
  {
    hide Core, Shaped, HasPS, PmInv, FramesOk, Frame, Owned, OwnsFrame, Foreign;
    CoreSt(L, h, v);
    UserFrame(L, h, v, q);
    var st := VmSt(h.g, v);
    StParts(L, st);
    RootTable(v);
    KernelRoot(v);
    FramesDiffer(L, st, KROOT, q, SlotCell(v));
  }

  lemma KernelRoot(v: VmState)
    requires TreeOk(v)
    ensures KROOT in v.ent && Owned(KROOT, v.ent[KROOT]) && Frame(v.ent[KROOT]) == v.pgdir
  {
  }

  /** A walk links what it maps in tables on its path, and in no page. */
  lemma LinksClear(L: Layout, st: VmSt, st': VmSt, va: nat, q: Pos)
    requires StOk(L, st') && OnPath(st, st', va) && q in st.v.ent && q.space.User? && Owned(q, st'.v.ent[q])
    requires q.level == 0 || q.space != SpaceOf(st.v, va)
    ensures Clear(st.v, q, NewLinks(st.v, st'.v))
  {
    hide StOk, OnPath, Owned, Frame, IsUsed, OwnsFrame;
    PathKeeps(st, st', va);
    forall x | Frame(st.v.ent[q]) <= x < Frame(st.v.ent[q]) + PM_4K ensures x !in NewLinks(st.v, st'.v) {
      if x in NewLinks(st.v, st'.v) {
        var p :| p in st'.v.ent && p !in st.v.ent && Parent(p) in st'.v.ent && LinkCell(st'.v, p) == x;
        LinkInFrame(L, st', p);
        TableOwned(Parent(p), st'.v.ent[Parent(p)]);
        assert Parent(p) != q;
        FramesDiffer(L, st', Parent(p), q, x);
      }
    }
  }

  lemma TableOwned(p: Pos, w: int)
    requires IsTable(p, w)
    ensures Owned(p, w)
  {
  }

  lemma PathKeeps(st: VmSt, st': VmSt, va: nat)
    requires OnPath(st, st', va)
    ensures forall q :: q in st.v.ent ==> q in st'.v.ent && st'.v.ent[q] == st.v.ent[q]
    ensures forall p :: p in st'.v.ent && p !in st.v.ent ==> p.space == SpaceOf(st.v, va)
  {
    hide SameOutside, IsUsed, Idx, SpaceOf;
  }

  /** A page fault changes no byte of any page of any process, its own included, and no byte of a table
      of any process but its own. */
  lemma FaultSpares(L: Layout, h: HeapState, v: VmState, m: Mem, st: VmSt, m': Mem, va: nat)
    requires Core(L, h, v) && StOk(L, st) && OnPath(VmSt(h.g, v), st, va)
    requires ForeignKept(h, m, m', NewLinks(v, st.v))
    ensures SpacesKept(v, m, Touch(va), st.v, m')
  {
    hide Core, ForeignKept, FrameKept, StOk, NewLinks, Clear, OnPath, Owned, SpaceOf;
    PathKeeps(VmSt(h.g, v), st, va);
    forall q | q in v.ent && q.space.User? && !Affects(v, Touch(va), q) ensures FrameKept(v, m, st.v, m', q) {
      UserFrame(L, h, v, q);
      LinksClear(L, VmSt(h.g, v), st, va, q);
      OffCells(L, h, v, m, st.v, m', NewLinks(v, st.v), q);
    }
  }

  /** `switch_uvm` changes no byte of any frame of any process. */
  lemma SwitchSpares(L: Layout, h: HeapState, v: VmState, m: Mem, step: Step, v': VmState, m': Mem)
    requires Core(L, h, v) && ForeignKept(h, m, m', {SlotCell(v)}) && v'.ent == v.ent
    ensures SpacesKept(v, m, step, v', m')
  {
    hide Core, ForeignKept, FrameKept, Clear, Affects;
    forall q | q in v.ent && q.space.User? ensures FrameKept(v, m, v', m', q) {
      SlotClear(L, h, v, q);
      OffCells(L, h, v, m, v', m', {SlotCell(v)}, q);
    }
  }

  /** `uinit` changes no byte of a frame of an older process. */
  lemma BootSpares(L: Layout, h: HeapState, v: VmState, m: Mem, st1: VmSt, st: VmSt, m': Mem, p: int)
    requires Core(L, h, v) && UserRoot(p) in st1.v.ent
    requires st1.v == Add(v, UserRoot(p), st1.v.ent[UserRoot(p)]).(active := Some(p))
    requires (forall q :: q in v.ent ==> q.space != User(p)) && StOk(L, st) && OnPath(st1, st, USER_ADDR_START)
    requires ForeignKept(h, m, m', {SlotCell(v)} + NewLinks(st1.v, st.v))
    ensures SpacesKept(v, m, Boot, st.v, m')
  {
    hide Core, ForeignKept, FrameKept, StOk, NewLinks, OnPath, Owned;
    PathKeeps(st1, st, USER_ADDR_START);
    UserStart(st1.v);
    forall q | q in v.ent && q.space.User? ensures FrameKept(v, m, st.v, m', q) {
      UserFrame(L, h, v, q);
      SlotClear(L, h, v, q);
      LinksClear(L, st1, st, USER_ADDR_START, q);
      OffCells(L, h, v, m, st.v, m', {SlotCell(v)} + NewLinks(st1.v, st.v), q);
    }
  }

  lemma UserStart(v: VmState)
    requires v.active.Some?
    ensures SpaceOf(v, USER_ADDR_START) == User(v.active.value)
  {
    hide Idx;
    UserStartIdx();
  }

  /** `free_uvm` changes no byte of a frame of another process. */
  lemma FreeSpares(L: Layout, h: HeapState, v: VmState, m: Mem, m': Mem, p: int, c: int)
    requires Core(L, h, v) && ForeignKept(h, m, m', {c})
    requires forall b :: Foreign(h, b) ==> !(b <= c < b + Size(h.g.blocks[b]))
    ensures forall q :: q in v.ent && q.space.User? ==> FrameKept(v, m, v, m', q)
  {
    hide Core, ForeignKept, FrameKept, Foreign, Frame, Owned, OwnsFrame;
    forall q | q in v.ent && q.space.User? ensures FrameKept(v, m, v, m', q) {
      UserFrame(L, h, v, q);
      OffCells(L, h, v, m, v, m', {c}, q);
    }
  }
}
