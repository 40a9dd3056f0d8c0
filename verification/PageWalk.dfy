/** `walk_pgdir` as a deterministic transition that fills in the path of one address, and what it
    keeps: the tree invariant, every other translation, everybody else's blocks. */
module PageWalk {
  import opened Bits
  import opened Memory
  import opened Blocks
  import opened PageTables

  datatype VmSt = VmSt(g: PmState, v: VmState)

  ghost predicate StOk(L: Layout, st: VmSt) {
    PmInv(L, st.g) && VmInv(st.g, st.v)
  }

  /** A block in use that is no frame of any tree. */
  ghost predicate Outside(st: VmSt, b: int) {
    IsUsed(st.g, b) && !OwnsFrame(st.v, b)
  }

  ghost predicate SameOutside(st: VmSt, st': VmSt) {
    && (forall b :: Outside(st', b) <==> Outside(st, b))
    && (forall b :: Outside(st, b) ==> st'.g.blocks[b] == st.g.blocks[b])
  }

  ghost function Add(v: VmState, p: Pos, w: int): VmState {
    v.(ent := v.ent[p := w])
  }

  // ---- Words ----

  function Flag(va: nat): int {
    if va >= USER_ADDR_START then PG_P + PG_RW + PG_US else PG_P + PG_RW
  }

  lemma PlainWord(f: int, flag: int)
    requires f % PM_4K == 0 && flag in {3, 7}
    ensures Frame(f + flag) == f && Present(f + flag) && !HasPS(f + flag) && (f + flag) % PM_4K == flag
    ensures (f + flag) % 8 == flag
  {
    var q := f / 4096;
    ModUnique(f + flag, 4096, q, flag);
    ModUnique(f + flag, 128, 32 * q, flag);
    ModUnique(f + flag, 8, 512 * q, flag);
    ModUnique(f + flag, 2, 2048 * q + flag / 2, 1);
    EvenTimes(16 * q);
  }

  lemma EvenTimes(x: int)
    ensures (2 * x) % 2 == 0
  {
  }

  function LargeWord(va: nat): int {
    va - va % LARGE + PG_P + PG_RW + PG_PS
  }

  function SmallWord(va: nat): int {
    va - va % PM_4K + PG_P + PG_RW
  }

  lemma LargeWordFacts(va: nat)
    ensures Present(LargeWord(va)) && HasPS(LargeWord(va)) && LargeWord(va) - LargeWord(va) % LARGE == va - va % LARGE
    ensures LargeWord(va) % 8 == PG_P + PG_RW
  {
    var q, w := va / LARGE, LargeWord(va);
    assert w == q * LARGE + 131;
    ModUnique(w, LARGE, q, 131);
    ModUnique(w, 128, 16384 * q + 1, 3);
    hide Present, HasPS;
    ModUnique(w, 8, 0x4_0000 * q + 16, 3);
    ModUnique(w, 2, 0x10_0000 * q + 65, 1);
    EvenTimes(8192 * q);
  }

  // ---- Adding one entry ----

  lemma StParts(L: Layout, st: VmSt)
    requires StOk(L, st)
    ensures PmInv(L, st.g) && PmCore(L, st.g) && VmInv(st.g, st.v) && TreeOk(st.v) && FramesOk(st.g, st.v)
    ensures |st.g.free| == 3
  {
  }

  lemma FrameAligned(w: int)
    ensures Frame(w) % PM_4K == 0
  {
  }

  lemma CellApart(f: int, i: nat, f': int, i': nat)
    requires f % PM_4K == 0 && f' % PM_4K == 0 && i < ENTRIES && i' < ENTRIES && f + 8 * i == f' + 8 * i'
    ensures f == f' && i == i'
  {
  }

  lemma FramesMono(g: PmState, g': PmState, v: VmState)
    requires FramesOk(g, v)
    requires forall b :: IsUsed(g, b) ==> IsUsed(g', b) && g'.blocks[b] == g.blocks[b]
    ensures FramesOk(g', v)
  {
  }

  lemma AddInv(g: PmState, v: VmState, p: Pos, w: int)
    requires VmInv(g, v) && p !in v.ent && Shaped(v, p, w) && (!IsRoot(p) ==> Linked(v, p)) && p.level <= 3
    requires Owned(p, w) ==> IsUsed(g, Frame(w)) && g.blocks[Frame(w)] == 0 && !OwnsFrame(v, Frame(w))
    ensures VmInv(g, Add(v, p, w))
  {
    AddTree(v, p, w);
    AddFrames(g, v, p, w);
  }

  lemma AddTree(v: VmState, p: Pos, w: int)
    requires TreeOk(v) && p !in v.ent && Shaped(v, p, w) && (!IsRoot(p) ==> Linked(v, p)) && p.level <= 3
    ensures TreeOk(Add(v, p, w))
  {
    var v' := Add(v, p, w);
    forall q | q in v'.ent ensures Shaped(v', q, v'.ent[q]) && (!IsRoot(q) ==> Linked(v', q)) {
      if q != p { assert Shaped(v, q, v.ent[q]) && (!IsRoot(q) ==> Linked(v, q)); }
      assert !IsRoot(q) ==> Linked(v, q);
    }
  }

  lemma AddFrames(g: PmState, v: VmState, p: Pos, w: int)
    requires FramesOk(g, v) && p !in v.ent
    requires Owned(p, w) ==> IsUsed(g, Frame(w)) && g.blocks[Frame(w)] == 0 && !OwnsFrame(v, Frame(w))
    ensures FramesOk(g, Add(v, p, w))
  {
    hide Frame;
    forall q | q in v.ent && Owned(q, v.ent[q]) && Owned(p, w) ensures Frame(v.ent[q]) != Frame(w) {
      assert OwnsFrame(v, Frame(v.ent[q]));
    }
  }

  lemma AddOwns(v: VmState, p: Pos, w: int, f: int)
    requires p !in v.ent
    ensures OwnsFrame(Add(v, p, w), f) <==> OwnsFrame(v, f) || (Owned(p, w) && Frame(w) == f)
  {
    var v' := Add(v, p, w);
    if OwnsFrame(v, f) {
      var q :| q in v.ent && Owned(q, v.ent[q]) && Frame(v.ent[q]) == f;
      assert q in v'.ent && v'.ent[q] == v.ent[q];
    }
    if Owned(p, w) && Frame(w) == f { assert p in v'.ent && v'.ent[p] == w; }
  }

  /** The table words after one entry has been filled in. */
  lemma AddWords(v: VmState, p: Pos, w: int, q: Pos, i: nat)
    requires TreeOk(v) && p !in v.ent && !IsRoot(p) && Linked(v, p) && Shaped(v, p, w)
    requires q in v.ent && q.level >= 1 && i < ENTRIES
    ensures EntryWord(Add(v, p, w), q, i) == if q == Parent(p) && i == p.idx % ENTRIES then w else EntryWord(v, q, i)
    ensures EntryWord(v, Parent(p), p.idx % ENTRIES) == 0
  {
    ChildParent(q, i);
    ParentChild(p);
    SlotTwo(p);
    if Child(q, i) == p { assert q == Parent(p); }
  }

  lemma SlotTwo(p: Pos)
    ensures p.level == 3 && p.space.Kernel? && Slot(p) != USER_SLOT ==> p.idx != USER_SLOT
    ensures Parent(p) == KROOT ==> p.level == 3 && p.space.Kernel? && p.idx < ENTRIES && p.idx % ENTRIES == p.idx
  {
  }

  lemma AddRep(g: PmState, v: VmState, m: Mem, m': Mem, p: Pos, w: int)
    requires VmInv(g, v) && VmRep(m, v) && VmInv(g, Add(v, p, w)) && p !in v.ent && !IsRoot(p) && Linked(v, p)
    requires IsTable(p, w) ==> ZeroRange(m, Frame(w), PM_4K)
    requires m' == Put(m, Frame(v.ent[Parent(p)]) + 8 * (p.idx % ENTRIES), w)
    ensures VmRep(m', Add(v, p, w))
  {
    var v' := Add(v, p, w);
    assert Shaped(v', p, v'.ent[p]);
    forall q, i: nat | q in v'.ent && IsTable(q, v'.ent[q]) && i < ENTRIES ensures EntryOk(m', v', q, i) {
      AddEntryOk(g, v, m, m', p, w, q, i);
    }
  }

  lemma AddEntryOk(g: PmState, v: VmState, m: Mem, m': Mem, p: Pos, w: int, q: Pos, i: nat)
    requires VmInv(g, v) && VmRep(m, v) && VmInv(g, Add(v, p, w)) && p !in v.ent && !IsRoot(p) && p.level <= 3
    requires Linked(v, p) && Shaped(v, p, w)
    requires IsTable(p, w) ==> ZeroRange(m, Frame(w), PM_4K)
    requires m' == Put(m, Frame(v.ent[Parent(p)]) + 8 * (p.idx % ENTRIES), w)
    requires var v' := Add(v, p, w); q in v'.ent && IsTable(q, v'.ent[q]) && i < ENTRIES
    ensures EntryOk(m', Add(v, p, w), q, i)
  {
    hide Frame, FramesOk, TreeOk, EntryWord, Slot, Present, HasPS, Linked, IsRoot;
    var v', up := Add(v, p, w), Parent(p);
    LinkedUp(v, p);
    FrameAligned(v.ent[up]);
    FrameAligned(v'.ent[q]);
    FramesDiffer(g, v', q, up);
    if Frame(v'.ent[q]) + 8 * i == Frame(v.ent[up]) + 8 * (p.idx % ENTRIES) {
      CellApart(Frame(v'.ent[q]), i, Frame(v.ent[up]), p.idx % ENTRIES);
    }
    if q == p {
      NoChildYet(v, p, w, i);
      NotItsParent(p);
    } else {
      AddWords(v, p, w, q, i);
      assert EntryOk(m, v, q, i);
    }
  }

  lemma LinkedUp(v: VmState, p: Pos)
    requires Linked(v, p)
    ensures Parent(p) in v.ent && IsTable(Parent(p), v.ent[Parent(p)])
  {
  }

  lemma NotItsParent(p: Pos)
    ensures Parent(p) != p
  {
  }

  lemma FramesDiffer(g: PmState, v: VmState, p: Pos, q: Pos)
    requires FramesOk(g, v) && p in v.ent && q in v.ent && IsTable(p, v.ent[p]) && IsTable(q, v.ent[q])
    ensures Frame(v.ent[p]) == Frame(v.ent[q]) ==> p == q
  {
  }

  lemma NoChildYet(v: VmState, p: Pos, w: int, i: nat)
    requires TreeOk(v) && p !in v.ent && 1 <= p.level <= 3 && i < ENTRIES
    ensures EntryWord(Add(v, p, w), p, i) == 0
  {
    ChildParent(p, i);
    var c := Child(p, i);
    assert !IsRoot(c);
    assert c in v.ent ==> Linked(v, c);
  }

  /** A step of the physical allocator leaves the tables as they are. */
  lemma PmStepTables(L: Layout, g: PmState, v: VmState, m: Mem, m': Mem)
    requires PmCore(L, g) && FramesOk(g, v) && VmRep(m, v) && PmFrame(L, g, m, m')
    ensures VmRep(m', v)
  {
    forall p, i: nat | p in v.ent && IsTable(p, v.ent[p]) && i < ENTRIES ensures EntryOk(m', v, p, i) {
      assert EntryOk(m, v, p, i);
      assert IsUsed(g, Frame(v.ent[p]));
    }
  }

  // ---- The walk ----

  /** Backs position `p` with a fresh frame unless it is mapped already. */
  ghost function Ensure(st: VmSt, p: Pos, flag: int): Outcome<VmSt>
    requires |st.g.free| == 3
  {
    if p in st.v.ent then Done(st)
    else if CanAlloc(st.g, 0) then Done(VmSt(Alloc(st.g, 0), Add(st.v, p, AllocAddr(st.g, 0) + flag)))
    else Panic
  }

  ghost predicate CanExtend(v: VmState, p: Pos, flag: int) {
    && p.level <= 3 && !IsRoot(p) && flag in {3, 7} && flag == RightsAt(Slot(p))
    && (p.space.User? <==> Slot(p) == USER_SLOT)
    && Linked(v, p)
  }

  /** `st'` maps everything `st` maps, the same way, and besides at most position `p`. */
  ghost predicate Extends(st: VmSt, st': VmSt, p: Pos) {
    && st'.v.pgdir == st.v.pgdir && st'.v.active == st.v.active
    && (forall q :: q in st.v.ent ==> q in st'.v.ent && st'.v.ent[q] == st.v.ent[q])
    && (forall q :: q in st'.v.ent && q != p ==> q in st.v.ent)
    && SameOutside(st, st') && st'.g.lo == st.g.lo && st'.g.hi == st.g.hi
    && (forall b :: IsUsed(st.g, b) ==> IsUsed(st'.g, b) && st'.g.blocks[b] == st.g.blocks[b])
  }

  lemma ExtendsSelf(st: VmSt, p: Pos)
    ensures Extends(st, st, p)
  {
  }

  lemma FreshFrame(L: Layout, st: VmSt)
    requires StOk(L, st) && CanAlloc(st.g, 0)
    ensures var f, g := AllocAddr(st.g, 0), Alloc(st.g, 0);
      && PmInv(L, g) && VmInv(g, st.v) && IsUsed(g, f) && g.blocks[f] == 0 && !OwnsFrame(st.v, f)
      && f % PM_4K == 0 && 0 < f && f + 7 < WORD_LIMIT && g.lo == st.g.lo && g.hi == st.g.hi
      && (forall b :: IsUsed(g, b) <==> IsUsed(st.g, b) || b == f) && !IsUsed(st.g, f)
      && (forall b :: IsUsed(st.g, b) ==> b in g.blocks && g.blocks[b] == st.g.blocks[b])
  {
    AllocInv(L, st.g, 0);
    FramesMono(st.g, Alloc(st.g, 0), st.v);
  }

  lemma EnsureOk(L: Layout, st: VmSt, p: Pos, flag: int)
    requires StOk(L, st) && |st.g.free| == 3 && CanExtend(st.v, p, flag) && (p.level == 0 ==> Owned(p, flag))
    requires flag in {3, 7}
    ensures var r := Ensure(st, p, flag); r.Done? ==>
      && StOk(L, r.value) && |r.value.g.free| == 3 && p in r.value.v.ent && Extends(st, r.value, p)
      && (p !in st.v.ent ==> !HasPS(r.value.v.ent[p]))
  {
    hide PmInv, VmInv, IsUsed, OwnsFrame, Owned, Shaped, Linked, Slot, Frame, HasPS, Present, Alloc, AllocAddr;
    hide CanAlloc, Extends, CanExtend;
    if p in st.v.ent {
      ExtendsSelf(st, p);
    } else if CanAlloc(st.g, 0) {
      FreshFrame(L, st);
      var f, g := AllocAddr(st.g, 0), Alloc(st.g, 0);
      PlainWord(f, flag);
      PlainShape(st.v, p, flag, f);
      AddInv(g, st.v, p, f + flag);
      AddExtends(st, g, p, f + flag, f);
      FreeLen(L, g);
    }
  }

  lemma PlainShape(v: VmState, p: Pos, flag: int, f: int)
    requires CanExtend(v, p, flag) && (p.level == 0 ==> Owned(p, flag)) && 0 <= f && f + flag < WORD_LIMIT
    requires Present(f + flag) && !HasPS(f + flag) && (f + flag) % PM_4K == flag && (f + flag) % 8 == flag
    ensures Shaped(v, p, f + flag) && Owned(p, f + flag) && Linked(v, p) && p.level <= 3 && !IsRoot(p)
  {
    hide Present, HasPS, Slot;
  }

  lemma AddExtends(st: VmSt, g: PmState, p: Pos, w: int, f: int)
    requires p !in st.v.ent && Owned(p, w) && Frame(w) == f && g.lo == st.g.lo && g.hi == st.g.hi
    requires forall b :: IsUsed(g, b) <==> IsUsed(st.g, b) || b == f
    requires !IsUsed(st.g, f) && forall b :: IsUsed(st.g, b) ==> b in g.blocks && g.blocks[b] == st.g.blocks[b]
    ensures Extends(st, VmSt(g, Add(st.v, p, w)), p)
  {
    forall b ensures OwnsFrame(Add(st.v, p, w), b) <==> OwnsFrame(st.v, b) || b == f { AddOwns(st.v, p, w, b); }
    hide OwnsFrame, Owned, Frame;
  }

  /** Filling in a direct mapping, which takes no frame. */
  lemma DirectOk(L: Layout, st: VmSt, p: Pos, w: int)
    requires StOk(L, st) && p !in st.v.ent && CanExtend(st.v, p, 3) && !Owned(p, w) && p.space.Kernel? && p.level <= 1
    requires 0 <= w < WORD_LIMIT && Present(w) && w % 8 == PG_P + PG_RW && (p.level == 0 ==> !HasPS(w))
    ensures StOk(L, VmSt(st.g, Add(st.v, p, w))) && Extends(st, VmSt(st.g, Add(st.v, p, w)), p)
  {
    hide PmInv, VmInv, IsUsed, OwnsFrame, Owned, Shaped, Linked, Slot, Frame, HasPS, Present, CanExtend, Extends;
    DirectShape(st.v, p, w);
    AddInv(st.g, st.v, p, w);
    forall b ensures OwnsFrame(Add(st.v, p, w), b) <==> OwnsFrame(st.v, b) { AddOwns(st.v, p, w, b); }
    DirectExtends(st, p, w);
  }

  lemma DirectShape(v: VmState, p: Pos, w: int)
    requires CanExtend(v, p, 3) && p.level <= 1 && p.space.Kernel? && 0 <= w < WORD_LIMIT && Present(w)
    requires w % 8 == PG_P + PG_RW && (p.level == 0 ==> !HasPS(w))
    ensures Shaped(v, p, w) && Linked(v, p) && !IsRoot(p)
  {
  }

  lemma DirectExtends(st: VmSt, p: Pos, w: int)
    requires p !in st.v.ent && forall b :: OwnsFrame(Add(st.v, p, w), b) <==> OwnsFrame(st.v, b)
    ensures Extends(st, VmSt(st.g, Add(st.v, p, w)), p)
  {
    hide OwnsFrame;
  }

  /** Addresses the kernel walks: 48 bits, and slot 2 only once a process is linked there. */
  ghost predicate Walkable(v: VmState, va: nat) {
    va < VA_LIMIT && (Idx(va, 3) == USER_SLOT ==> v.active.Some?)
  }

  ghost function WalkPd(st: VmSt, va: nat, large: bool): Outcome<VmSt>
    requires |st.g.free| == 3
  {
    var p := PathPos(st.v, va, 1);
    if p !in st.v.ent && large && va < USER_ADDR_START then Done(VmSt(st.g, Add(st.v, p, LargeWord(va))))
    else Ensure(st, p, Flag(va))
  }

  ghost function WalkPt(st: VmSt, va: nat): Outcome<VmSt>
    requires |st.g.free| == 3
  {
    var large, p := PathPos(st.v, va, 1), PathPos(st.v, va, 0);
    if large in st.v.ent && HasPS(st.v.ent[large]) then Done(st)
    else if p !in st.v.ent && va < USER_ADDR_START then Done(VmSt(st.g, Add(st.v, p, SmallWord(va))))
    else Ensure(st, p, Flag(va))
  }

  lemma {:induction false} EnsureLen(L: Layout, st: VmSt, p: Pos, flag: int)
    requires PmInv(L, st.g)
    ensures |st.g.free| == 3
    ensures var r := Ensure(st, p, flag); r.Done? ==> PmInv(L, r.value.g) && |r.value.g.free| == 3
  {
    if p !in st.v.ent && CanAlloc(st.g, 0) { AllocInv(L, st.g, 0); }
  }

  /** The first two levels of `walk_pgdir(va, TRUE, large)`. */
  ghost function WalkTables(L: Layout, st: VmSt, va: nat): (r: Outcome<VmSt>)
    requires PmInv(L, st.g)
    ensures r.Done? ==> PmInv(L, r.value.g) && |r.value.g.free| == 3
  {
    EnsureLen(L, st, PathPos(st.v, va, 3), Flag(va));
    var st3 :- Ensure(st, PathPos(st.v, va, 3), Flag(va));
    EnsureLen(L, st3, PathPos(st3.v, va, 2), Flag(va));
    Ensure(st3, PathPos(st3.v, va, 2), Flag(va))
  }

  /** `walk_pgdir(va, TRUE, large)`: level by level, each missing table or page is allocated. */
  ghost function Walk(L: Layout, st: VmSt, va: nat, large: bool): Outcome<VmSt>
    requires PmInv(L, st.g)
  {
    var st2 :- WalkTables(L, st, va);
    EnsureLen(L, st2, PathPos(st2.v, va, 1), Flag(va));
    var st1 :- WalkPd(st2, va, large);
    WalkPt(st1, va)
  }

  /** `st'` maps everything `st` maps, and besides only positions on the path of `va`. */
  ghost predicate OnPath(st: VmSt, st': VmSt, va: nat) {
    && st'.v.pgdir == st.v.pgdir && st'.v.active == st.v.active
    && (forall q :: q in st.v.ent ==> q in st'.v.ent && st'.v.ent[q] == st.v.ent[q])
    && (forall q :: q in st'.v.ent && q !in st.v.ent ==> q == PathPos(st.v, va, q.level))
    && SameOutside(st, st') && st'.g.lo == st.g.lo && st'.g.hi == st.g.hi
    && (forall b :: IsUsed(st.g, b) ==> IsUsed(st'.g, b) && st'.g.blocks[b] == st.g.blocks[b])
  }

  lemma OnPathStep(st: VmSt, st1: VmSt, st2: VmSt, va: nat, level: nat)
    requires OnPath(st, st1, va) && Extends(st1, st2, PathPos(st1.v, va, level))
    ensures OnPath(st, st2, va)
  {
    hide IsUsed, OwnsFrame, Idx;
  }

  lemma OnPathSelf(st: VmSt, va: nat)
    ensures OnPath(st, st, va)
  {
  }

  /** The position one level further down the path can be filled in. */
  lemma PathCanExtend(v: VmState, va: nat, level: nat)
    requires TreeOk(v) && Walkable(v, va) && level <= 3 && (level == 3 ==> SpaceOf(v, va).Kernel?)
    requires level < 3 ==>
      PathPos(v, va, level + 1) in v.ent && IsTable(PathPos(v, va, level + 1), v.ent[PathPos(v, va, level + 1)])
    ensures CanExtend(v, PathPos(v, va, level), Flag(va))
  {
    hide Idx, Slot, HasPS;
    PathSlot(v, va, level);
    PathParent(v, va, level);
    TopIdx(va);
    UserFlag(va);
    if level == 3 { KernelTop(v, va); }
  }

  lemma KernelTop(v: VmState, va: nat)
    requires TreeOk(v) && va < VA_LIMIT
    ensures Pos(Kernel, 4, Idx(va, 4)) == KROOT && IsTable(KROOT, v.pgdir)
  {
    TopIdx(va);
  }

  lemma UserFlag(va: nat)
    ensures Idx(va, 3) >= USER_SLOT <==> va >= USER_ADDR_START
    ensures va >= USER_ADDR_START <==> Idx(va, 0) >= USER_ADDR_START / PM_4K
  {
    assert Idx(va, 3) >= 2 <==> Idx(va, 2) >= 1024;
    assert Idx(va, 2) >= 1024 <==> Idx(va, 1) >= 1024 * 512;
    assert Idx(va, 1) >= 1024 * 512 <==> Idx(va, 0) >= 1024 * 512 * 512;
  }

  lemma UserRootMapped(v: VmState, va: nat)
    requires TreeOk(v) && Walkable(v, va) && SpaceOf(v, va).User?
    ensures PathPos(v, va, 3) in v.ent
  {
  }

  lemma PathTable(v: VmState, p: Pos)
    requires TreeOk(v) && p in v.ent && (p.level >= 2 || (p.level == 1 && !HasPS(v.ent[p])))
    ensures IsTable(p, v.ent[p])
  {
    assert Shaped(v, p, v.ent[p]);
  }

  ghost predicate Mapped(v: VmState, va: nat) {
    && PathPos(v, va, 3) in v.ent && PathPos(v, va, 2) in v.ent && PathPos(v, va, 1) in v.ent
    && (HasPS(v.ent[PathPos(v, va, 1)]) || PathPos(v, va, 0) in v.ent)
  }

  /** Everything mapped stays mapped, and what is new is at one level. */
  ghost predicate NewOnlyAt(v: VmState, v': VmState, level: nat) {
    && (forall q :: q in v.ent ==> q in v'.ent && v'.ent[q] == v.ent[q])
    && (forall q :: q in v'.ent && q.level != level ==> q in v.ent)
  }

  lemma TopOk(L: Layout, st: VmSt, va: nat)
    requires StOk(L, st) && |st.g.free| == 3 && Walkable(st.v, va)
    ensures var p := PathPos(st.v, va, 3); var r := Ensure(st, p, Flag(va)); r.Done? ==>
      && StOk(L, r.value) && |r.value.g.free| == 3 && p in r.value.v.ent && OnPath(st, r.value, va)
      && r.value.v.active == st.v.active && NewOnlyAt(st.v, r.value.v, 3)
  {
    hide PmInv, Idx, Slot, HasPS, OnPath, CanExtend, Owned, Ensure, Extends, FramesOk, TreeOk;
    OnPathSelf(st, va);
    var p := PathPos(st.v, va, 3);
    if SpaceOf(st.v, va).User? {
      UserRootMapped(st.v, va);
      EnsureMapped(st, p, Flag(va));
    } else {
      PathCanExtend(st.v, va, 3);
      EnsureOk(L, st, p, Flag(va));
      if Ensure(st, p, Flag(va)).Done? {
        OnPathStep(st, st, Ensure(st, p, Flag(va)).value, va, 3);
        ExtendsAt(st, Ensure(st, p, Flag(va)).value, p);
      }
    }
  }

  lemma EnsureMapped(st: VmSt, p: Pos, flag: int)
    requires |st.g.free| == 3 && p in st.v.ent
    ensures Ensure(st, p, flag) == Done(st)
  {
  }

  lemma ExtendsAt(st: VmSt, st': VmSt, p: Pos)
    requires Extends(st, st', p)
    ensures NewOnlyAt(st.v, st'.v, p.level) && st'.v.active == st.v.active
  {
  }

  lemma DownOk(L: Layout, st0: VmSt, st: VmSt, va: nat, level: nat)
    requires OnPath(st0, st, va) && StOk(L, st) && |st.g.free| == 3 && Walkable(st.v, va) && level <= 2
    requires var up := PathPos(st.v, va, level + 1); up in st.v.ent && IsTable(up, st.v.ent[up])
    requires level == 0 ==> va >= USER_ADDR_START || PathPos(st.v, va, 0) in st.v.ent
    ensures var p := PathPos(st.v, va, level); var r := Ensure(st, p, Flag(va)); r.Done? ==>
      && StOk(L, r.value) && |r.value.g.free| == 3 && p in r.value.v.ent && OnPath(st0, r.value, va)
      && (p !in st.v.ent ==> !HasPS(r.value.v.ent[p])) && r.value.v.active == st.v.active
      && NewOnlyAt(st.v, r.value.v, level)
  {
    hide PmInv, FramesOk, Idx, Slot, HasPS, OnPath, CanExtend, Outside;
    var p := PathPos(st.v, va, level);
    PathCanExtend(st.v, va, level);
    UserFlag(va);
    if p in st.v.ent {
    } else {
      EnsureOk(L, st, p, Flag(va));
      if Ensure(st, p, Flag(va)).Done? {
        OnPathStep(st0, st, Ensure(st, p, Flag(va)).value, va, level);
      }
    }
  }

  lemma KernelPath(v: VmState, va: nat)
    requires va < USER_ADDR_START
    ensures SpaceOf(v, va) == Kernel
  {
    UserFlag(va);
  }

  lemma PdOk(L: Layout, st0: VmSt, st: VmSt, va: nat, large: bool)
    requires OnPath(st0, st, va) && StOk(L, st) && |st.g.free| == 3 && Walkable(st.v, va)
    requires var up := PathPos(st.v, va, 2); up in st.v.ent && IsTable(up, st.v.ent[up])
    ensures var p := PathPos(st.v, va, 1); var r := WalkPd(st, va, large); r.Done? ==>
      && StOk(L, r.value) && |r.value.g.free| == 3 && p in r.value.v.ent && OnPath(st0, r.value, va)
      && r.value.v.active == st.v.active
      && (forall q :: q in st.v.ent ==> q in r.value.v.ent && r.value.v.ent[q] == st.v.ent[q])
      && (p !in st.v.ent && HasPS(r.value.v.ent[p]) ==>
            large && va < USER_ADDR_START && r.value.v.ent[p] == LargeWord(va))
      && (p !in st.v.ent && large && va < USER_ADDR_START ==> HasPS(r.value.v.ent[p]))
  {
    hide PmInv, VmInv, Idx, Slot, HasPS, OnPath, CanExtend, Outside, TreeOk, FramesOk, Present, LargeWord, Ensure;
    hide Extends;
    var p := PathPos(st.v, va, 1);
    if p !in st.v.ent && large && va < USER_ADDR_START {
      LargeWordFacts(va);
      KernelPath(st.v, va);
      StParts(L, st);
      PathCanExtend(st.v, va, 1);
      DirectOk(L, st, p, LargeWord(va));
      OnPathStep(st0, st, VmSt(st.g, Add(st.v, p, LargeWord(va))), va, 1);
    } else {
      DownOk(L, st0, st, va, 1);
    }
  }

  lemma PtOk(L: Layout, st0: VmSt, st: VmSt, va: nat)
    requires OnPath(st0, st, va) && StOk(L, st) && |st.g.free| == 3 && Walkable(st.v, va)
    requires PathPos(st.v, va, 1) in st.v.ent
    ensures var r := WalkPt(st, va); r.Done? ==>
      && StOk(L, r.value) && OnPath(st0, r.value, va) && r.value.v.active == st.v.active
      && (forall q :: q in st.v.ent ==> q in r.value.v.ent && r.value.v.ent[q] == st.v.ent[q])
      && (HasPS(st.v.ent[PathPos(st.v, va, 1)]) || PathPos(st.v, va, 0) in r.value.v.ent)
  {
    hide PmInv, VmInv, Idx, Slot, HasPS, OnPath, CanExtend, Outside, Frame, Present, SmallWord, TreeOk, FramesOk;
    StParts(L, st);
    var up, p := PathPos(st.v, va, 1), PathPos(st.v, va, 0);
    if !HasPS(st.v.ent[up]) {
      PathTable(st.v, up);
      if p !in st.v.ent && va < USER_ADDR_START {
        KernelPath(st.v, va);
        UserFlag(va);
        SmallWordFacts(va);
        PathCanExtend(st.v, va, 0);
        DirectOk(L, st, p, SmallWord(va));
        OnPathStep(st0, st, VmSt(st.g, Add(st.v, p, SmallWord(va))), va, 0);
      } else {
        DownOk(L, st0, st, va, 0);
      }
    }
  }

  lemma SmallWordFacts(va: nat)
    requires va < VA_LIMIT
    ensures Present(SmallWord(va)) && Frame(SmallWord(va)) == va - va % PM_4K && 0 <= SmallWord(va) < WORD_LIMIT
    ensures SmallWord(va) % 8 == PG_P + PG_RW && !HasPS(SmallWord(va))
  {
    var q, w := va / PM_4K, SmallWord(va);
    assert w == q * PM_4K + 3;
    ModUnique(w, PM_4K, q, 3);
    ModUnique(w, 8, 512 * q, 3);
    ModUnique(w, 128, 32 * q, 3);
    EvenTimes(16 * q);
    ModUnique(w, 2, 2048 * q + 1, 1);
  }

  /** `walk_pgdir` with create maps `va`, adding only positions on its path and taking blocks from
      nobody; a 2 MiB leaf appears only where a large mapping was asked for. */
  lemma WalkOk(L: Layout, st: VmSt, va: nat, large: bool)
    requires StOk(L, st) && Walkable(st.v, va)
    ensures var r := Walk(L, st, va, large); r.Done? ==>
      && StOk(L, r.value) && OnPath(st, r.value, va) && Mapped(r.value.v, va)
      && var p := PathPos(st.v, va, 1);
      && (p !in st.v.ent && HasPS(r.value.v.ent[p]) ==>
            large && va < USER_ADDR_START && r.value.v.ent[p] == LargeWord(va))
      && (p !in st.v.ent && large && va < USER_ADDR_START ==> HasPS(r.value.v.ent[p]))
  {
    hide PmInv, VmInv, Idx, Slot, HasPS, OnPath, WalkTables, WalkPd, WalkPt, Owned, LargeWord, Flag, StOk;
    StParts(L, st);
    WalkTablesOk(L, st, va);
    var r2 := WalkTables(L, st, va);
    if r2.Done? {
      StParts(L, r2.value);
      PathTable(r2.value.v, PathPos(r2.value.v, va, 2));
      PdOk(L, st, r2.value, va, large);
      var r1 := WalkPd(r2.value, va, large);
      if r1.Done? {
        PtOk(L, st, r1.value, va);
      }
    }
  }

  lemma WalkTablesOk(L: Layout, st: VmSt, va: nat)
    requires StOk(L, st) && Walkable(st.v, va)
    ensures var r := WalkTables(L, st, va); r.Done? ==>
      && StOk(L, r.value) && OnPath(st, r.value, va) && r.value.v.active == st.v.active
      && PathPos(st.v, va, 3) in r.value.v.ent && PathPos(st.v, va, 2) in r.value.v.ent
      && (PathPos(st.v, va, 1) in r.value.v.ent <==> PathPos(st.v, va, 1) in st.v.ent)
      && forall q :: q in st.v.ent ==> q in r.value.v.ent && r.value.v.ent[q] == st.v.ent[q]
  {
    hide PmInv, VmInv, Idx, Slot, HasPS, OnPath, Ensure, Owned, Flag, StOk;
    StParts(L, st);
    FreeLen(L, st.g);
    TopOk(L, st, va);
    var r3 := Ensure(st, PathPos(st.v, va, 3), Flag(va));
    if r3.Done? {
      StParts(L, r3.value);
      PathTable(r3.value.v, PathPos(r3.value.v, va, 3));
      DownOk(L, st, r3.value, va, 2);
    }
  }

  // ---- What the walk means for translations ----

  /** The addresses that a walk of `va` may newly map. */
  predicate SamePage(va: nat, va': nat, large: bool) {
    if large && va < USER_ADDR_START then Idx(va, 1) == Idx(va', 1) else Idx(va, 0) == Idx(va', 0)
  }

  /** `va` becomes mapped and the translation, or absence, of every address in any other page stays. */
  lemma WalkRefinesMap(L: Layout, st: VmSt, va: nat, large: bool, va': nat)
    requires StOk(L, st) && Walkable(st.v, va) && Walk(L, st, va, large).Done?
    ensures var v' := Walk(L, st, va, large).value.v;
      && Lookup(v', va).Some?
      && (!SamePage(va, va', large) || Lookup(st.v, va').Some? ==> Lookup(v', va') == Lookup(st.v, va'))
  {
    hide StOk, OnPath, Walk, Lookup, PathPos, LargeWord, HasPS, Walkable;
    StParts(L, st);
    WalkOk(L, st, va, large);
    var st' := Walk(L, st, va, large).value;
    StParts(L, st');
    MappedLookup(st'.v, va);
    SamePaths(st, st', va, va, 1);
    OthersKept(st, st', va, large, va');
  }

  lemma MappedLookup(v: VmState, va: nat)
    requires Mapped(v, va)
    ensures Lookup(v, va).Some?
  {
    hide Idx, HasPS;
  }

  lemma OthersKept(st: VmSt, st': VmSt, va: nat, large: bool, va': nat)
    requires OnPath(st, st', va) && TreeOk(st.v) && TreeOk(st'.v) && PathPos(st.v, va, 1) in st'.v.ent
    requires var p := PathPos(st.v, va, 1); p !in st.v.ent && HasPS(st'.v.ent[p]) ==> large && va < USER_ADDR_START
    ensures !SamePage(va, va', large) || Lookup(st.v, va').Some? ==> Lookup(st'.v, va') == Lookup(st.v, va')
  {
    hide OnPath, TreeOk, PathPos, Idx, HasPS, Frame;
    var l, p := PathPos(st.v, va', 1), PathPos(st.v, va', 0);
    LargeThenNoPage(st'.v, va');
    LargeThenNoPage(st.v, va');
    SamePageUp(va, va');
    SamePaths(st, st', va, va', 1);
    SamePaths(st, st', va, va', 0);
    NewOnPath(st, st', va, va', 1);
    NewOnPath(st, st', va, va', 0);
  }

  lemma SamePaths(st: VmSt, st': VmSt, va: nat, va': nat, level: nat)
    requires OnPath(st, st', va)
    ensures PathPos(st'.v, va', level) == PathPos(st.v, va', level)
    ensures var q := PathPos(st.v, va', level); q in st.v.ent ==> q in st'.v.ent && st'.v.ent[q] == st.v.ent[q]
  {
  }

  lemma NewOnPath(st: VmSt, st': VmSt, va: nat, va': nat, level: nat)
    requires OnPath(st, st', va)
    ensures var q := PathPos(st.v, va', level);
      q in st'.v.ent && q !in st.v.ent ==> q == PathPos(st.v, va, level) && Idx(va, level) == Idx(va', level)
  {
    hide Idx;
  }

  lemma SamePageUp(va: nat, va': nat)
    ensures Idx(va, 0) == Idx(va', 0) ==> Idx(va, 1) == Idx(va', 1)
  {
  }

  /** A 4 KiB page is mapped only below a page table. */
  lemma LargeThenNoPage(v: VmState, va: nat)
    requires TreeOk(v)
    ensures PathPos(v, va, 0) in v.ent ==> PathPos(v, va, 1) in v.ent && !HasPS(v.ent[PathPos(v, va, 1)])
  {
    hide HasPS, Slot;
    var p := PathPos(v, va, 0);
    PathParent(v, va, 0);
    assert p in v.ent ==> Linked(v, p);
  }

  /** Walking a mapped address changes nothing, so repeating a walk allocates nothing. */
  lemma WalkIdempotent(L: Layout, st: VmSt, va: nat, large: bool)
    requires StOk(L, st) && Walkable(st.v, va)
    ensures Mapped(st.v, va) ==> Walk(L, st, va, large) == Done(st)
    ensures Lookup(st.v, va).Some? ==> Mapped(st.v, va)
    ensures Walk(L, st, va, large).Done? ==>
      var st' := Walk(L, st, va, large).value; StOk(L, st') && Walk(L, st', va, large) == Done(st')
  {
    WalkOk(L, st, va, large);
    LookupMapped(st.v, va);
    hide Idx, HasPS, SameOutside, IsUsed;
    if Walk(L, st, va, large).Done? {
      MappedWalk(L, Walk(L, st, va, large).value, va, large);
    }
    if Mapped(st.v, va) { MappedWalk(L, st, va, large); }
  }

  lemma MappedWalk(L: Layout, st: VmSt, va: nat, large: bool)
    requires PmInv(L, st.g) && Mapped(st.v, va)
    ensures Walk(L, st, va, large) == Done(st)
  {
    hide Idx, HasPS, PmInv;
    FreeLen(L, st.g);
  }

  lemma LookupMapped(v: VmState, va: nat)
    requires TreeOk(v) && Walkable(v, va)
    ensures Lookup(v, va).Some? ==> Mapped(v, va)
  {
    hide Idx, HasPS, Slot;
    PathParent(v, va, 0);
    PathParent(v, va, 1);
    PathParent(v, va, 2);
    assert PathPos(v, va, 0) in v.ent ==> Linked(v, PathPos(v, va, 0));
    assert PathPos(v, va, 1) in v.ent ==> Linked(v, PathPos(v, va, 1));
    if SpaceOf(v, va).User? { UserRootMapped(v, va); }
    assert PathPos(v, va, 2) in v.ent && SpaceOf(v, va).Kernel? ==> Linked(v, PathPos(v, va, 2));
  }

  /** Linking another process in slot 2. */
  lemma SwitchTree(L: Layout, st: VmSt, proc: int)
    requires StOk(L, st) && UserRoot(proc) in st.v.ent
    ensures StOk(L, VmSt(st.g, st.v.(active := Some(proc))))
  {
    hide PmInv, IsUsed, Frame, HasPS, Present, Slot;
    var v' := st.v.(active := Some(proc));
    forall p | p in v'.ent ensures Shaped(v', p, v'.ent[p]) && (!IsRoot(p) ==> Linked(v', p)) {
      assert Shaped(st.v, p, st.v.ent[p]) && (!IsRoot(p) ==> Linked(st.v, p));
    }
  }
}
