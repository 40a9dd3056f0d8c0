/** The page tables of arch/x86/vm.c. */
module Vm {
  import opened Bits
  import opened Memory
  import opened Blocks
  import opened PhysAlloc
  import opened PageTables
  import opened PageWalk
  import opened PageMem
  import opened Supply
  import opened PageSupply
  import opened Access
  import opened PageFree
  import opened PageInit

  /** `(va >> shift) & 0x1FF` */
  function PteIndex(va: nat, shift: nat): nat {
    And(Shr(va, shift), 0x1FF)
  }

  lemma PteIndexIs(va: nat, level: nat)
    ensures PteIndex(va, 12 + 9 * level) == Idx(va, level) % ENTRIES
  {
    ShiftIsIdx(va, level);
    NineBits(Shr(va, 12 + 9 * level));
  }

  lemma {:induction false} ShiftIsIdx(va: nat, level: nat)
    ensures Shr(va, 12 + 9 * level) == Idx(va, level)
  {
    Powers();
    if level == 0 {
      ShrIs(va, 12);
    } else {
      ShiftIsIdx(va, level - 1);
      ShrMore(va, 12 + 9 * (level - 1), 9);
      ShrIs(Idx(va, level - 1), 9);
    }
  }

  /** ROUNDDOWN to 4 KiB and to 2 MiB. */
  function PageDown(a: Word): Word {
    And(a, Not(0xFFF))
  }

  function LargeDown(a: Word): Word {
    And(a, Not(0x1F_FFFF))
  }

  /** The cell of the entry that maps `va`. */
  ghost function LeafCell(v: VmState, va: nat): int
    requires Mapped(v, va)
  {
    PathParent(v, va, 1);
    PathParent(v, va, 0);
    if HasPS(v.ent[PathPos(v, va, 1)]) then LinkCell(v, PathPos(v, va, 1)) else LinkCell(v, PathPos(v, va, 0))
  }

  /** `cell` is the link cell of `p`, and holds its word or 0. */
  ghost predicate LinkAt(v: VmState, m: Mem, p: Pos, cell: int) {
    && cell % 8 == 0 && p.level <= 3 && (p !in v.ent ==> Parent(p) in v.ent && LinkCell(v, p) == cell)
    && At(m, cell) == (if p in v.ent then v.ent[p] else 0)
    && (p in v.ent ==> Present(v.ent[p]) && 0 < v.ent[p] < WORD_LIMIT)
  }

  lemma TopLink(L: Layout, st: VmSt, m: Mem, va: nat)
    requires VRep(L, st, m) && Walkable(st.v, va)
    ensures var p := PathPos(st.v, va, 3);
      && LinkAt(st.v, m, p, Frame(st.v.pgdir) + 8 * (Idx(va, 3) % ENTRIES))
      && (p !in st.v.ent ==> CanExtend(st.v, p, Flag(va)))
  {
    hide Idx, Slot, HasPS, PmInv, PmCore, PmRep, VmRep, Frame, FramesOk, Present, CanExtend;
    StParts(L, st);
    TopEntry(st.g, st.v, m, va);
    TopIdx(va);
    PathParent(st.v, va, 3);
    KernelTop(st.v, va);
    CellInFrame(st.v.pgdir, Idx(va, 3) % ENTRIES);
    if SpaceOf(st.v, va).User? { UserRootMapped(st.v, va); } else { PathCanExtend(st.v, va, 3); }
    WordFacts(st.v, PathPos(st.v, va, 3));
  }

  lemma WordFacts(v: VmState, p: Pos)
    requires TreeOk(v)
    ensures p in v.ent && p.level <= 3 ==> Present(v.ent[p]) && 0 < v.ent[p] < WORD_LIMIT
  {
    assert p in v.ent ==> Shaped(v, p, v.ent[p]);
  }

  lemma DownLink(L: Layout, st: VmSt, m: Mem, va: nat, level: nat)
    requires VRep(L, st, m) && Walkable(st.v, va) && level <= 2
    requires var up := PathPos(st.v, va, level + 1); up in st.v.ent && IsTable(up, st.v.ent[up])
    ensures var p, up := PathPos(st.v, va, level), PathPos(st.v, va, level + 1);
      && LinkAt(st.v, m, p, Frame(st.v.ent[up]) + 8 * (Idx(va, level) % ENTRIES)) && Parent(p) == up
      && CanExtend(st.v, p, Flag(va)) && (level > 0 || va >= USER_ADDR_START ==> p.level == 0 ==> Owned(p, Flag(va)))
  {
    hide Idx, Slot, HasPS, PmInv, PmCore, PmRep, VmRep, Frame, FramesOk, Present, CanExtend, TreeOk;
    StParts(L, st);
    var p, up := PathPos(st.v, va, level), PathPos(st.v, va, level + 1);
    PathParent(st.v, va, level);
    PathCanExtend(st.v, va, level);
    UserFlag(va);
    ReadLink(st.v, m, p);
    CellInFrame(st.v.ent[up], Idx(va, level) % ENTRIES);
    WordFacts(st.v, p);
  }

  lemma RootWord(v: VmState)
    requires TreeOk(v)
    ensures 0 <= v.pgdir < WORD_LIMIT
  {
    assert Shaped(v, KROOT, v.ent[KROOT]);
  }

  lemma PageDownIs(w: Word)
    ensures PageDown(w) == And(w, Not(0xFFF)) == Frame(w)
  {
    PageWordOps(w);
  }

  lemma OnPathOutside(st: VmSt, st': VmSt, va: nat, create: bool)
    requires if create then OnPath(st, st', va) else st' == st
    ensures SameOutside(st, st')
  {
    if create { hide SameOutside; } else { hide IsUsed, OwnsFrame; }
  }

  lemma TablePositive(L: Layout, st: VmSt, p: Pos)
    requires StOk(L, st)
    ensures p in st.v.ent && p.level >= 2 ==> Frame(st.v.ent[p]) > 0
  {
    StParts(L, st);
    if p in st.v.ent && p.level >= 2 {
      PathTable(st.v, p);
      UsedAbove(L, st.g, Frame(st.v.ent[p]));
    }
  }

  /** Offset of `upml4` in `struct proc`. */
  const PROC_UPML4 := 40

  class PageDir {
    const L: Layout
    const pm: PhysMem
    var pgdir: int
    ghost var v: VmState

    constructor (L: Layout, pm: PhysMem)
      requires pm.L == L
      ensures this.L == L && this.pm == pm
    {
      this.L := L;
      this.pm := pm;
      pgdir := 0;
      v := VmState(map[], 0, None);
    }

    ghost function St(): VmSt
      reads this, pm
    {
      VmSt(pm.g, v)
    }

    ghost predicate Valid()
      reads this, pm, pm.ram
    {
      pm.L == L && VRep(L, St(), pm.ram.mem) && pm.Valid() && |pm.g.free| == 3 && v.pgdir == pgdir
    }

    /** One level: reads the entry of `p`, first backing it with a fresh frame if it is absent. */
    method Descend(cell: int, create: bool, flag: int, ghost p: Pos) returns (r: Outcome<int>)
      requires Valid() && flag in {3, 7} && LinkAt(v, pm.ram.mem, p, cell)
      requires create && p !in v.ent ==> CanExtend(v, p, flag) && (p.level == 0 ==> Owned(p, flag))
      modifies this`v, pm, pm.ram
      ensures Valid() && VmKept(L, old(St()), St(), old(pm.ram.mem), pm.ram.mem)
      ensures r.Panic? <==> create && Ensure(old(St()), p, flag).Panic?
      ensures r.Done? ==> 0 <= r.value < WORD_LIMIT && (r.value != 0 <==> p in v.ent)
      ensures r.Done? && !create ==>
        St() == old(St()) && pm.ram.mem == old(pm.ram.mem) && r.value == if p in v.ent then v.ent[p] else 0
      ensures r.Done? && create ==>
        Ensure(old(St()), p, flag) == Done(St()) && p in v.ent && r.value == v.ent[p] == At(pm.ram.mem, cell)
          && 0 < r.value < WORD_LIMIT
      ensures r.Done? && create && p !in old(v).ent ==> ZeroRange(pm.ram.mem, Frame(v.ent[p]), PM_4K)
    {
      hide ZeroRange, Frame, PmInv, PmCore, PmRep, VRep, StOk, VmKept, PmFrame, CanExtend, Owned, Alloc, AllocAddr;
      hide CanAlloc, Present;
      hide Linked, And, Or;
      ghost var st, m := St(), pm.ram.mem;
      VmKeptRefl(L, st, m);
      ZeroIsAbsent();
      var e := pm.ram.Load(cell);
      if p in v.ent { PresentBit(e); }
      if And(e, PG_P) == 0 {
        if !create {
          return Done(0);
        }
        var page :- pm.Pmalloc(PM_4K);
        FillStep(L, st, m, pm.ram.mem, p, flag);
        FrameOrFlag(page, flag);
        pm.ram.Store(cell, Or(page, flag));
        v := Add(v, p, page + flag);
        VRepParts(L, St(), pm.ram.mem);
      }
      e := pm.ram.Load(cell);
      return Done(e);
    }

    /** The PML4 and PDPT levels of `walk_pgdir`: the page directory that covers `va`, or NULL. */
    method WalkToDirectory(va: nat, create: bool, flag: int) returns (r: Outcome<int>)
      requires Valid() && Walkable(v, va) && flag == Flag(va)
      modifies this`v, pm, pm.ram
      ensures PmInv(L, old(pm.g)) && (r.Done? ==> Valid() && VmKept(L, old(St()), St(), old(pm.ram.mem), pm.ram.mem))
      ensures r.Panic? <==> create && WalkTables(L, old(St()), va).Panic?
      ensures r.Done? && create ==>
        && WalkTables(L, old(St()), va) == Done(St()) && PathPos(v, va, 3) in v.ent && PathPos(v, va, 2) in v.ent
        && r.value == Frame(v.ent[PathPos(v, va, 2)]) > 0
      ensures r.Done? && !create ==> St() == old(St()) && pm.ram.mem == old(pm.ram.mem)
      ensures r.Done? && !create ==>
        r.value == if PathPos(v, va, 3) in v.ent && PathPos(v, va, 2) in v.ent then Frame(v.ent[PathPos(v, va, 2)])
          else 0
      ensures r.Done? ==> (r.value != 0 <==> PathPos(v, va, 3) in v.ent && PathPos(v, va, 2) in v.ent)
      ensures r.Done? && r.value != 0 ==> r.value == Frame(v.ent[PathPos(v, va, 2)])
    {
      hide Idx, HasPS, PmInv, PmCore, PmRep, VRep, StOk, VmKept, CanExtend, Owned, LinkAt, Frame, Ensure, And, PteIndex;
      hide Shr, WalkTables, TreeOk, OnPath, SameOutside, Present;
      ghost var st, m := St(), pm.ram.mem;
      VRepParts(L, st, m);
      PteIndexIs(va, 3);
      PteIndexIs(va, 2);
      TopLink(L, st, m, va);
      PanicAtTop(L, st, va);
      RootWord(v);
      PageDownIs(pgdir);
      var pml4 := PageDown(pgdir);
      var e4 :- Descend(pml4 + 8 * PteIndex(va, 39), create, flag, PathPos(v, va, 3));
      if e4 == 0 {
        return Done(0);
      }
      ghost var st3, m3 := St(), pm.ram.mem;
      AfterTop(L, st, st3, va, create);
      VRepParts(L, st3, m3);
      PathTable(v, PathPos(v, va, 3));
      PageDownIs(e4);
      DownLink(L, st3, m3, va, 2);
      var pdpt := And(e4, Not(0xFFF));
      var e3 :- Descend(pdpt + 8 * PteIndex(va, 30), create, flag, PathPos(v, va, 2));
      VmKeptTrans(L, st, st3, St(), m, m3, pm.ram.mem);
      if e3 == 0 {
        return Done(0);
      }
      AfterDirectory(L, st, st3, St(), va, create);
      VRepParts(L, St(), pm.ram.mem);
      PageDownIs(e3);
      TablePositive(L, St(), PathPos(v, va, 2));
      return Done(And(e3, Not(0xFFF)));
    }

    /** The PD level: a missing entry becomes a 2 MiB direct mapping or a fresh page table. */
    method FillDirectory(cell: int, va: nat, create: bool, large: bool, flag: int) returns (r: Outcome<int>)
      requires Valid() && Walkable(v, va) && flag == Flag(va) && (create && large ==> va < USER_ADDR_START)
      requires LinkAt(v, pm.ram.mem, PathPos(v, va, 1), cell) && CanExtend(v, PathPos(v, va, 1), flag)
      modifies this`v, pm, pm.ram
      ensures Valid() && VmKept(L, old(St()), St(), old(pm.ram.mem), pm.ram.mem)
      ensures r.Panic? <==> create && WalkPd(old(St()), va, large).Panic?
      ensures r.Done? && create ==> WalkPd(old(St()), va, large) == Done(St()) && old(PathPos(v, va, 1)) in v.ent
      ensures r.Done? && !create ==> St() == old(St()) && pm.ram.mem == old(pm.ram.mem)
      ensures r.Done? ==> 0 <= r.value < WORD_LIMIT && (r.value != 0 <==> old(PathPos(v, va, 1)) in v.ent)
      ensures r.Done? && r.value != 0 ==> r.value == v.ent[old(PathPos(v, va, 1))]
    {
      hide Idx, HasPS, PmInv, PmCore, PmRep, VRep, StOk, VmKept, CanExtend, Owned, Frame, Ensure, And, Or, TreeOk;
      hide SameOutside, Present, LargeWord, LargeDown;
      ghost var st, m, p := St(), pm.ram.mem, PathPos(v, va, 1);
      VmKeptRefl(L, st, m);
      ZeroIsAbsent();
      var e := pm.ram.Load(cell);
      if p in v.ent { PresentBit(e); }
      if And(e, PG_P) == 0 && create && large {
        LargeStep(L, st, m, va, p);
        LargeDownIs(va);
        pm.ram.Store(cell, Or(Or(LargeDown(va), flag), PG_PS));
        v := Add(v, p, LargeWord(va));
        VRepParts(L, St(), pm.ram.mem);
        return Done(LargeWord(va));
      }
      r := Descend(cell, create, flag, p);
    }

    /** The PT level: a missing entry becomes a 4 KiB direct mapping or a fresh page. */
    method FillTable(cell: int, va: nat, create: bool, flag: int) returns (r: Outcome<bool>)
      requires Valid() && Walkable(v, va) && flag == Flag(va)
      requires LinkAt(v, pm.ram.mem, PathPos(v, va, 0), cell) && CanExtend(v, PathPos(v, va, 0), flag)
      requires va >= USER_ADDR_START ==> Owned(PathPos(v, va, 0), flag)
      requires PathPos(v, va, 1) in v.ent && !HasPS(v.ent[PathPos(v, va, 1)])
      modifies this`v, pm, pm.ram
      ensures Valid() && VmKept(L, old(St()), St(), old(pm.ram.mem), pm.ram.mem)
      ensures r.Panic? <==> create && WalkPt(old(St()), va).Panic?
      ensures r.Done? && create ==> WalkPt(old(St()), va) == Done(St()) && old(PathPos(v, va, 0)) in v.ent
      ensures r.Done? && !create ==> St() == old(St()) && pm.ram.mem == old(pm.ram.mem)
      ensures r.Done? ==> (r.value <==> old(PathPos(v, va, 0)) in v.ent)
      ensures r.Done? && create && va >= USER_ADDR_START && old(PathPos(v, va, 0)) !in old(v).ent ==>
        ZeroRange(pm.ram.mem, Frame(v.ent[old(PathPos(v, va, 0))]), PM_4K)
    {
      hide Idx, HasPS, PmInv, PmCore, PmRep, VRep, StOk, VmKept, CanExtend, Owned, Frame, Ensure, And, Or, TreeOk;
      hide SameOutside, Present, SmallWord, PageDown;
      ghost var st, m, p := St(), pm.ram.mem, PathPos(v, va, 0);
      VmKeptRefl(L, st, m);
      ZeroIsAbsent();
      var e := pm.ram.Load(cell);
      if p in v.ent { PresentBit(e); }
      if And(e, PG_P) == 0 && create && va < USER_ADDR_START {
        SmallStep(L, st, m, va, p);
        SmallDownIs(va);
        pm.ram.Store(cell, Or(PageDown(va), flag));
        v := Add(v, p, SmallWord(va));
        VRepParts(L, St(), pm.ram.mem);
        return Done(true);
      }
      var word :- Descend(cell, create, flag, p);
      return Done(word != 0);
    }

    /** The last step of `walk_pgdir`, from the page-directory entry `e` read at `cell`. */
    method WalkTable(e: int, cell: int, va: nat, create: bool, flag: int) returns (r: Outcome<int>)
      requires Valid() && Walkable(v, va) && flag == Flag(va)
      requires PathPos(v, va, 3) in v.ent && PathPos(v, va, 2) in v.ent && PathPos(v, va, 1) in v.ent
      requires e == v.ent[PathPos(v, va, 1)] && cell == Frame(v.ent[PathPos(v, va, 2)]) + 8 * (Idx(va, 1) % ENTRIES)
      modifies this`v, pm, pm.ram
      ensures |old(pm.g).free| == 3 && (r.Panic? <==> create && WalkPt(old(St()), va).Panic?)
      ensures r.Done? ==>
        Valid() && VmKept(L, old(St()), St(), old(pm.ram.mem), pm.ram.mem) && v.active == old(v).active
      ensures r.Done? && create ==> WalkPt(old(St()), va) == Done(St()) && Mapped(v, va)
      ensures r.Done? && !create ==> St() == old(St()) && pm.ram.mem == old(pm.ram.mem)
      ensures r.Done? ==> if Mapped(v, va) then r.value == LeafCell(v, va) > 0 else r.value == 0
      ensures var page := PathPos(v, va, 0);
        r.Done? && create && va >= USER_ADDR_START && page !in old(v).ent && page in v.ent ==>
          ZeroRange(pm.ram.mem, Frame(v.ent[page]), PM_4K)
    {
      hide ZeroRange, Idx, HasPS, PmInv, PmCore, PmRep, VRep, StOk, VmKept, CanExtend, Owned, Frame, Ensure, And, Or;
      hide LinkAt, WalkPt, OnPath, TreeOk, SameOutside, Present, PteIndex, Shr, LinkCell, IsTable;
      ghost var st, m := St(), pm.ram.mem;
      VRepParts(L, st, m);
      OnPathSelf(st, va);
      VmKeptRefl(L, st, m);
      PteIndexIs(va, 0);
      EntryRange(v, PathPos(v, va, 1));
      PageWordOps(e);
      HasPSIs(e);
      CellIs(v, va, 1);
      CellPositive(L, st, PathPos(v, va, 1));
      if And(e, PG_PS) != 0 {
        LargeLeaf(L, st, va);
        return Done(cell);
      }
      PageDownIs(e);
      PathTable(v, PathPos(v, va, 1));
      DownLink(L, st, m, va, 0);
      var pt := And(e, Not(0xFFF));
      var leaf := pt + 8 * PteIndex(va, 12);
      var found :- FillTable(leaf, va, create, flag);
      AfterPt(L, st, st, St(), va, create);
      VRepParts(L, St(), pm.ram.mem);
      if !found {
        return Done(0);
      }
      CellIs(v, va, 0);
      CellPositive(L, St(), PathPos(v, va, 0));
      return Done(leaf);
    }

    /** `walk_pgdir`: the cell of the entry that maps `va` and no other page, or NULL when it is not mapped.
        With `create` every missing level is filled in, from one frame each, and it fails exactly when
        fewer are free; without it nothing changes. */
    method WalkPgdir(va: nat, create: bool, large: bool) returns (r: Outcome<int>)
      requires Valid() && Walkable(v, va) && (create && large ==> va < USER_ADDR_START)
      modifies this`v, pm, pm.ram
      ensures PmInv(L, old(pm.g)) && |old(pm.g).free| == 3
      ensures r.Panic? <==> create && FreeFrames(old(pm.g)) < Missing(old(v), va, large)
      ensures r.Done? && create ==>
        |pm.g.free| == 3 && FreeFrames(pm.g) == FreeFrames(old(pm.g)) - Missing(old(v), va, large)
      ensures r.Done? ==> Answers(pm.ram.mem, pgdir, va, r.value) && (create ==> r.value != 0)
      ensures r.Done? && create && Translate(old(pm.ram.mem), pgdir, va).None? ==>
        MapsAnew(old(pm.g), pm.ram.mem, pgdir, va)
      ensures r.Panic? <==> create && Walk(L, old(St()), va, large).Panic?
      ensures r.Done? ==>
        Valid() && VmKept(L, old(St()), St(), old(pm.ram.mem), pm.ram.mem) && v.active == old(v).active
      ensures r.Done? && create ==> Walk(L, old(St()), va, large) == Done(St()) && Mapped(v, va)
      ensures r.Done? && !create ==> St() == old(St()) && pm.ram.mem == old(pm.ram.mem)
      ensures r.Done? ==> if Mapped(v, va) then r.value == LeafCell(v, va) > 0 else r.value == 0
    {
      hide Idx, HasPS, PmInv, PmCore, PmRep, VRep, StOk, VmKept, CanExtend, Owned, Frame, Ensure, And, Or, LinkAt;
      hide WalkTables, WalkPd, WalkPt, OnPath, TreeOk, SameOutside, Present, PteIndex, Shr, LinkCell, IsTable;
      hide Answers, FreeFrames, Missing, MapsAnew, Translate, ZeroRange;
      ghost var st, m := St(), pm.ram.mem;
      VRepParts(L, st, m);
      WalkSupply(L, st, va, large);
      var flag := Or(PG_P, PG_RW);
      FlagWords();
      if va >= USER_ADDR_START {
        flag := Or(flag, PG_US);
      }
      PteIndexIs(va, 1);
      var pd :- WalkToDirectory(va, create, flag);
      ghost var st2, m2 := St(), pm.ram.mem;
      DirectoryFacts(L, st, st2, va, create);
      VRepParts(L, st2, m2);
      if pd == 0 {
        CellAnswers(L, st2, m2, va);
        return Done(0);
      }
      PathTable(v, PathPos(v, va, 2));
      DownLink(L, st2, m2, va, 1);
      var cell := pd + 8 * PteIndex(va, 21);
      var e :- FillDirectory(cell, va, create, large, flag);
      ghost var st1, m1 := St(), pm.ram.mem;
      AfterPd(L, st, st2, st1, va, create, large);
      VmKeptTrans(L, st, st2, st1, m, m2, m1);
      if e == 0 {
        CellAnswers(L, st1, m1, va);
        return Done(0);
      }
      r := WalkTable(e, cell, va, create, flag);
      if r.Done? {
        if create && Translate(m, pgdir, va).None? { PageStaysAway(L, st, st2, st1, m, St(), pm.ram.mem, va, large); }
        VmKeptTrans(L, st, st1, St(), m, m1, pm.ram.mem);
        CellAnswers(L, St(), pm.ram.mem, va);
      }
    }

    /** The table at `p` and all below it are still in use and as they were in memory `m0`. */
    ghost predicate FreeingTable(p: Pos, m0: Mem, table: int)
      reads this, pm, pm.ram
    {
      && pm.L == L && pm.Valid() && |pm.g.free| == 3 && Freeing(pm.g, v) && IsProcessTable(v, p)
      && SubtreeUsed(pm.g, v, p)
      && table == Frame(v.ent[p]) && VmRep(m0, v) && PmFrame(L, pm.g, m0, pm.ram.mem)
    }

    /** The first n children of `p`, in use in `g`, have been given back. */
    ghost predicate FreeingLoop(g: PmState, p: Pos, m0: Mem, n: nat)
      reads this, pm, pm.ram
    {
      && pm.L == L && pm.Valid() && |g.free| == 3 && Freeing(g, v) && IsProcessTable(v, p) && SubtreeUsed(g, v, p)
      && VmRep(m0, v)
      && n <= ENTRIES && AllMapped(v, Kids(v, p, n)) && pm.g == PushAll(g, Frames(v, Kids(v, p, n)))
      && PmFrame(L, pm.g, m0, pm.ram.mem)
    }

    ghost predicate FreedKids(g: PmState, p: Pos, m0: Mem)
      reads this, pm, pm.ram
    {
      && pm.L == L && pm.Valid() && |g.free| == 3 && p.level >= 1 && AllMapped(v, Kids(v, p, ENTRIES))
      && pm.g == PushAll(g, Frames(v, Kids(v, p, ENTRIES))) && PmFrame(L, pm.g, m0, pm.ram.mem)
    }

    /** `pmfree` of a frame of the tree; what is still in use is as it was in `m0`. */
    method ReleaseFrame(f: int, ghost m0: Mem)
      requires pm.L == L && pm.Valid() && |pm.g.free| == 3 && IsUsed(pm.g, f) && pm.g.blocks[f] == 0
      requires PmFrame(L, pm.g, m0, pm.ram.mem)
      modifies pm, pm.ram
      ensures pm.Valid() && pm.g == Push(old(pm.g), 0, f) && PmFrame(L, pm.g, m0, pm.ram.mem)
    {
      hide PmCore, PmRep, PmFrame, IsUsed;
      ghost var g, m := pm.g, pm.ram.mem;
      UsedInRange(L, g, f);
      PushInv(L, g, 0, f);
      var _ := pm.Pmfree(f, PM_4K);
      FrameTrans(L, g, pm.g, pm.g, m0, m, pm.ram.mem);
    }

    /** The innermost loop of `free_uvm`: gives back the pages of one page table. */
    method FreePages(pt: int, ghost p: Pos, ghost m0: Mem)
      requires FreeingTable(p, m0, pt) && p.level == 1
      modifies pm, pm.ram
      ensures FreedKids(old(pm.g), p, m0)
    {
      hide PmInv, PmCore, PmRep, PmFrame, VmRep, IsUsed, Freeing, SubtreeUsed, IsTable, Frame, Frames, Kids, PostOrder;
      hide And, Child, PushAll;
      ghost var g := pm.g;
      KidsStart(g, v, p);
      for k := 0 to ENTRIES
        invariant FreeingLoop(g, p, m0, k)
      {
        TableEntry(L, g, pm.g, v, m0, pm.ram.mem, p, k);
        KidsNext(g, v, p, k);
        var e := pm.ram.Load(pt + 8 * k);
        EntryTest(e);
        if And(e, PG_P) != 0 {
          PostOrderLast(pm.g, v, Child(p, k));
          ReleaseFrame(And(e, Not(0xFFF)), m0);
        }
      }
    }

    /** The middle loop: gives back the page tables of one page directory, each after its pages. */
    method FreeTables(pd: int, ghost p: Pos, ghost m0: Mem)
      requires FreeingTable(p, m0, pd) && p.level == 2
      modifies pm, pm.ram
      ensures FreedKids(old(pm.g), p, m0)
    {
      hide PmInv, PmCore, PmRep, PmFrame, VmRep, IsUsed, Freeing, SubtreeUsed, IsTable, Frame, Frames, Kids, PostOrder;
      hide And, Child, PushAll;
      ghost var g := pm.g;
      KidsStart(g, v, p);
      for j := 0 to ENTRIES
        invariant FreeingLoop(g, p, m0, j)
      {
        TableEntry(L, g, pm.g, v, m0, pm.ram.mem, p, j);
        KidsNext(g, v, p, j);
        var e := pm.ram.Load(pd + 8 * j);
        EntryTest(e);
        if And(e, PG_P) != 0 {
          var pt := And(e, Not(0xFFF));
          PostOrderLast(pm.g, v, Child(p, j));
          ChildTable(pm.g, v, p, j);
          FreePages(pt, Child(p, j), m0);
          ReleaseFrame(pt, m0);
        }
      }
    }

    /** The outer loop: gives back the page directories of a PDPT, each after its tables. */
    method FreeDirectories(pdpt: int, ghost p: Pos, ghost m0: Mem)
      requires FreeingTable(p, m0, pdpt) && p.level == 3
      modifies pm, pm.ram
      ensures FreedKids(old(pm.g), p, m0)
    {
      hide PmInv, PmCore, PmRep, PmFrame, VmRep, IsUsed, Freeing, SubtreeUsed, IsTable, Frame, Frames, Kids, PostOrder;
      hide And, Child, PushAll;
      ghost var g := pm.g;
      KidsStart(g, v, p);
      for i := 0 to ENTRIES
        invariant FreeingLoop(g, p, m0, i)
      {
        TableEntry(L, g, pm.g, v, m0, pm.ram.mem, p, i);
        KidsNext(g, v, p, i);
        var e := pm.ram.Load(pdpt + 8 * i);
        EntryTest(e);
        if And(e, PG_P) != 0 {
          var pd := And(e, Not(0xFFF));
          PostOrderLast(pm.g, v, Child(p, i));
          ChildTable(pm.g, v, p, i);
          FreeTables(pd, Child(p, i), m0);
          ReleaseFrame(pd, m0);
        }
      }
    }

    /** `free_uvm`: gives back the whole tree of a process, leaves first. Its words are read only while
        their table is still in use, and every freed frame was a frame of this process. */
    method FreeUvm(proc: int, ghost home: int) returns (r: Outcome<()>)
      requires Valid() && proc % 8 == 0
      requires Outside(St(), home) && home <= proc && proc + PROC_UPML4 < home + Size(pm.g.blocks[home])
      requires Present(At(pm.ram.mem, proc + PROC_UPML4)) ==>
        UserRoot(proc) in v.ent && v.ent[UserRoot(proc)] == At(pm.ram.mem, proc + PROC_UPML4)
      requires 0 <= At(pm.ram.mem, proc + PROC_UPML4) < WORD_LIMIT
      modifies this`v, pm, pm.ram
      ensures r.Panic? <==> !Present(At(old(pm.ram.mem), proc + PROC_UPML4))
      ensures r.Panic? ==> St() == old(St()) && pm.ram.mem == old(pm.ram.mem)
      ensures r.Done? ==>
        && UserRoot(proc) in old(v).ent && |old(pm.g).free| == 3 && St() == PageFree.FreeUvm(old(St()), proc)
        && pm.Valid() && At(pm.ram.mem, proc + PROC_UPML4) == 0
        && (forall b, x :: Outside(old(St()), b) && b <= x < b + Size(old(pm.g).blocks[b]) && x != proc + PROC_UPML4 ==>
              At(pm.ram.mem, x) == At(old(pm.ram.mem), x))
        && Spared(L, pm.g, old(pm.ram.mem), pm.ram.mem, {proc + PROC_UPML4})
        && (Valid() <==> old(v).active != Some(proc))
      ensures r.Done? && old(v).active == Some(proc) ==>
        && At(pm.ram.mem, pgdir + 8 * USER_SLOT) == At(old(pm.ram.mem), proc + PROC_UPML4)
        && NamesHead(pm.g, At(pm.ram.mem, pgdir + 8 * USER_SLOT))
    {
      hide PmInv, PmCore, PmRep, PmFrame, VmRep, VRep, StOk, IsUsed, Freeing, SubtreeUsed, IsTable, Frame, Frames, Kids;
      hide PostOrder, And, Child, PushAll, Outside, WithoutSpace, PageFree.FreeUvm, Present, Spared, NamesHead;
      hide TreeOk, FramesOk, AllMapped, IsProcessTable, Shaped, HasPS, Not;
      ghost var st, m0 := St(), pm.ram.mem;
      ghost var p := UserRoot(proc);
      VRepParts(L, st, m0);
      UpmlAligned(proc);
      var upml4 := pm.ram.Load(proc + PROC_UPML4);
      PageWordOps(upml4);
      EntryTest(upml4);
      if And(upml4, PG_P) == 0 {
        return Panic;
      }
      ghost var g := pm.g;
      FreeUvmStart(L, st, m0, proc);
      var pdpt := And(upml4, Not(0xFFF));
      FreeDirectories(pdpt, p, m0);
      PostOrderLast(g, v, p);
      StillUsed(g, v, p, ENTRIES);
      ReleaseFrame(pdpt, m0);
      FreeUvmEnd(L, st, pm.g, m0, pm.ram.mem, proc, home, upml4);
      pm.ram.Store(proc + PROC_UPML4, 0);
      v := WithoutSpace(v, proc);
      return Done(());
    }

    /** `vm_init`: afterwards the processor translates every address below 4 GiB to itself. The check
        for a NULL result of `walk_pgdir` never fires. */
    method VmInit() returns (r: Outcome<()>)
      requires pm.L == L && pm.Valid()
      modifies this, pm, pm.ram
      ensures PmInv(L, old(pm.g)) && |old(pm.g).free| == 3
      ensures r.Panic? <==> FreeFrames(old(pm.g)) < VM_FRAMES
      ensures r.Panic? <==> PageInit.VmInit(L, old(pm.g)).Panic?
      ensures r.Done? ==>
        && Valid() && PageInit.VmInit(L, old(pm.g)) == Done(St()) && v.active == None
        && (forall va: nat :: va < LOW_LIMIT ==> Translate(pm.ram.mem, pgdir, va) == Some(va))
        && (forall va: nat :: va < LOW_LIMIT ==> TranslateIf(pm.ram.mem, pgdir, va, PG_RW) == Some(va))
        && (forall va: nat :: va < USER_ADDR_START ==> TranslateIf(pm.ram.mem, pgdir, va, PG_US) == None)
        && PmFrame(L, old(pm.g), old(pm.ram.mem), pm.ram.mem)
    {
      hide PmInv, PmCore, PmRep, PmFrame, VmRep, VRep, StOk, SameOutside, MapPrefix, Walk, Walkable, Mapped, LeafCell;
      hide PageInit.VmInit, Alloc, AllocAddr, CanAlloc, VmKept, Translate, EmptyTree, TranslateIf, Answers, FreeFrames;
      hide Missing;
      ghost var g, m0 := pm.g, pm.ram.mem;
      VmInitSupply(L, g);
      VmInitIs(L, g);
      pgdir :- pm.Pmalloc(PM_4K);
      v := EmptyTree(pgdir);
      ghost var st0, m1 := St(), pm.ram.mem;
      EmptyTreeRep(L, g, m1);
      VmKeptRefl(L, st0, m1);
      var va := 0;
      while va < LOW_LIMIT
        invariant 0 <= va && va % LARGE == 0 && va / LARGE <= MAPPINGS
        invariant Valid() && StOk(L, st0) && st0.v.active == None && v.active == None && SameOutside(st0, St())
        invariant MapPrefix(L, st0, va / LARGE) == Done(St())
        invariant VmKept(L, st0, St(), m1, pm.ram.mem)
      {
        ghost var s, m, n := St(), pm.ram.mem, va / LARGE;
        NextLarge(va);
        VRepParts(L, s, m);
        MapStepIs(L, st0, s, n);
        var cell :- WalkPgdir(va, true, true);
        if cell == 0 {
          assert false;
        }
        VmKeptTrans(L, st0, s, St(), m1, m, pm.ram.mem);
        MapStepDone(L, st0, s, n);
        va := va + LARGE;
      }
      IdentityTranslation(L, g, St(), pm.ram.mem);
      EmptyTreeFrame(L, g, st0, St(), m0, m1, pm.ram.mem);
      return Done(());
    }

    /** `switch_uvm`: slot 2 of the PML4 becomes the tree of `proc`; no other word changes. */
    method SwitchUvm(proc: int)
      requires Valid() && proc % 8 == 0
      requires UserRoot(proc) in v.ent && v.ent[UserRoot(proc)] == At(pm.ram.mem, proc + PROC_UPML4)
      modifies this`v, pm.ram
      ensures Valid() && v == old(v).(active := Some(proc))
      ensures pm.ram.mem == Put(old(pm.ram.mem), pgdir + 8 * USER_SLOT, At(old(pm.ram.mem), proc + PROC_UPML4))
      ensures Spared(L, pm.g, old(pm.ram.mem), pm.ram.mem, {pgdir + 8 * USER_SLOT})
    {
      hide PmInv, PmCore, PmRep, PmFrame, VmRep, VRep, StOk, Outside, IsUsed, Spared, And, Shr, PteIndex, Frame, TreeOk;
      hide Present;
      ghost var st, m := St(), pm.ram.mem;
      UpmlAligned(proc);
      RootFacts(L, st, m, proc);
      UserSlot();
      PageDownIs(pgdir);
      var pml4 := PageDown(pgdir);
      var word := pm.ram.Load(proc + PROC_UPML4);
      LinkStep(L, st, m, proc);
      pm.ram.Store(pml4 + 8 * PteIndex(USER_ADDR_START, 39), word);
      v := v.(active := Some(proc));
      VRepParts(L, St(), pm.ram.mem);
    }
  }

  lemma NextLarge(va: nat)
    requires va % LARGE == 0 && va < LOW_LIMIT
    ensures (va + LARGE) % LARGE == 0 && (va + LARGE) / LARGE == va / LARGE + 1 <= MAPPINGS
    ensures va == (va / LARGE) * LARGE
  {
  }

  lemma MapStepIs(L: Layout, st: VmSt, s: VmSt, n: nat)
    requires StOk(L, st) && st.v.active == None && n < MAPPINGS && MapPrefix(L, st, n) == Done(s)
    ensures PmInv(L, s.g) && Walkable(s.v, n * LARGE) && n * LARGE < USER_ADDR_START
    ensures MapPrefix(L, st, n + 1) == Walk(L, s, n * LARGE, true)
    ensures MapPrefix(L, st, n + 1).Panic? ==> MapPrefix(L, st, MAPPINGS).Panic?
  {
    hide StOk, Walk, Idx, SameOutside, PmCore, PmInv, VmInv, FramesOk, TreeOk;
    LowAddress(n);
    StParts(L, s);
    PanicStays(L, st, n + 1, MAPPINGS);
  }

  lemma VmInitIs(L: Layout, g: PmState)
    requires PmInv(L, g)
    ensures |g.free| == 3 && (!CanAlloc(g, 0) ==> PageInit.VmInit(L, g).Panic?)
    ensures CanAlloc(g, 0) ==>
      var st := VmSt(Alloc(g, 0), EmptyTree(AllocAddr(g, 0)));
      StOk(L, st) && st.v.active == None && PageInit.VmInit(L, g) == MapPrefix(L, st, MAPPINGS)
  {
    hide PmInv, Alloc, AllocAddr, CanAlloc, StOk, MapPrefix, Outside;
    FreeLen(L, g);
    if CanAlloc(g, 0) { EmptyTreeOk(L, g); }
  }

  lemma MapStepDone(L: Layout, st: VmSt, s: VmSt, n: nat)
    requires StOk(L, st) && st.v.active == None && n < MAPPINGS && MapPrefix(L, st, n) == Done(s)
    requires MapPrefix(L, st, n + 1).Done?
    ensures SameOutside(st, MapPrefix(L, st, n + 1).value)
  {
    hide StOk, Walk, Idx, SameOutside;
  }

  lemma {:induction false} PanicStays(L: Layout, st: VmSt, n: nat, k: nat)
    requires StOk(L, st) && st.v.active == None && n <= k <= MAPPINGS
    ensures MapPrefix(L, st, n).Panic? ==> MapPrefix(L, st, k).Panic?
    decreases k
  {
    hide StOk, MapStep;
    if n < k { PanicStays(L, st, n, k - 1); }
  }

  lemma EmptyTreeRep(L: Layout, g: PmState, m: Mem)
    requires PmInv(L, g) && |g.free| == 3 && CanAlloc(g, 0) && PmRep(L, m, Alloc(g, 0))
    requires ZeroRange(m, AllocAddr(g, 0), PM_4K)
    ensures var st := VmSt(Alloc(g, 0), EmptyTree(AllocAddr(g, 0)));
      VRep(L, st, m) && StOk(L, st) && st.v.active == None && MapPrefix(L, st, 0) == Done(st) && SameOutside(st, st)
      && |st.g.free| == 3 && st.v.pgdir == AllocAddr(g, 0)
  {
    hide PmInv, PmCore, PmRep, IsUsed, Alloc, AllocAddr, CanAlloc;
    EmptyTreeOk(L, g);
    var st := VmSt(Alloc(g, 0), EmptyTree(AllocAddr(g, 0)));
    forall p, i: nat | p in st.v.ent && IsTable(p, st.v.ent[p]) && i < ENTRIES ensures EntryOk(m, st.v, p, i) {
      CellInFrame(st.v.pgdir, i);
    }
    StParts(L, st);
  }

  lemma IdentityTranslation(L: Layout, g: PmState, st: VmSt, m: Mem)
    requires PmInv(L, g) && VmInit(L, g) == Done(st) && VRep(L, st, m)
    ensures forall va: nat :: va < LOW_LIMIT ==> Translate(m, st.v.pgdir, va) == Some(va)
    ensures forall va: nat :: va < LOW_LIMIT ==> TranslateIf(m, st.v.pgdir, va, PG_RW) == Some(va)
    ensures forall va: nat :: va < USER_ADDR_START ==> TranslateIf(m, st.v.pgdir, va, PG_US) == None
  {
    hide StOk, VmRep, PmRep, Lookup, Translate, TranslateIf, PrefixOk, Outside, TreeOk, FramesOk, PmInv, PmCore;
    VmInitMeaning(L, g);
    StParts(L, st);
    forall va: nat | va < LOW_LIMIT ensures Translate(m, st.v.pgdir, va) == Some(va) {
      TranslateIsLookup(st.g, st.v, m, va);
      UserFlag(va);
    }
    forall va: nat | va < USER_ADDR_START
      ensures TranslateIf(m, st.v.pgdir, va, PG_US) == None
      ensures va < LOW_LIMIT ==> TranslateIf(m, st.v.pgdir, va, PG_RW) == Some(va)
    {
      RightsOfTables(st.g, st.v, m, va);
    }
  }

  lemma EmptyTreeFrame(L: Layout, g: PmState, st: VmSt, st': VmSt, m0: Mem, m1: Mem, m2: Mem)
    requires PmInv(L, g) && CanAlloc(g, 0) && st == VmSt(Alloc(g, 0), EmptyTree(AllocAddr(g, 0)))
    requires PmFrame(L, g, m0, m1) && VmKept(L, st, st', m1, m2) && SameOutside(st, st') && StOk(L, st')
    ensures PmFrame(L, g, m0, m2)
  {
    hide PmInv, PmCore, Outside, StOk, NewLinks;
    EmptyTreeOk(L, g);
    forall b, x | IsUsed(g, b) && b <= x < b + Size(g.blocks[b]) ensures At(m2, x) == At(m1, x) {
      assert Outside(st, b) && Outside(st', b);
      SameSize(st, st', b);
      LinksInTrees(L, st', st.v, b, x);
      StillThere(st, b);
    }
  }

  lemma SameSize(st: VmSt, st': VmSt, b: int)
    requires SameOutside(st, st') && Outside(st, b)
    ensures b in st'.g.blocks && b in st.g.blocks && st'.g.blocks[b] == st.g.blocks[b]
  {
    assert Outside(st', b);
    hide OwnsFrame;
  }

  lemma StillThere(st: VmSt, b: int)
    requires Outside(st, b)
    ensures IsUsed(st.g, b)
  {
  }

  lemma UserSlot()
    ensures PteIndex(USER_ADDR_START, 39) == USER_SLOT
  {
    hide PteIndex, Idx;
    PteIndexIs(USER_ADDR_START, 3);
    UserStartIdx();
  }

  lemma UserStartIdx()
    ensures Idx(USER_ADDR_START, 3) == USER_SLOT
  {
    assert Idx(USER_ADDR_START, 0) == 0x1000_0000;
    assert Idx(USER_ADDR_START, 1) == 0x8_0000;
    assert Idx(USER_ADDR_START, 2) == 1024;
  }

  lemma RootFacts(L: Layout, st: VmSt, m: Mem, proc: int)
    requires VRep(L, st, m) && UserRoot(proc) in st.v.ent
    ensures 0 <= st.v.pgdir < WORD_LIMIT && Frame(st.v.pgdir) == st.v.pgdir
    ensures 0 <= st.v.ent[UserRoot(proc)] < WORD_LIMIT
  {
    StParts(L, st);
    RootWord(st.v);
    assert Shaped(st.v, UserRoot(proc), st.v.ent[UserRoot(proc)]);
  }

  const SLOT := Pos(Kernel, 3, USER_SLOT)

  lemma LinkStep(L: Layout, st: VmSt, m: Mem, proc: int)
    requires VRep(L, st, m) && UserRoot(proc) in st.v.ent && Frame(st.v.pgdir) == st.v.pgdir
    ensures var c, st' := st.v.pgdir + 8 * USER_SLOT, VmSt(st.g, st.v.(active := Some(proc)));
      && c % 8 == 0 && VRep(L, st', Put(m, c, st.v.ent[UserRoot(proc)]))
      && Spared(L, st.g, m, Put(m, c, st.v.ent[UserRoot(proc)]), {c})
  {
    hide PmInv, PmCore, PmRep, VmRep, IsUsed, Frame, VmKept, TreeOk, FramesOk, StOk, Present;
    var c, st', w := st.v.pgdir + 8 * USER_SLOT, VmSt(st.g, st.v.(active := Some(proc))), st.v.ent[UserRoot(proc)];
    StParts(L, st);
    RootTable(st.v);
    CellWrite(L, st, m, SLOT, w);
    SwitchTree(L, st, proc);
    SwitchTables(st, m, proc);
  }

  lemma RootTable(v: VmState)
    requires TreeOk(v)
    ensures Linked(v, SLOT) && KROOT in v.ent && v.ent[KROOT] == v.pgdir && Parent(SLOT) == KROOT
  {
  }

  lemma SwitchTables(st: VmSt, m: Mem, proc: int)
    requires TreeOk(st.v) && FramesOk(st.g, st.v) && VmRep(m, st.v) && UserRoot(proc) in st.v.ent
    requires Frame(st.v.pgdir) == st.v.pgdir
    ensures VmRep(Put(m, st.v.pgdir + 8 * USER_SLOT, st.v.ent[UserRoot(proc)]), st.v.(active := Some(proc)))
  {
    hide TreeOk, FramesOk, Frame, Present, HasPS;
    var c, v', w := st.v.pgdir + 8 * USER_SLOT, st.v.(active := Some(proc)), st.v.ent[UserRoot(proc)];
    RootTable(st.v);
    FrameAligned(st.v.pgdir);
    forall p, i: nat | p in v'.ent && IsTable(p, v'.ent[p]) && i < ENTRIES ensures EntryOk(Put(m, c, w), v', p, i) {
      assert EntryOk(m, st.v, p, i);
      FramesDiffer(st.g, st.v, p, KROOT);
      FrameAligned(st.v.ent[p]);
      if Frame(st.v.ent[p]) + 8 * i == c { CellApart(Frame(st.v.ent[p]), i, st.v.pgdir, USER_SLOT); }
      if p == KROOT && i == USER_SLOT {} else { SwitchWord(st.v, proc, p, i); }
    }
  }

  lemma SwitchWord(v: VmState, proc: int, p: Pos, i: nat)
    requires p.level >= 1 && !(p == KROOT && i == USER_SLOT)
    ensures EntryWord(v.(active := Some(proc)), p, i) == EntryWord(v, p, i)
  {
  }

  lemma PanicAtTop(L: Layout, st: VmSt, va: nat)
    requires PmInv(L, st.g) && |st.g.free| == 3
    ensures Ensure(st, PathPos(st.v, va, 3), Flag(va)).Panic? ==> WalkTables(L, st, va).Panic?
    ensures Ensure(st, PathPos(st.v, va, 3), Flag(va)).Done? ==>
      var st3 := Ensure(st, PathPos(st.v, va, 3), Flag(va)).value;
      |st3.g.free| == 3 && WalkTables(L, st, va) == Ensure(st3, PathPos(st3.v, va, 2), Flag(va))
  {
    EnsureLen(L, st, PathPos(st.v, va, 3), Flag(va));
  }

  lemma AfterTop(L: Layout, st: VmSt, st3: VmSt, va: nat, create: bool)
    requires StOk(L, st) && |st.g.free| == 3 && Walkable(st.v, va)
    requires if create then Ensure(st, PathPos(st.v, va, 3), Flag(va)) == Done(st3) else st3 == st
    ensures SameOutside(st, st3) && st3.v.active == st.v.active && (create ==> OnPath(st, st3, va))
  {
    hide Idx, StOk;
    if create { TopOk(L, st, va); }
    OnPathOutside(st, st3, va, create);
  }

  lemma AfterDirectory(L: Layout, st: VmSt, st3: VmSt, st2: VmSt, va: nat, create: bool)
    requires StOk(L, st3) && |st3.g.free| == 3 && Walkable(st3.v, va) && PmInv(L, st.g) && |st.g.free| == 3
    requires var up := PathPos(st3.v, va, 3); up in st3.v.ent && IsTable(up, st3.v.ent[up])
    requires create ==> OnPath(st, st3, va) && Ensure(st, PathPos(st.v, va, 3), Flag(va)) == Done(st3)
    requires if create then Ensure(st3, PathPos(st3.v, va, 2), Flag(va)) == Done(st2) else st2 == st3
    ensures st2.v.active == st3.v.active && PathPos(st3.v, va, 3) in st2.v.ent
    ensures create ==> WalkTables(L, st, va) == Done(st2) && OnPath(st, st2, va)
  {
    hide Idx, StOk, OnPath, Ensure, PmInv;
    if create { DownOk(L, st, st3, va, 2); }
  }

  lemma ZeroIsAbsent()
    ensures And(0, PG_P) == 0
  {
  }

  lemma PresentBit(w: Word)
    requires Present(w)
    ensures And(w, PG_P) != 0
  {
    PageWordOps(w);
  }

  lemma VRepParts(L: Layout, st: VmSt, m: Mem)
    requires VRep(L, st, m)
    ensures StOk(L, st) && PmInv(L, st.g) && PmRep(L, m, st.g) && VmRep(m, st.v) && |st.g.free| == 3 && TreeOk(st.v)
  {
  }

  // ---- Steps of the walk, with the definitions hidden ----

  lemma LargeStep(L: Layout, st: VmSt, m: Mem, va: nat, p: Pos)
    requires VRep(L, st, m) && p == PathPos(st.v, va, 1) && p !in st.v.ent && CanExtend(st.v, p, Flag(va))
    requires va < USER_ADDR_START
    requires Parent(p) in st.v.ent
    ensures var st', m' := VmSt(st.g, Add(st.v, p, LargeWord(va))), Put(m, LinkCell(st.v, p), LargeWord(va));
      VRep(L, st', m') && VmKept(L, st, st', m, m')
  {
    hide Idx, VRep, HasPS, Present, Frame, VmKept, Linked, Slot;
    KernelPath(st.v, va);
    LargeWordFacts(va);
    DirectStep(L, st, m, p, LargeWord(va));
  }

  lemma LargeDownIs(va: nat)
    requires va < USER_ADDR_START
    ensures Or(Or(LargeDown(va), Flag(va)), PG_PS) == LargeWord(va) && 0 < LargeWord(va) < WORD_LIMIT
  {
    PageWordOps(va);
    LargeMultiple(va);
    LargeOrFlag(va - va % LARGE, 3);
  }

  lemma LargeMultiple(va: nat)
    ensures (va - va % LARGE) % LARGE == 0
  {
  }

  lemma SmallStep(L: Layout, st: VmSt, m: Mem, va: nat, p: Pos)
    requires VRep(L, st, m) && p == PathPos(st.v, va, 0) && p !in st.v.ent && CanExtend(st.v, p, Flag(va))
    requires va < USER_ADDR_START
    requires Parent(p) in st.v.ent
    ensures var st', m' := VmSt(st.g, Add(st.v, p, SmallWord(va))), Put(m, LinkCell(st.v, p), SmallWord(va));
      VRep(L, st', m') && VmKept(L, st, st', m, m')
  {
    hide Idx, VRep, HasPS, Present, Frame, VmKept, Linked, Slot;
    KernelPath(st.v, va);
    UserFlag(va);
    SmallWordFacts(va);
    DirectStep(L, st, m, p, SmallWord(va));
  }

  lemma SmallDownIs(va: nat)
    requires va < USER_ADDR_START
    ensures Or(PageDown(va), Flag(va)) == SmallWord(va) && 0 < SmallWord(va) < WORD_LIMIT
  {
    PageWordOps(va);
    FrameAligned(va);
    FrameOrFlag(va - va % PM_4K, 3);
  }

  lemma HasPSIs(w: Word)
    ensures And(w, PG_PS) != 0 <==> HasPS(w)
  {
    PageWordOps(w);
  }

  lemma CellIs(v: VmState, va: nat, level: nat)
    requires PathPos(v, va, level + 1) in v.ent
    ensures Parent(PathPos(v, va, level)) in v.ent
    ensures LinkCell(v,
      PathPos(v, va, level)) == Frame(v.ent[PathPos(v, va, level + 1)]) + 8 * (Idx(va, level) % ENTRIES)
  {
    PathParent(v, va, level);
  }

  /** What `walk_pgdir` answers: the entry of the page of `va` alone, or NULL if it is not mapped. */
  ghost predicate Answers(m: Mem, pgdir: int, va: nat, cell: int) {
    if cell == 0 then Translate(m, pgdir, va).None? else MapsAlone(m, pgdir, va, cell)
  }

  lemma CellAnswers(L: Layout, st: VmSt, m: Mem, va: nat)
    requires VRep(L, st, m) && Walkable(st.v, va)
    ensures Mapped(st.v, va) && LeafCell(st.v, va) != 0 ==> Answers(m, st.v.pgdir, va, LeafCell(st.v, va))
    ensures !Mapped(st.v, va) ==> Answers(m, st.v.pgdir, va, 0)
  {
    hide StOk, PmInv, PmCore, PmRep, VmRep, Idx, HasPS, MapsAlone, TreeOk, FramesOk, LinkCell, Lookup, Mapped, LeafCell;
    hide Translate;
    VRepTables(L, st, m);
    StParts(L, st);
    LookupMapped(st.v, va);
    TranslateIsLookup(st.g, st.v, m, va);
    if Mapped(st.v, va) {
      MappedLookup(st.v, va);
      LeafMapsAlone(st.g, st.v, m, va);
      LeafIs(st.v, va);
    }
  }

  lemma PageStaysAway(L: Layout, st: VmSt, st2: VmSt, st1: VmSt, m: Mem, st': VmSt, m': Mem, va: nat, large: bool)
    requires VRep(L, st, m) && VRep(L, st', m') && Walkable(st.v, va) && PmInv(L, st.g) && |st.g.free| == 3
    requires WalkTables(L, st, va) == Done(st2) && |st2.g.free| == 3 && WalkPd(st2, va, large) == Done(st1)
    requires Walk(L, st, va, large) == Done(st') && Translate(m, st.v.pgdir, va).None?
    requires var page := PathPos(st'.v, va, 0);
      va >= USER_ADDR_START && page !in st1.v.ent && page in st'.v.ent ==> ZeroRange(m', Frame(st'.v.ent[page]), PM_4K)
    ensures MapsAnew(st.g, m', st'.v.pgdir, va)
  {
    hide StOk, PmInv, PmRep, VmRep, Idx, Frame, Walk, WalkTables, WalkPd, Translate, ZeroRange, OnPath, MapsAnew;
    VRepParts(L, st, m);
    PageUntouched(L, st, st2, st1, va, large);
    WalkOk(L, st, va, large);
    PathActive(st, st', va);
    AnewInMemory(L, st, st', m, m', va, large);
  }

  lemma VRepTables(L: Layout, st: VmSt, m: Mem)
    requires VRep(L, st, m)
    ensures StOk(L, st) && VmRep(m, st.v)
  {
    hide StOk, PmRep, VmRep;
  }

  lemma LeafIs(v: VmState, va: nat)
    requires Mapped(v, va) && Parent(Leaf(v, va)) in v.ent
    ensures LeafCell(v, va) == LinkCell(v, Leaf(v, va))
  {
    hide Idx, HasPS, Frame;
  }

  lemma EntryRange(v: VmState, p: Pos)
    requires TreeOk(v) && p in v.ent
    ensures 0 <= v.ent[p] < WORD_LIMIT
  {
    assert Shaped(v, p, v.ent[p]);
  }

  lemma CellPositive(L: Layout, st: VmSt, p: Pos)
    requires StOk(L, st) && p in st.v.ent && !IsRoot(p)
    ensures Parent(p) in st.v.ent && LinkCell(st.v, p) > 0
  {
    StParts(L, st);
    assert Linked(st.v, p);
    CellInFrame(st.v.ent[Parent(p)], p.idx % ENTRIES);
    UsedAbove(L, st.g, Frame(st.v.ent[Parent(p)]));
  }

  lemma DirectoryFacts(L: Layout, st: VmSt, st2: VmSt, va: nat, create: bool)
    requires StOk(L, st) && Walkable(st.v, va) && PmInv(L, st.g)
    requires if create then WalkTables(L, st, va) == Done(st2) else st2 == st
    ensures st2.v.active == st.v.active && SameOutside(st, st2) && (create ==> OnPath(st, st2, va))
  {
    hide StOk, Idx;
    if create { WalkTablesOk(L, st, va); }
    OnPathOutside(st, st2, va, create);
  }

  lemma AfterPd(L: Layout, st: VmSt, st2: VmSt, st1: VmSt, va: nat, create: bool, large: bool)
    requires StOk(L, st2) && |st2.g.free| == 3 && Walkable(st2.v, va) && (create ==> OnPath(st, st2, va))
    requires (!create ==> st2 == st)
    requires var up := PathPos(st2.v, va, 2); up in st2.v.ent && IsTable(up, st2.v.ent[up])
    requires if create then WalkPd(st2, va, large) == Done(st1) else st1 == st2
    ensures st1.v.active == st2.v.active && SameOutside(st, st1) && (create ==> OnPath(st, st1, va))
    ensures forall q :: q in st2.v.ent ==> q in st1.v.ent && st1.v.ent[q] == st2.v.ent[q]
  {
    hide StOk, Idx, OnPath, WalkPd, HasPS;
    if create { PdOk(L, st, st2, va, large); }
    OnPathOutside(st, st1, va, create);
  }

  lemma AfterPt(L: Layout, st: VmSt, st1: VmSt, st0: VmSt, va: nat, create: bool)
    requires StOk(L, st1) && |st1.g.free| == 3 && Walkable(st1.v, va) && (create ==> OnPath(st, st1, va))
    requires (!create ==> st1 == st)
    requires PathPos(st1.v, va, 1) in st1.v.ent
    requires if create then WalkPt(st1, va) == Done(st0) else st0 == st1
    ensures st0.v.active == st1.v.active && SameOutside(st, st0)
    ensures forall q :: q in st1.v.ent ==> q in st0.v.ent && st0.v.ent[q] == st1.v.ent[q]
  {
    hide StOk, Idx, OnPath, WalkPt, HasPS;
    if create { PtOk(L, st, st1, va); }
    OnPathOutside(st, st0, va, create);
  }

  lemma LargeLeaf(L: Layout, st: VmSt, va: nat)
    requires |st.g.free| == 3
    requires PathPos(st.v, va, 3) in st.v.ent && PathPos(st.v, va, 2) in st.v.ent && PathPos(st.v, va, 1) in st.v.ent
    requires HasPS(st.v.ent[PathPos(st.v, va, 1)])
    ensures WalkPt(st, va) == Done(st)
  {
    hide Idx;
  }

  // ---- Steps of free_uvm ----

  lemma UsedInRange(L: Layout, g: PmState, f: int)
    requires PmInv(L, g) && IsUsed(g, f)
    ensures L.kernelEnd <= f < L.memTotal
  {
  }

  lemma KidsStart(g: PmState, v: VmState, p: Pos)
    requires p.level >= 1 && |g.free| == 3
    ensures AllMapped(v, Kids(v, p, 0)) && PushAll(g, Frames(v, Kids(v, p, 0))) == g
  {
    KidsMapped(v, p, 0);
    assert Frames(v, []) == [];
  }

  lemma EntryTest(e: Word)
    ensures And(e, PG_P) != 0 <==> Present(e)
    ensures And(e, Not(0xFFF)) == Frame(e)
  {
    PageWordOps(e);
  }

  /** The entry read at index k is the tree's word: its table has not been freed, so no link has
      been written over it. */
  lemma TableEntry(L: Layout, g: PmState, gk: PmState, v: VmState, m0: Mem, m: Mem, p: Pos, k: nat)
    requires Freeing(g, v) && IsProcessTable(v, p) && SubtreeUsed(g, v, p) && VmRep(m0, v) && k < ENTRIES
    requires AllMapped(v, Kids(v, p, k)) && gk == PushAll(g, Frames(v, Kids(v, p, k))) && PmFrame(L, gk, m0, m)
    ensures |gk.free| == 3 && (Frame(v.ent[p]) + 8 * k) % 8 == 0
    ensures var c, e := Child(p, k), At(m, Frame(v.ent[p]) + 8 * k);
      && 0 <= e < WORD_LIMIT && (Present(e) <==> c in v.ent) && c.level == p.level - 1 && c.level <= 2
      && (c in v.ent ==>
            e == v.ent[c] && Freeing(gk, v) && SubtreeUsed(gk, v, c) && IsUsed(gk, Frame(e))
              && gk.blocks[Frame(e)] == 0)
  {
    hide Frame, Frames, Kids, PushAll, Under, Present, Freeing, SubtreeUsed, VmRep, PmFrame, IsUsed, TreeOk, Child;
    StillUsed(g, v, p, k);
    FreeingTree(g, v);
    FreeingTree(gk, v);
    UserOwned(v, p);
    CellInFrame(v.ent[p], k);
    UsedCell(L, gk, m0, m, Frame(v.ent[p]), Frame(v.ent[p]) + 8 * k);
    ChildOf(p, k);
    WalkEntry(m0, v, p, Child(p, k));
    ZeroWord();
    if Child(p, k) in v.ent {
      UserOwned(v, Child(p, k));
      SubtreeRoot(gk, v, Child(p, k));
    }
  }

  lemma ChildOf(p: Pos, k: nat)
    requires p.level >= 1 && k < ENTRIES
    ensures var c := Child(p, k);
      Parent(c) == p && c.idx % ENTRIES == k && c.level == p.level - 1 && c.space == p.space
  {
    ChildParent(p, k);
  }

  lemma FreeingTree(g: PmState, v: VmState)
    requires Freeing(g, v)
    ensures TreeOk(v) && |g.free| == 3
  {
  }

  lemma SubtreeRoot(g: PmState, v: VmState, p: Pos)
    requires SubtreeUsed(g, v, p) && p in v.ent
    ensures IsUsed(g, Frame(v.ent[p])) && g.blocks[Frame(v.ent[p])] == 0
  {
    SelfUnder(p);
  }

  lemma UsedCell(L: Layout, g: PmState, m: Mem, m': Mem, f: int, x: int)
    requires PmFrame(L, g, m, m') && IsUsed(g, f) && g.blocks[f] == 0 && f <= x < f + PM_4K
    ensures At(m', x) == At(m, x)
  {
  }

  /** A child that is itself a table, and that is still in use once its own children are gone. */
  lemma ChildTable(g: PmState, v: VmState, p: Pos, j: nat)
    requires Freeing(g, v) && IsProcessTable(v, p) && p.level >= 2 && j < ENTRIES && Child(p, j) in v.ent
    requires SubtreeUsed(g, v, Child(p, j))
    ensures var c := Child(p, j);
      && IsProcessTable(v, c) && c.level == p.level - 1 && AllMapped(v, Kids(v, c, ENTRIES))
      && var g' := PushAll(g, Frames(v, Kids(v, c, ENTRIES)));
      && IsUsed(g', Frame(v.ent[c]))
      && g'.blocks[Frame(v.ent[c])] == 0
  {
    StillUsed(g, v, Child(p, j), ENTRIES);
  }

  lemma FreeUvmStart(L: Layout, st: VmSt, m: Mem, id: int)
    requires VRep(L, st, m) && UserRoot(id) in st.v.ent
    ensures Freeing(st.g, st.v) && IsProcessTable(st.v, UserRoot(id)) && SubtreeUsed(st.g, st.v, UserRoot(id))
    ensures PmFrame(L, st.g, m, m) && AllMapped(st.v, PostOrder(st.v, UserRoot(id)))
  {
    StParts(L, st);
    FreeingFrom(st.g, st.v);
    FrameRefl(L, st.g, m);
    PostOrderMapped(st.v, UserRoot(id));
    forall q | q in st.v.ent && Under(q, UserRoot(id))
      ensures IsUsed(st.g, Frame(st.v.ent[q])) && st.g.blocks[Frame(st.v.ent[q])] == 0
    {
      AncestorSpace(q, 3);
      UserOwned(st.v, q);
    }
  }

  lemma UpmlAligned(proc: int)
    requires proc % 8 == 0
    ensures (proc + PROC_UPML4) % 8 == 0
  {
  }

  /** After the last frame has been given back and the root word cleared. */
  lemma FreeUvmEnd(L: Layout, st: VmSt, g': PmState, m0: Mem, m: Mem, proc: int, home: int, w: int)
    requires VRep(L, st, m0) && UserRoot(proc) in st.v.ent && |st.g.free| == 3
    requires AllMapped(st.v, PostOrder(st.v, UserRoot(proc)))
    requires g' == PushAll(st.g, Frames(st.v, PostOrder(st.v, UserRoot(proc))))
    requires PmInv(L, g') && PmRep(L, m, g') && PmFrame(L, g', m0, m) && |g'.free| == 3
    requires Outside(st, home) && home <= proc && proc + PROC_UPML4 < home + Size(st.g.blocks[home])
    requires w == st.v.ent[UserRoot(proc)] && Present(w) && g'.free[0] != [] && g'.free[0][0] == Frame(w)
    ensures var m2, st' := Put(m, proc + PROC_UPML4, 0), PageFree.FreeUvm(st, proc);
      && st' == VmSt(g', WithoutSpace(st.v, proc)) && st'.v.pgdir == st.v.pgdir && PmRep(L, m2, g')
      && (forall b, x :: Outside(st, b) && b <= x < b + Size(st.g.blocks[b]) && x != proc + PROC_UPML4 ==>
            At(m2, x) == At(m0, x))
      && (VRep(L, st', m2) <==> st.v.active != Some(proc))
      && Spared(L, g', m0, m2, {proc + PROC_UPML4})
      && (st.v.active == Some(proc) ==> At(m2, st.v.pgdir + 8 * USER_SLOT) == w && NamesHead(g', w))
  {
    hide PmInv, PmRep, PmFrame, VRep, StOk, IsUsed, Frames, PostOrder, PushAll, Outside, Spared, Present, Frame;
    hide PageFree.FreeUvm;
    hide WithoutSpace, NamesHead;
    JustFreed(L, g', Frame(w), w);
    FreeUvmDone(L, st, g', m0, m, proc, home);
    SlotKept(L, st, g', m0, m, proc, home);
  }

  lemma FreeUvmDone(L: Layout, st: VmSt, g': PmState, m0: Mem, m: Mem, proc: int, home: int)
    requires VRep(L, st, m0) && UserRoot(proc) in st.v.ent && |st.g.free| == 3
    requires AllMapped(st.v, PostOrder(st.v, UserRoot(proc)))
    requires g' == PushAll(st.g, Frames(st.v, PostOrder(st.v, UserRoot(proc))))
    requires PmInv(L, g') && PmRep(L, m, g') && PmFrame(L, g', m0, m)
    requires Outside(st, home) && home <= proc && proc + PROC_UPML4 < home + Size(st.g.blocks[home])
    ensures var m2, st' := Put(m, proc + PROC_UPML4, 0), PageFree.FreeUvm(st, proc);
      && st' == VmSt(g', WithoutSpace(st.v, proc)) && st'.v.pgdir == st.v.pgdir && PmRep(L, m2, g') && |g'.free| == 3
      && (forall b, x :: Outside(st, b) && b <= x < b + Size(st.g.blocks[b]) && x != proc + PROC_UPML4 ==>
            At(m2, x) == At(m0, x))
      && (VRep(L, st', m2) <==> st.v.active != Some(proc))
  {
    hide PmCore, PmRep, PmFrame, VmRep, StOk, IsUsed, OwnsFrame, Frames, PostOrder, PushAll;
    var m2, st' := Put(m, proc + PROC_UPML4, 0), PageFree.FreeUvm(st, proc);
    FreeUvmOk(L, st, proc);
    FreeLen(L, g');
    FreedOutsideKept(L, st, st', m0, m);
    assert Outside(st', home);
    UsedWritePm(L, g', m, m2, home);
    StParts(L, st);
    if st.v.active != Some(proc) {
      FreedTables(L, st, st', m0, m, proc);
      StParts(L, st');
      OutsideWriteTables(L, st', m, m2, home);
    }
  }

  /** A present table word whose frame is the head of the 4K free list, the next block `pmalloc` hands out. */
  ghost predicate NamesHead(g: PmState, w: int) {
    && Present(w) && |g.free| == 3 && g.free[0] != [] && Frame(w) == g.free[0][0] && !IsUsed(g, Frame(w))
  }

  lemma JustFreed(L: Layout, g: PmState, f: int, w: int)
    requires PmInv(L, g) && |g.free| == 3 && g.free[0] != [] && g.free[0][0] == f && Present(w) && Frame(w) == f
    ensures NamesHead(g, w)
  {
    HeadNotUsed(L, g, 0);
    hide PmInv, Frame, Present;
  }

  /** What is still in use is as it was but for the cell that is zeroed, and slot 2 of the PML4, whose
      frame is the kernel's, still holds the word of the process if it was linked there. */
  lemma SlotKept(L: Layout, st: VmSt, g': PmState, m0: Mem, m: Mem, proc: int, home: int)
    requires VRep(L, st, m0) && UserRoot(proc) in st.v.ent && |st.g.free| == 3
    requires AllMapped(st.v, PostOrder(st.v, UserRoot(proc)))
    requires g' == PushAll(st.g, Frames(st.v, PostOrder(st.v, UserRoot(proc)))) && PmFrame(L, g', m0, m)
    requires Outside(st, home) && home <= proc && proc + PROC_UPML4 < home + Size(st.g.blocks[home])
    ensures var m2 := Put(m, proc + PROC_UPML4, 0);
      && Spared(L, g', m0, m2, {proc + PROC_UPML4})
      && (st.v.active == Some(proc) ==> At(m2, st.v.pgdir + 8 * USER_SLOT) == st.v.ent[UserRoot(proc)])
  {
    hide PmCore, PmRep, PmFrame, IsUsed, Frames, PostOrder, PushAll, TreeOk, FramesOk, PmInv, Spared, StOk, VmRep;
    hide Outside;
    var st' := PageFree.FreeUvm(st, proc);
    FreeUvmOk(L, st, proc);
    RootFacts(L, st, m0, proc);
    VRepParts(L, st, m0);
    StParts(L, st);
    KernelFrame(L, st, st', home);
    StillThere(st, home);
    UsedAbove(L, st.g, home);
    FramePlusCell(L, g', m0, m, proc + PROC_UPML4);
    if st.v.active == Some(proc) {
      SlotWord(st.v, m0, proc);
      UsedCell(L, g', m0, m, st.v.pgdir, st.v.pgdir + 8 * USER_SLOT);
    }
  }

  /** Slot 2 holds the root word of the linked process. */
  lemma SlotWord(v: VmState, m: Mem, proc: int)
    requires TreeOk(v) && VmRep(m, v) && v.active == Some(proc) && Frame(v.pgdir) == v.pgdir
    ensures UserRoot(proc) in v.ent && At(m, v.pgdir + 8 * USER_SLOT) == v.ent[UserRoot(proc)]
  {
    hide Shaped, HasPS, Frame;
    RootTable(v);
    assert EntryOk(m, v, KROOT, USER_SLOT);
  }

  lemma FramePlusCell(L: Layout, g: PmState, m0: Mem, m: Mem, c: int)
    requires PmFrame(L, g, m0, m) && c >= L.kernelEnd
    ensures Spared(L, g, m0, Put(m, c, 0), {c})
  {
    hide IsUsed;
  }

  /** The PML4 stays in use and is apart from every block outside the trees. */
  lemma KernelFrame(L: Layout, st: VmSt, st': VmSt, home: int)
    requires StOk(L, st) && FramesOk(st'.g, st'.v) && KROOT in st'.v.ent && st'.v.ent[KROOT] == st.v.ent[KROOT]
    requires Outside(st, home) && Frame(st.v.pgdir) == st.v.pgdir
    ensures IsUsed(st'.g, st.v.pgdir) && st'.g.blocks[st.v.pgdir] == 0
    ensures home + Size(st.g.blocks[home]) <= st.v.pgdir || st.v.pgdir + PM_4K <= home
  {
    hide Frame, Shaped, HasPS, PmInv;
    StParts(L, st);
    RootTable(st.v);
    assert Owned(KROOT, st.v.ent[KROOT]) && OwnsFrame(st.v, st.v.pgdir);
    BlocksApart(L, st.g, home, st.v.pgdir);
  }

  lemma FreedOutsideKept(L: Layout, st: VmSt, st': VmSt, m0: Mem, m: Mem)
    requires SameOutside(st, st') && PmFrame(L, st'.g, m0, m)
    ensures forall b, x :: Outside(st, b) && b <= x < b + Size(st.g.blocks[b]) ==> At(m, x) == At(m0, x)
  {
    hide OwnsFrame;
    forall b, x | Outside(st, b) && b <= x < b + Size(st.g.blocks[b]) ensures At(m, x) == At(m0, x) {
      assert Outside(st', b);
    }
  }

  /** The remaining trees are in memory exactly as before. */
  lemma FreedTables(L: Layout, st: VmSt, st': VmSt, m0: Mem, m: Mem, id: int)
    requires TreeOk(st.v) && VmRep(m0, st.v) && st'.v == WithoutSpace(st.v, id) && st.v.active != Some(id)
    requires FramesOk(st'.g, st'.v) && PmFrame(L, st'.g, m0, m)
    ensures VmRep(m, st'.v)
  {
    forall p, i: nat | p in st'.v.ent && IsTable(p, st'.v.ent[p]) && i < ENTRIES ensures EntryOk(m, st'.v, p, i) {
      FreedEntry(L, st, st', m0, m, id, p, i);
    }
  }

  lemma FreedEntry(L: Layout, st: VmSt, st': VmSt, m0: Mem, m: Mem, id: int, p: Pos, i: nat)
    requires TreeOk(st.v) && VmRep(m0, st.v) && st'.v == WithoutSpace(st.v, id) && st.v.active != Some(id)
    requires FramesOk(st'.g, st'.v) && PmFrame(L, st'.g, m0, m)
    requires p in st'.v.ent && IsTable(p, st'.v.ent[p]) && i < ENTRIES
    ensures EntryOk(m, st'.v, p, i)
  {
    hide Frame, TreeOk, Shaped, HasPS, EntryWord;
    assert EntryOk(m0, st.v, p, i);
    assert IsUsed(st'.g, Frame(st'.v.ent[p])) && st'.g.blocks[Frame(st'.v.ent[p])] == 0;
    CellInFrame(st'.v.ent[p], i);
    hide FramesOk, VmRep, IsUsed;
    assert At(m, Frame(st'.v.ent[p]) + 8 * i) == At(m0, Frame(st'.v.ent[p]) + 8 * i);
    SameEntryWord(st.v, id, p, i);
  }

  lemma SameEntryWord(v: VmState, id: int, p: Pos, i: nat)
    requires v.active != Some(id) && p.level >= 1 && p.space != User(id)
    ensures EntryWord(WithoutSpace(v, id), p, i) == EntryWord(v, p, i)
  {
  }

  /** Writing inside a block outside the trees leaves the tables alone. */
  lemma OutsideWriteTables(L: Layout, st: VmSt, m: Mem, m': Mem, b: int)
    requires StOk(L, st) && VmRep(m, st.v) && Outside(st, b)
    requires forall x :: !(b <= x < b + Size(st.g.blocks[b])) ==> At(m', x) == At(m, x)
    ensures VmRep(m', st.v)
  {
    forall p, i: nat | p in st.v.ent && IsTable(p, st.v.ent[p]) && i < ENTRIES ensures EntryOk(m', st.v, p, i) {
      assert EntryOk(m, st.v, p, i);
      assert OwnsFrame(st.v, Frame(st.v.ent[p]));
      CellInFrame(st.v.ent[p], i);
      BlocksApart(L, st.g, b, Frame(st.v.ent[p]));
    }
  }
}
