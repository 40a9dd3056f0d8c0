/** Who may use a mapping, and what clearing the entry of one page does. */
module Access {
  import opened Bits
  import opened Memory
  import opened Blocks
  import opened PageTables
  import opened PageWalk
  import opened PageMem
  import opened PageSupply

  /** Every entry of a tree may be written through, and is open to user mode from slot 2 on. */
  lemma EntryRights(v: VmState, p: Pos, va: nat)
    requires TreeOk(v) && p in v.ent && p.level <= 3 && Slot(p) == Idx(va, 3)
    ensures Allows(v.ent[p], PG_RW) && (Allows(v.ent[p], PG_US) <==> va >= USER_ADDR_START)
  {
    hide Idx, Slot, HasPS;
    assert Shaped(v, p, v.ent[p]);
    UserFlag(va);
    RightsBits(v.ent[p]);
  }

  lemma RightsBits(w: int)
    ensures w % 8 == 3 ==> Allows(w, PG_RW) && !Allows(w, PG_US)
    ensures w % 8 == 7 ==> Allows(w, PG_RW) && Allows(w, PG_US)
  {
    var q := w / 8;
    if w % 8 == 3 { EighthBits(w, q, 1); } else if w % 8 == 7 { EighthBits(w, q, 3); }
  }

  lemma EighthBits(w: int, q: int, r: int)
    requires w == 8 * q + 2 * r + 1 && (r == 1 || r == 3)
    ensures Present(w) && (w / 2) % 2 == 1 && (w / 4) % 2 == r / 2
  {
    ModUnique(w, 2, 4 * q + r, 1);
    ModUnique(4 * q + r, 2, 2 * q + r / 2, 1);
    ModUnique(w, 4, 2 * q + r / 2, 3);
    ModUnique(2 * q + r / 2, 2, q, r / 2);
  }

  /** Every mapped address may be written, and user mode reaches exactly the mapped addresses from the
      start of the user range on. */
  lemma RightsOfTables(g: PmState, v: VmState, m: Mem, va: nat)
    requires VmInv(g, v) && VmRep(m, v) && va < VA_LIMIT
    ensures TranslateIf(m, v.pgdir, va, PG_RW) == Translate(m, v.pgdir, va)
    ensures TranslateIf(m, v.pgdir, va, PG_US) == if va >= USER_ADDR_START then Translate(m, v.pgdir, va) else None
  {
    hide Idx, Slot, Frame, Present, HasPS, FramesOk, VmRep, TreeOk, Allows;
    var p3, p2, p1, p0 := PathPos(v, va, 3), PathPos(v, va, 2), PathPos(v, va, 1), PathPos(v, va, 0);
    TopEntry(g, v, m, va);
    PathParent(v, va, 2);
    PathParent(v, va, 1);
    PathParent(v, va, 0);
    ZeroWord();
    ZeroRights();
    if !(Idx(va, 3) == USER_SLOT && v.active.None?) && p3 in v.ent {
      PathLinked(v, p3, p2);
      PathLinked(v, p2, p1);
      PathLinked(v, p1, p0);
      PathRights(v, va, 3);
      WalkEntry(m, v, p3, p2);
      if p2 in v.ent {
        PathRights(v, va, 2);
        WalkEntry(m, v, p2, p1);
        if p1 in v.ent {
          PathRights(v, va, 1);
          if !HasPS(v.ent[p1]) {
            WalkEntry(m, v, p1, p0);
            if p0 in v.ent { PathRights(v, va, 0); }
          }
        }
      }
    }
  }

  lemma ZeroRights()
    ensures !Allows(0, PG_RW) && !Allows(0, PG_US)
  {
  }

  lemma PathRights(v: VmState, va: nat, level: nat)
    requires TreeOk(v) && level <= 3 && PathPos(v, va, level) in v.ent
    ensures var w := v.ent[PathPos(v, va, level)];
      Present(w) && Allows(w, PG_RW) && (Allows(w, PG_US) <==> va >= USER_ADDR_START)
  {
    hide Idx, Slot, Allows, TreeOk;
    PathSlot(v, va, level);
    EntryRights(v, PathPos(v, va, level), va);
    AllowsPresent(v.ent[PathPos(v, va, level)]);
  }

  lemma AllowsPresent(w: int)
    ensures Allows(w, PG_RW) ==> Present(w)
  {
  }

  // ---- The entry of one page ----

  function PageBytes(w: int): nat {
    if HasPS(w) then LARGE else PM_4K
  }

  /** The word at `cell` maps `va`, and clearing it unmaps the page of `va` and nothing else: it is the
      entry of that page alone. */
  ghost predicate MapsAlone(m: Mem, pgdir: int, va: nat, cell: int) {
    var w := At(m, cell);
    && Translate(m, pgdir, va) == Some(if HasPS(w) then w - w % LARGE + va % LARGE else Frame(w) + va % PM_4K)
    && forall w', va': nat :: !Present(w') && va' < VA_LIMIT ==> ClearedAt(m, pgdir, va, cell, w', va')
  }

  ghost predicate ClearedAt(m: Mem, pgdir: int, va: nat, cell: int, w': int, va': nat) {
    var n := PageBytes(At(m, cell));
    Translate(Put(m, cell, w'), pgdir, va') == if va' / n == va / n then None else Translate(m, pgdir, va')
  }

  /** The position whose entry maps `va`. */
  ghost function Leaf(v: VmState, va: nat): Pos {
    var large := PathPos(v, va, 1);
    if large in v.ent && HasPS(v.ent[large]) then large else PathPos(v, va, 0)
  }

  ghost function Unmapped(v: VmState, p: Pos): VmState {
    v.(ent := v.ent - {p})
  }

  lemma LeafFacts(v: VmState, va: nat)
    requires TreeOk(v) && Walkable(v, va) && Lookup(v, va).Some?
    ensures var p := Leaf(v, va);
      && p in v.ent && p.level <= 1 && !IsRoot(p) && !IsTable(p, v.ent[p]) && Linked(v, p) && Shaped(v, p, v.ent[p])
      && (HasPS(v.ent[p]) <==> p.level == 1) && p == PathPos(v, va, p.level)
      && Lookup(v, va) == Some(if HasPS(v.ent[p]) then v.ent[p] - v.ent[p] % LARGE + va % LARGE
                               else Frame(v.ent[p]) + va % PM_4K)
  {
    hide Idx, HasPS, Slot, Present, Frame;
    var p := Leaf(v, va);
    assert Shaped(v, p, v.ent[p]) && (!IsRoot(p) ==> Linked(v, p));
  }

  lemma WithoutTree(v: VmState, p: Pos)
    requires TreeOk(v) && p in v.ent && p.level <= 1 && !IsTable(p, v.ent[p])
    ensures TreeOk(Unmapped(v, p))
  {
    hide HasPS, Slot, Present;
    var v' := Unmapped(v, p);
    forall q | q in v'.ent ensures Shaped(v', q, v'.ent[q]) && (!IsRoot(q) ==> Linked(v', q)) {
      assert Shaped(v, q, v.ent[q]) && (!IsRoot(q) ==> Linked(v, q));
    }
  }

  lemma WithoutRep(g: PmState, v: VmState, m: Mem, p: Pos)
    requires VmInv(g, v) && VmRep(m, v) && p in v.ent && p.level <= 1 && !IsTable(p, v.ent[p]) && Linked(v, p)
    ensures VmInv(g, Unmapped(v, p)) && VmRep(Put(m, LinkCell(v, p), 0), Unmapped(v, p))
  {
    hide Frame, HasPS, Slot, Present, EntryWord, TreeOk;
    var v', c := Unmapped(v, p), LinkCell(v, p);
    WithoutTree(v, p);
    forall q, i: nat | q in v'.ent && IsTable(q, v'.ent[q]) && i < ENTRIES ensures EntryOk(Put(m, c, 0), v', q, i) {
      WithoutEntry(g, v, m, p, q, i);
    }
  }

  lemma WithoutEntry(g: PmState, v: VmState, m: Mem, p: Pos, q: Pos, i: nat)
    requires VmInv(g, v) && VmRep(m, v) && p in v.ent && p.level <= 1 && !IsTable(p, v.ent[p]) && Linked(v, p)
    requires q in v.ent && q != p && IsTable(q, v.ent[q]) && i < ENTRIES && TreeOk(Unmapped(v, p))
    ensures EntryOk(Put(m, LinkCell(v, p), 0), Unmapped(v, p), q, i)
  {
    hide Frame, HasPS, Slot, Present, EntryWord, TreeOk, FramesOk;
    var v', up := Unmapped(v, p), Parent(p);
    assert EntryOk(m, v, q, i);
    WordsWithout(v, p, q, i);
    FrameAligned(v.ent[up]);
    FrameAligned(v.ent[q]);
    PageWalk.FramesDiffer(g, v, q, up);
    if Frame(v.ent[q]) + 8 * i == Frame(v.ent[up]) + 8 * (p.idx % ENTRIES) {
      CellApart(Frame(v.ent[q]), i, Frame(v.ent[up]), p.idx % ENTRIES);
    }
  }

  lemma WordsWithout(v: VmState, p: Pos, q: Pos, i: nat)
    requires TreeOk(v) && p in v.ent && p.level <= 1 && q in v.ent && q != p && q.level >= 1 && i < ENTRIES
    ensures EntryWord(Unmapped(v, p), q, i) == if q == Parent(p) && i == p.idx % ENTRIES then 0 else EntryWord(v, q, i)
  {
    hide TreeOk;
    ChildParent(q, i);
    ParentChild(p);
  }

  lemma SamePageIs(va: nat, va': nat)
    ensures Idx(va, 0) == Idx(va', 0) <==> va / PM_4K == va' / PM_4K
    ensures Idx(va, 1) == Idx(va', 1) <==> va / LARGE == va' / LARGE
  {
    LargeIdx(va);
    LargeIdx(va');
  }

  lemma LargeIdx(va: nat)
    ensures Idx(va, 1) == va / LARGE
  {
    DivTwice(va, PM_4K, ENTRIES);
    assert Idx(va, 1) == Idx(va, 0) / ENTRIES;
  }

  /** Without the leaf of `va` its page is absent and every other page translates as before. */
  lemma LookupWithout(v: VmState, va: nat, va': nat)
    requires TreeOk(v) && Walkable(v, va) && Lookup(v, va).Some?
    ensures var p := Leaf(v, va);
      Lookup(Unmapped(v, p), va') == if Idx(va', p.level) == Idx(va, p.level) then None else Lookup(v, va')
  {
    hide HasPS, Slot, Frame, TreeOk, Idx, Shaped, Linked, IsTable, Walkable;
    LeafFacts(v, va);
    LargeThenNoPage(v, va);
    LargeThenNoPage(v, va');
    SpaceFromIdx(v, va, va');
  }

  lemma SpaceFromIdx(v: VmState, va: nat, va': nat)
    ensures Idx(va', 0) == Idx(va, 0) ==> Idx(va', 1) == Idx(va, 1)
    ensures Idx(va', 1) == Idx(va, 1) ==> SpaceOf(v, va') == SpaceOf(v, va) && Idx(va', 3) == Idx(va, 3)
  {
    assert Idx(va, 2) == Idx(va, 1) / ENTRIES && Idx(va', 2) == Idx(va', 1) / ENTRIES;
    assert Idx(va, 3) == Idx(va, 2) / ENTRIES && Idx(va', 3) == Idx(va', 2) / ENTRIES;
  }

  /** A walk that meets either of two absent words goes nowhere else. */
  lemma AbsentAlike(m: Mem, cell: int, w': int, pgdir: int, va: nat)
    requires !Present(w')
    ensures Translate(Put(m, cell, w'), pgdir, va) == Translate(Put(m, cell, 0), pgdir, va)
  {
    hide Frame, HasPS, Idx;
    ZeroWord();
  }

  /** The link cell of the leaf of a mapped address is the entry of its page. */
  lemma LeafMapsAlone(g: PmState, v: VmState, m: Mem, va: nat)
    requires VmInv(g, v) && VmRep(m, v) && Walkable(v, va) && Lookup(v, va).Some?
    ensures Parent(Leaf(v, va)) in v.ent && MapsAlone(m, v.pgdir, va, LinkCell(v, Leaf(v, va)))
  {
    hide TreeOk, FramesOk, VmRep, Idx, HasPS, Present, Frame, Slot, Translate, Lookup, LinkCell;
    var p := Leaf(v, va);
    LeafFacts(v, va);
    LinkedUp(v, p);
    LeafWord(v, m, p);
    TranslateIsLookup(g, v, m, va);
    var c, v' := LinkCell(v, p), Unmapped(v, p);
    WithoutRep(g, v, m, p);
    forall w', va': nat | !Present(w') && va' < VA_LIMIT ensures ClearedAt(m, v.pgdir, va, c, w', va') {
      AbsentAlike(m, c, w', v.pgdir, va');
      TranslateIsLookup(g, v', Put(m, c, 0), va');
      TranslateIsLookup(g, v, m, va');
      LookupWithout(v, va, va');
      SpaceFromIdx(v, va, va');
      SamePageIs(va, va');
    }
  }

  lemma LeafWord(v: VmState, m: Mem, p: Pos)
    requires VmRep(m, v) && Linked(v, p) && p in v.ent && p.level <= 1
    ensures At(m, LinkCell(v, p)) == v.ent[p]
  {
    ReadLink(v, m, p);
  }

  // ---- A new mapping ----

  /** The levels above a page are filled in without touching the page's own position. */
  lemma PageUntouched(L: Layout, st: VmSt, st2: VmSt, st1: VmSt, va: nat, large: bool)
    requires PmInv(L, st.g) && WalkTables(L, st, va) == Done(st2) && |st.g.free| == 3 && |st2.g.free| == 3
    requires WalkPd(st2, va, large) == Done(st1)
    ensures st1.v.active == st.v.active && (PathPos(st.v, va, 0) in st1.v.ent <==> PathPos(st.v, va, 0) in st.v.ent)
    ensures PathPos(st1.v, va, 0) == PathPos(st.v, va, 0)
  {
    hide PmInv, Idx, Ensure, Flag, LargeWord;
    EnsureLen(L, st, PathPos(st.v, va, 3), Flag(va));
    EnsureSupply(st, PathPos(st.v, va, 3), Flag(va));
    var st3 := Ensure(st, PathPos(st.v, va, 3), Flag(va)).value;
    EnsureSupply(st3, PathPos(st3.v, va, 2), Flag(va));
    EnsureSupply(st2, PathPos(st2.v, va, 1), Flag(va));
  }

  /** What a walk maps anew: below the user range the address itself, in it a frame not in use before. */
  lemma NewMapping(L: Layout, st: VmSt, va: nat, large: bool)
    requires StOk(L, st) && Walkable(st.v, va) && Walk(L, st, va, large).Done? && Lookup(st.v, va).None?
    ensures var st', page := Walk(L, st, va, large).value, PathPos(st.v, va, 0);
      && PathPos(st'.v, va, 0) == page
      && if va < USER_ADDR_START then Lookup(st'.v, va) == Some(va)
         else
           && page in st'.v.ent && page !in st.v.ent && !IsUsed(st.g, Frame(st'.v.ent[page]))
           && Lookup(st'.v, va) == Some(Frame(st'.v.ent[page]) + va % PM_4K)
  {
    hide StOk, PmInv, Idx, HasPS, Frame, WalkTables, WalkPd, TreeOk, FramesOk, LargeWord, SmallWord, OnPath, Ensure;
    hide IsUsed;
    StParts(L, st);
    WalkOk(L, st, va, large);
    WalkTablesOk(L, st, va);
    var st2 := WalkTables(L, st, va).value;
    StParts(L, st2);
    PathTable(st2.v, PathPos(st2.v, va, 2));
    PdOk(L, st, st2, va, large);
    var st1 := WalkPd(st2, va, large).value;
    StParts(L, st1);
    PageUntouched(L, st, st2, st1, va, large);
    LargeThenNoPage(st.v, va);
    var st', page := Walk(L, st, va, large).value, PathPos(st.v, va, 0);
    PathActive(st, st', va);
    SamePath(st, st', va);
    SamePath(st, st1, va);
    LargeWordFacts(va);
    SmallWordFacts(va);
    if va >= USER_ADDR_START && page !in st1.v.ent {
      NewFrame(L, st, st1, page, Flag(va), va);
    }
  }

  lemma PathUsed(st: VmSt, st': VmSt, va: nat)
    requires OnPath(st, st', va)
    ensures forall b :: IsUsed(st.g, b) ==> IsUsed(st'.g, b)
  {
    hide IsUsed, SameOutside, Idx;
  }

  lemma NewFrame(L: Layout, st: VmSt, st1: VmSt, p: Pos, flag: int, va: nat)
    requires StOk(L, st1) && |st1.g.free| == 3 && OnPath(st, st1, va) && p !in st1.v.ent && flag in {3, 7}
    ensures Ensure(st1, p, flag).Done? ==>
      && p in Ensure(st1, p, flag).value.v.ent && !IsUsed(st.g, Frame(Ensure(st1, p, flag).value.v.ent[p]))
  {
    hide StOk, Idx, Frame, SameOutside, PmInv, Alloc, AllocAddr, CanAlloc, IsUsed, VmInv;
    hide OwnsFrame, Present, HasPS, OnPath;
    PathUsed(st, st1, va);
    if CanAlloc(st1.g, 0) {
      FreshFrame(L, st1);
      PlainWord(AllocAddr(st1.g, 0), flag);
    }
  }

  /** In memory: the address itself below the user range, in it a zeroed frame that was not in use. */
  ghost predicate MapsAnew(g: PmState, m: Mem, pgdir: int, va: nat) {
    var t := Translate(m, pgdir, va);
    && t.Some? && t.value % PM_4K == va % PM_4K
    && if va < USER_ADDR_START then t.value == va
       else !IsUsed(g, Frame(t.value)) && ZeroRange(m, Frame(t.value), PM_4K)
  }

  lemma AnewInMemory(L: Layout, st: VmSt, st': VmSt, m: Mem, m': Mem, va: nat, large: bool)
    requires VRep(L, st, m) && VRep(L, st', m') && Walkable(st.v, va) && PmInv(L, st.g)
    requires Walk(L, st, va, large) == Done(st') && Translate(m, st.v.pgdir, va).None?
    requires var page := PathPos(st'.v, va, 0);
      va >= USER_ADDR_START && page !in st.v.ent && page in st'.v.ent ==> ZeroRange(m', Frame(st'.v.ent[page]), PM_4K)
    ensures MapsAnew(st.g, m', st'.v.pgdir, va)
  {
    hide StOk, PmInv, PmRep, VmRep, Idx, HasPS, Frame, TreeOk, FramesOk, Walk, Translate, Lookup, IsUsed, ZeroRange;
    hide OnPath;
    StParts(L, st);
    StParts(L, st');
    WalkOk(L, st, va, large);
    PathActive(st, st', va);
    TranslateIsLookup(st.g, st.v, m, va);
    TranslateIsLookup(st'.g, st'.v, m', va);
    NewMapping(L, st, va, large);
    if va >= USER_ADDR_START { PageOffset(st'.v.ent[PathPos(st'.v, va, 0)], va); }
  }

  lemma PathActive(st: VmSt, st': VmSt, va: nat)
    requires OnPath(st, st', va)
    ensures st'.v.active == st.v.active && st'.v.pgdir == st.v.pgdir
  {
    hide SameOutside;
  }

  lemma PageOffset(w: int, va: nat)
    ensures Frame(Frame(w) + va % PM_4K) == Frame(w) && (Frame(w) + va % PM_4K) % PM_4K == va % PM_4K
  {
    ModUnique(Frame(w) + va % PM_4K, PM_4K, w / PM_4K, va % PM_4K);
  }
}
