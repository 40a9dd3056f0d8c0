/** The abstract page-table state: which positions of which tree are mapped by which entry words, its
    invariant, its memory representation, and the translation both define. Pure. */
module PageTables {
  import opened Bits
  import opened Memory
  import opened Blocks

  const PG_P := 1
  const PG_RW := 2
  const PG_US := 4
  const PG_PS := 128
  const USER_ADDR_START := 0x100_0000_0000
  const ENTRIES := 512
  const LARGE := 0x20_0000
  const VA_LIMIT := 0x1_0000_0000_0000
  const USER_SLOT := 2

  datatype Space = Kernel | User(id: int)

  /** A node of a tree: level 4 is the PML4, 3 a PDPT, 2 a PD, 1 a PT or a 2 MiB page, 0 a 4 KiB page.
      `idx` is the virtual address it covers divided by the bytes it covers. The tree of a process is
      rooted at its PDPT, position (3, 2), which the kernel's PML4 links in slot 2. */
  datatype Pos = Pos(space: Space, level: nat, idx: nat)

  const KROOT := Pos(Kernel, 4, 0)

  ghost function UserRoot(id: int): Pos {
    Pos(User(id), 3, USER_SLOT)
  }

  ghost predicate IsRoot(p: Pos) {
    p.level == 4 || (p.space.User? && p.level == 3)
  }

  ghost function Child(p: Pos, i: nat): Pos
    requires p.level >= 1
  {
    Pos(p.space, p.level - 1, p.idx * ENTRIES + i)
  }

  ghost function Parent(p: Pos): Pos {
    Pos(p.space, p.level + 1, p.idx / ENTRIES)
  }

  /** Index of `va` at a level: `va >> 12`, `va >> 21`, `va >> 30`, `va >> 39`. */
  function Idx(va: nat, level: nat): nat {
    if level == 0 then va / PM_4K else Idx(va, level - 1) / ENTRIES
  }

  /** The PML4 slot a position lies under. */
  ghost function Slot(p: Pos): nat
    decreases 3 - p.level
  {
    if p.level >= 3 then p.idx else Slot(Parent(p))
  }

  // ---- Entry words ----

  predicate Present(w: int) {
    w % 2 == 1
  }

  predicate HasPS(w: int) {
    (w / 128) % 2 == 1
  }

  function Frame(w: int): int {
    w - w % PM_4K
  }

  ghost predicate IsTable(p: Pos, w: int) {
    p.level >= 1 && !(p.level == 1 && HasPS(w))
  }

  /** The position's frame belongs to the tree: a table, or a page of user memory. */
  ghost predicate Owned(p: Pos, w: int) {
    IsTable(p, w) || (p.level == 0 && (p.space.User? || p.idx >= USER_ADDR_START / PM_4K))
  }

  /** `active` is the process whose PDPT is linked in slot 2. */
  datatype VmState = VmState(ent: map<Pos, int>, pgdir: int, active: Option<int>)

  /** Low three bits of an entry: present and writable, and open to user mode from slot 2 on. */
  ghost function RightsAt(slot: nat): int {
    if slot >= USER_SLOT then PG_P + PG_RW + PG_US else PG_P + PG_RW
  }

  ghost predicate Shaped(v: VmState, p: Pos, w: int) {
    && p.level <= 4 && 0 <= w < WORD_LIMIT
    && (p.level == 4 ==> p == KROOT)
    && (p.level <= 3 ==> Present(w) && (p.space.User? <==> Slot(p) == USER_SLOT) && w % 8 == RightsAt(Slot(p)))
    && (p.space.User? ==> w % PM_4K == PG_P + PG_RW + PG_US)
    && (p.level != 1 ==> !HasPS(w))
  }

  ghost predicate Linked(v: VmState, p: Pos) {
    Parent(p) in v.ent && IsTable(Parent(p), v.ent[Parent(p)])
  }

  ghost predicate OwnsFrame(v: VmState, f: int) {
    exists p :: p in v.ent && Owned(p, v.ent[p]) && Frame(v.ent[p]) == f
  }

  ghost predicate TreeOk(v: VmState) {
    && KROOT in v.ent && v.ent[KROOT] == v.pgdir && v.pgdir % PM_4K == 0
    && (forall p :: p in v.ent ==> Shaped(v, p, v.ent[p]) && (!IsRoot(p) ==> Linked(v, p)))
    && (v.active.Some? ==> UserRoot(v.active.value) in v.ent)
  }

  ghost predicate FramesOk(g: PmState, v: VmState) {
    && (forall p :: p in v.ent && Owned(p, v.ent[p]) ==> IsUsed(g, Frame(v.ent[p])) && g.blocks[Frame(v.ent[p])] == 0)
    && (forall p, q :: p in v.ent && q in v.ent && Owned(p, v.ent[p]) && Owned(q, v.ent[q]) && p != q ==>
          Frame(v.ent[p]) != Frame(v.ent[q]))
  }

  ghost predicate VmInv(g: PmState, v: VmState) {
    TreeOk(v) && FramesOk(g, v)
  }

  // ---- Memory representation ----

  /** The word at index i of the table at `p`: empty means not present. */
  ghost function EntryWord(v: VmState, p: Pos, i: nat): int
    requires p.level >= 1
  {
    if p == KROOT && i == USER_SLOT then
      (if v.active.Some? && UserRoot(v.active.value) in v.ent then v.ent[UserRoot(v.active.value)] else 0)
    else if Child(p, i) in v.ent then v.ent[Child(p, i)] else 0
  }

  ghost predicate EntryOk(m: Mem, v: VmState, p: Pos, i: nat)
    requires p in v.ent && p.level >= 1
  {
    At(m, Frame(v.ent[p]) + 8 * i) == EntryWord(v, p, i)
  }

  ghost predicate VmRep(m: Mem, v: VmState) {
    forall p, i: nat :: p in v.ent && IsTable(p, v.ent[p]) && i < ENTRIES ==> EntryOk(m, v, p, i)
  }

  // ---- Translation ----

  /** What the processor does with `va`: Intel SDM Vol. 3A, 4-level paging. */
  function Translate(m: Mem, pgdir: int, va: nat): Option<int> {
    var e4 := At(m, Frame(pgdir) + 8 * (Idx(va, 3) % ENTRIES));
    if !Present(e4) then None else
    var e3 := At(m, Frame(e4) + 8 * (Idx(va, 2) % ENTRIES));
    if !Present(e3) then None else
    if HasPS(e3) then Some(e3 - e3 % 0x4000_0000 + va % 0x4000_0000) else
    var e2 := At(m, Frame(e3) + 8 * (Idx(va, 1) % ENTRIES));
    if !Present(e2) then None else
    if HasPS(e2) then Some(e2 - e2 % LARGE + va % LARGE) else
    var e1 := At(m, Frame(e2) + 8 * (Idx(va, 0) % ENTRIES));
    if !Present(e1) then None else Some(Frame(e1) + va % PM_4K)
  }

  predicate Allows(e: int, bit: nat)
    requires bit > 0
  {
    Present(e) && (e / bit) % 2 == 1
  }

  /** The same walk when every entry on the way must also have `bit` set: what user mode reaches is
      `PG_US`, what may be written is `PG_RW` (section 4.6 of the Intel SDM, volume 3A). */
  function TranslateIf(m: Mem, pgdir: int, va: nat, bit: nat): Option<int>
    requires bit > 0
  {
    var e4 := At(m, Frame(pgdir) + 8 * (Idx(va, 3) % ENTRIES));
    if !Allows(e4, bit) then None else
    var e3 := At(m, Frame(e4) + 8 * (Idx(va, 2) % ENTRIES));
    if !Allows(e3, bit) then None else
    if HasPS(e3) then Some(e3 - e3 % 0x4000_0000 + va % 0x4000_0000) else
    var e2 := At(m, Frame(e3) + 8 * (Idx(va, 1) % ENTRIES));
    if !Allows(e2, bit) then None else
    if HasPS(e2) then Some(e2 - e2 % LARGE + va % LARGE) else
    var e1 := At(m, Frame(e2) + 8 * (Idx(va, 0) % ENTRIES));
    if !Allows(e1, bit) then None else Some(Frame(e1) + va % PM_4K)
  }

  /** The tree `va` is looked up in. */
  ghost function SpaceOf(v: VmState, va: nat): Space {
    if Idx(va, 3) == USER_SLOT && v.active.Some? then User(v.active.value) else Kernel
  }

  ghost function PathPos(v: VmState, va: nat, level: nat): Pos {
    Pos(SpaceOf(v, va), level, Idx(va, level))
  }

  /** The finite map the tables stand for. */
  ghost function Lookup(v: VmState, va: nat): Option<int> {
    var large, page := PathPos(v, va, 1), PathPos(v, va, 0);
    if large in v.ent && HasPS(v.ent[large]) then Some(v.ent[large] - v.ent[large] % LARGE + va % LARGE)
    else if page in v.ent then Some(Frame(v.ent[page]) + va % PM_4K)
    else None
  }

  // ---- Arithmetic of positions ----

  lemma ChildParent(p: Pos, i: nat)
    requires p.level >= 1 && i < ENTRIES
    ensures Parent(Child(p, i)) == p && Child(p, i).idx % ENTRIES == i
  {
    ModUnique(p.idx * ENTRIES + i, ENTRIES, p.idx, i);
  }

  lemma ParentChild(p: Pos)
    ensures Child(Parent(p), p.idx % ENTRIES) == p
  {
  }

  lemma TopIdx(va: nat)
    requires va < VA_LIMIT
    ensures Idx(va, 3) < ENTRIES && Idx(va, 4) == 0
  {
    assert Idx(va, 0) < 0x10_0000_0000;
    assert Idx(va, 1) < 0x800_0000 && Idx(va, 2) < 0x4_0000 && Idx(va, 3) < 512;
  }

  lemma PathParent(v: VmState, va: nat, level: nat)
    ensures Parent(PathPos(v, va, level)) == PathPos(v, va, level + 1)
  {
  }

  lemma {:induction false} PathSlot(v: VmState, va: nat, level: nat)
    requires level <= 3
    ensures Slot(PathPos(v, va, level)) == Idx(va, 3)
    decreases 3 - level
  {
    if level < 3 { PathParent(v, va, level); PathSlot(v, va, level + 1); }
  }

  // ---- The tables in memory translate as the map says ----

  lemma WalkEntry(m: Mem, v: VmState, p: Pos, c: Pos)
    requires VmRep(m, v) && p in v.ent && IsTable(p, v.ent[p]) && Parent(c) == p && c.level <= 3
    requires p == KROOT ==> c.idx % ENTRIES != USER_SLOT
    ensures At(m, Frame(v.ent[p]) + 8 * (c.idx % ENTRIES)) == if c in v.ent then v.ent[c] else 0
  {
    ParentChild(c);
    assert EntryOk(m, v, p, c.idx % ENTRIES);
  }

  lemma TopEntry(g: PmState, v: VmState, m: Mem, va: nat)
    requires VmInv(g, v) && VmRep(m, v) && va < VA_LIMIT
    ensures var p := PathPos(v, va, 3);
      At(m, Frame(v.pgdir) + 8 * (Idx(va, 3) % ENTRIES)) ==
        if (Idx(va, 3) == USER_SLOT ==> v.active.Some?) && p in v.ent then v.ent[p] else 0
  {
    hide Idx, Slot, Frame;
    TopIdx(va);
    var i := Idx(va, 3);
    SmallMod(i);
    assert EntryOk(m, v, KROOT, i);
    assert Child(KROOT, i) == Pos(Kernel, 3, i);
  }

  lemma SmallMod(i: nat)
    requires i < ENTRIES
    ensures i % ENTRIES == i
  {
  }

  lemma TranslateIsLookup(g: PmState, v: VmState, m: Mem, va: nat)
    requires VmInv(g, v) && VmRep(m, v) && va < VA_LIMIT
    ensures Translate(m, v.pgdir, va) == if Idx(va, 3) == USER_SLOT && v.active.None? then None else Lookup(v, va)
  {
    hide Idx, Slot, Frame, Present, HasPS, FramesOk, VmRep;
    var p3, p2, p1, p0 := PathPos(v, va, 3), PathPos(v, va, 2), PathPos(v, va, 1), PathPos(v, va, 0);
    TopEntry(g, v, m, va);
    PathParent(v, va, 2);
    PathParent(v, va, 1);
    PathParent(v, va, 0);
    ZeroWord();
    if !(Idx(va, 3) == USER_SLOT && v.active.None?) {
      PathLinked(v, p3, p2);
      PathLinked(v, p2, p1);
      PathLinked(v, p1, p0);
      if p3 in v.ent {
        WalkEntry(m, v, p3, p2);
        if p2 in v.ent {
          WalkEntry(m, v, p2, p1);
          if p1 in v.ent && !HasPS(v.ent[p1]) { WalkEntry(m, v, p1, p0); }
        }
      }
    }
  }

  lemma ZeroWord()
    ensures !Present(0)
  {
  }

  /** A mapped position below the top has its table mapped, and table words above level 1 are plain. */
  lemma PathLinked(v: VmState, p: Pos, c: Pos)
    requires TreeOk(v) && Parent(c) == p && 1 <= p.level <= 3
    ensures c in v.ent ==> p in v.ent && IsTable(p, v.ent[p]) && Present(v.ent[c])
    ensures p in v.ent ==> Present(v.ent[p]) && (p.level >= 2 ==> IsTable(p, v.ent[p]) && !HasPS(v.ent[p]))
  {
    if c in v.ent { assert Linked(v, c); assert Shaped(v, c, v.ent[c]); }
    if p in v.ent { assert Shaped(v, p, v.ent[p]); }
  }
}
