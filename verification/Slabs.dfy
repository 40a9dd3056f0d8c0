/** The abstract state of the slab allocator: for each class an ordered list of slab headers, for
    each header its page and occupied slots, and for each occupied slot whether a client or a slab
    header lives in it. Pure; the class in SlabAlloc.dfy refines these transitions. */
module Slabs {
  import opened Bits
  import opened Memory
  import opened Blocks

  const CLASSES := 14
  const SLAB_4K := 6
  const SLAB_MIN_SIZE := 64
  const HEADER_BYTES := 24

  function ClassSize(k: nat): int {
    SLAB_MIN_SIZE * Pow2(k)
  }

  function PageLevel(k: nat): nat {
    if k > SLAB_4K then 1 else 0
  }

  function Slots(k: nat): int {
    Size(PageLevel(k)) / ClassSize(k)
  }

  datatype Slab = Slab(cls: nat, page: int, bits: set<nat>)

  datatype Occupant = Occupant(hdr: int, slot: nat, client: bool)

  /** `dropped` holds the pages of emptied slabs above 64 bytes, which `kmfree` never gives back;
      `taken` and `returned` count the pages exchanged with the physical allocator. */
  datatype SlabState = SlabState(
    lists: seq<seq<int>>,
    slabs: map<int, Slab>,
    occ: map<int, Occupant>,
    dropped: set<int>,
    taken: nat,
    returned: nat)

  function StaticHdr(L: Layout, k: nat): int {
    L.slabs + HEADER_BYTES * k
  }

  ghost function SlotAddr(s: SlabState, h: int, j: nat): int
    requires h in s.slabs
  {
    s.slabs[h].page + j * ClassSize(s.slabs[h].cls)
  }

  ghost predicate Taken(s: SlabState, h: int, j: nat) {
    h in s.slabs && j in s.slabs[h].bits
  }

  ghost predicate IsClient(s: SlabState, a: int) {
    a in s.occ && s.occ[a].client
  }

  ghost predicate IsPage(s: SlabState, p: int) {
    exists h :: h in s.slabs && s.slabs[h].page == p
  }

  ghost function BlockClass(s: SlabState, a: int): nat
    requires a in s.occ && s.occ[a].hdr in s.slabs
  {
    s.slabs[s.occ[a].hdr].cls
  }

  // ---- Invariant ----

  ghost predicate ListsOk(L: Layout, s: SlabState) {
    && |s.lists| == CLASSES
    && (forall k :: 0 <= k < CLASSES ==> |s.lists[k]| > 0 && s.lists[k][0] == StaticHdr(L, k) && NoDup(s.lists[k]))
    && (forall k, h :: 0 <= k < CLASSES && h in s.lists[k] ==> h in s.slabs && s.slabs[h].cls == k)
    && (forall h :: h in s.slabs ==> s.slabs[h].cls < CLASSES && h in s.lists[s.slabs[h].cls])
  }

  ghost predicate PagesOk(g: PmState, s: SlabState) {
    && (forall h :: h in s.slabs ==>
          IsUsed(g, s.slabs[h].page) && g.blocks[s.slabs[h].page] == PageLevel(s.slabs[h].cls))
    && (forall h, h' :: h in s.slabs && h' in s.slabs && h != h' ==> s.slabs[h].page != s.slabs[h'].page)
    && (forall p :: p in s.dropped ==> IsUsed(g, p) && !IsPage(s, p))
    && s.taken == |s.slabs| + |s.dropped| + s.returned
  }

  ghost predicate SlotsOk(s: SlabState) {
    && (forall h, j: nat :: Taken(s, h, j) ==>
          j < Slots(s.slabs[h].cls) && SlotAddr(s, h, j) in s.occ
          && s.occ[SlotAddr(s, h, j)].hdr == h && s.occ[SlotAddr(s, h, j)].slot == j)
    && (forall a :: a in s.occ ==>
          Taken(s, s.occ[a].hdr, s.occ[a].slot) && a == SlotAddr(s, s.occ[a].hdr, s.occ[a].slot))
  }

  /** A header is static or occupies a 64-byte slot; a dynamic 64-byte slab holds its own header
      in slot 0 of its page. */
  ghost predicate HeadersOk(L: Layout, s: SlabState) {
    && (forall h :: h in s.slabs && h < L.kernelEnd ==> h == StaticHdr(L, s.slabs[h].cls))
    && (forall h :: h in s.slabs && h >= L.kernelEnd ==>
          && h in s.occ && !s.occ[h].client && s.occ[h].hdr in s.slabs && BlockClass(s, h) == 0
          && (s.slabs[h].cls == 0 ==> s.slabs[h].page == h && s.occ[h].hdr == h && s.occ[h].slot == 0))
    && (forall a :: a in s.occ && !s.occ[a].client ==> a in s.slabs && a >= L.kernelEnd)
  }

  /** A dynamic slab never stays listed without a client: its bitmap is not 0 and, for a 64-byte
      slab, not the lone bit of its own header. */
  ghost predicate InService(L: Layout, s: SlabState, h: int)
    requires h in s.slabs
  {
    h >= L.kernelEnd ==> s.slabs[h].bits != {} && (s.slabs[h].cls == 0 ==> s.slabs[h].bits != {0})
  }

  ghost predicate Placed(L: Layout, g: PmState, s: SlabState) {
    ListsOk(L, s) && PagesOk(g, s) && SlotsOk(s) && HeadersOk(L, s)
  }

  ghost predicate SlabInv(L: Layout, g: PmState, s: SlabState) {
    Placed(L, g, s) && forall h :: h in s.slabs ==> InService(L, s, h)
  }

  // ---- Geometry ----

  lemma ClassTable(k: nat)
    requires k < CLASSES
    ensures 1 <= Slots(k) <= 64 && Slots(k) * ClassSize(k) == Size(PageLevel(k))
    ensures 64 <= ClassSize(k) <= PM_512K && (k == 0 ==> ClassSize(k) == 64 && Slots(k) == 64)
    ensures k > SLAB_4K <==> ClassSize(k) > PM_4K
  {
    PowTable();
    if k < 7 {
      SmallDivision(k);
    } else {
      SmallDivision(k - 7);
      assert Pow2(k) == 128 * Pow2(k - 7) by { PowSum(k - 7, 7); }
    }
  }

  lemma PowTable()
    ensures Pow2(0) == 1 && Pow2(1) == 2 && Pow2(2) == 4 && Pow2(3) == 8 && Pow2(4) == 16 && Pow2(5) == 32
    ensures Pow2(6) == 64 && Pow2(7) == 128
  {
    assert Pow2(7) == 128;
  }

  lemma ClassSizes()
    ensures ClassSize(0) == 64 && ClassSize(1) == 128 && ClassSize(2) == 256 && ClassSize(3) == 512
    ensures ClassSize(4) == 0x400 && ClassSize(5) == 0x800 && ClassSize(6) == 0x1000 && ClassSize(7) == 0x2000
    ensures ClassSize(8) == 0x4000 && ClassSize(9) == 0x8000 && ClassSize(10) == 0x1_0000
    ensures ClassSize(11) == 0x2_0000 && ClassSize(12) == 0x4_0000 && ClassSize(13) == 0x8_0000
  {
    PowTable();
    PowSum(7, 1);
    PowSum(7, 2);
    PowSum(7, 3);
    PowSum(7, 4);
    PowSum(7, 5);
    PowSum(7, 6);
  }

  lemma SmallDivision(k: nat)
    requires k < 7
    ensures 1 <= Pow2(k) <= 64 && 64 % Pow2(k) == 0 && (64 / Pow2(k)) * Pow2(k) == 64
    ensures PM_4K / (64 * Pow2(k)) == 64 / Pow2(k) && PM_512K / (8192 * Pow2(k)) == 64 / Pow2(k)
    ensures 1 <= 64 / Pow2(k) <= 64
  {
    PowTable();
    if k == 0 {} else if k == 1 {} else if k == 2 {} else if k == 3 {} else if k == 4 {} else if k == 5 {} else {}
  }

  lemma {:induction false} ScaledOrder(i: int, j: int, z: int)
    requires i < j && z > 0
    ensures i * z + z <= j * z
    decreases j - i
  {
    if i + 1 < j {
      ScaledOrder(i, j - 1, z);
    }
    assert j * z == (j - 1) * z + z;
  }

  /** Slot j of a slab lies inside its page. */
  lemma SlotInPage(s: SlabState, h: int, j: nat)
    requires h in s.slabs && s.slabs[h].cls < CLASSES && j < Slots(s.slabs[h].cls)
    ensures var k := s.slabs[h].cls;
      s.slabs[h].page <= SlotAddr(s, h, j) && SlotAddr(s, h, j) + ClassSize(k) <= s.slabs[h].page + Size(PageLevel(k))
  {
    var k := s.slabs[h].cls;
    ClassTable(k);
    ScaledOrder(j, Slots(k), ClassSize(k));
    ScaledOrder(-1, j, ClassSize(k));
  }

  /** Two slots of listed slabs are the same slot or do not overlap. */
  lemma SlotsApart(L: Layout, g: PmState, s: SlabState, h: int, j: nat, h': int, j': nat)
    requires PmCore(L, g) && PagesOk(g, s) && h in s.slabs && h' in s.slabs
    requires s.slabs[h].cls < CLASSES && s.slabs[h'].cls < CLASSES
    requires j < Slots(s.slabs[h].cls) && j' < Slots(s.slabs[h'].cls)
    requires (h, j) != (h', j')
    ensures SlotAddr(s, h, j) + ClassSize(s.slabs[h].cls) <= SlotAddr(s, h', j')
         || SlotAddr(s, h', j') + ClassSize(s.slabs[h'].cls) <= SlotAddr(s, h, j)
  {
    var k, k' := s.slabs[h].cls, s.slabs[h'].cls;
    ClassTable(k);
    if h == h' {
      if j < j' { ScaledOrder(j, j', ClassSize(k)); } else { ScaledOrder(j', j, ClassSize(k)); }
    } else {
      SlotInPage(s, h, j);
      SlotInPage(s, h', j');
      assert s.slabs[h].page < s.slabs[h'].page || s.slabs[h'].page < s.slabs[h].page;
    }
  }

  /** Client blocks and dynamic headers, of all classes, never overlap. */
  lemma HdrPage(g: PmState, s: SlabState, h: int)
    requires PagesOk(g, s) && h in s.slabs
    ensures IsPage(s, s.slabs[h].page) && IsUsed(g, s.slabs[h].page) && s.slabs[h].page in g.blocks
    ensures g.blocks[s.slabs[h].page] == PageLevel(s.slabs[h].cls)
  {
  }

  lemma ListHead(L: Layout, s: SlabState, k: nat)
    requires ListsOk(L, s) && k < CLASSES
    ensures |s.lists| == CLASSES && |s.lists[k]| > 0 && s.lists[k][0] == StaticHdr(L, k)
  {
  }

  lemma HdrClass(L: Layout, s: SlabState, h: int)
    requires ListsOk(L, s) && h in s.slabs
    ensures s.slabs[h].cls < CLASSES
  {
  }

  /** The block that holds a dynamic header. */
  lemma HeaderBlock(L: Layout, g: PmState, s: SlabState, h: int)
    requires Placed(L, g, s) && h in s.slabs && h >= L.kernelEnd
    ensures h in s.occ && !s.occ[h].client && s.occ[h].hdr in s.slabs && BlockClass(s, h) == 0
  {
    hide ListsOk, PagesOk, SlotsOk;
  }

  /** Where an occupied slot lies. */
  lemma OccFacts(L: Layout, g: PmState, s: SlabState, a: int)
    requires Placed(L, g, s) && a in s.occ
    ensures var o := s.occ[a];
      && o.hdr in s.slabs && s.slabs[o.hdr].cls < CLASSES && o.slot < Slots(s.slabs[o.hdr].cls)
      && Taken(s, o.hdr, o.slot) && a == SlotAddr(s, o.hdr, o.slot) && IsPage(s, s.slabs[o.hdr].page)
      && IsUsed(g, s.slabs[o.hdr].page) && g.blocks[s.slabs[o.hdr].page] == PageLevel(s.slabs[o.hdr].cls)
  {
    hide IsUsed, ClassSize, HeadersOk;
    assert Taken(s, s.occ[a].hdr, s.occ[a].slot);
  }

  lemma OccupantsApart(L: Layout, g: PmState, s: SlabState, a: int, b: int)
    requires PmCore(L, g) && Placed(L, g, s) && a in s.occ && b in s.occ && a < b
    ensures a + ClassSize(BlockClass(s, a)) <= b
  {
    hide ListsOk, PagesOk, SlotsOk, HeadersOk, PmCore, ClassSize, IsUsed, SlotAddr;
    var o, o' := s.occ[a], s.occ[b];
    OccFacts(L, g, s, a);
    OccFacts(L, g, s, b);
    SlotsApart(L, g, s, o.hdr, o.slot, o'.hdr, o'.slot);
    ClassTable(BlockClass(s, b));
  }

  // ---- Taking a slot of an existing slab ----

  ghost predicate IsFull(s: SlabState, h: int)
    requires h in s.slabs
  {
    forall j: nat :: j < Slots(s.slabs[h].cls) ==> j in s.slabs[h].bits
  }

  ghost function TakeSlot(s: SlabState, h: int, j: nat): SlabState
    requires h in s.slabs
  {
    s.(slabs := s.slabs[h := s.slabs[h].(bits := s.slabs[h].bits + {j})],
       occ := s.occ[SlotAddr(s, h, j) := Occupant(h, j, true)])
  }

  lemma FreeSlotUnoccupied(L: Layout, g: PmState, s: SlabState, h: int, j: nat)
    requires PmCore(L, g) && SlabInv(L, g, s) && h in s.slabs && j < Slots(s.slabs[h].cls) && j !in s.slabs[h].bits
    ensures SlotAddr(s, h, j) !in s.occ
  {
    var a := SlotAddr(s, h, j);
    if a in s.occ {
      OccupantClash(L, g, s, h, j, s.occ[a].hdr, s.occ[a].slot);
    }
  }

  lemma OccupantClash(L: Layout, g: PmState, s: SlabState, h: int, j: nat, h': int, j': nat)
    requires PmCore(L, g) && Placed(L, g, s) && h in s.slabs && j < Slots(s.slabs[h].cls)
    requires Taken(s, h', j') && SlotAddr(s, h, j) == SlotAddr(s, h', j')
    ensures h == h' && j == j'
  {
    if (h, j) != (h', j') {
      ClassTable(s.slabs[h].cls);
      ClassTable(s.slabs[h'].cls);
      SlotsApart(L, g, s, h, j, h', j');
    }
  }

  lemma TakeSlotInv(L: Layout, g: PmState, s: SlabState, h: int, j: nat)
    requires PmCore(L, g) && SlabInv(L, g, s) && h in s.slabs && j < Slots(s.slabs[h].cls) && j !in s.slabs[h].bits
    ensures SlabInv(L, g, TakeSlot(s, h, j))
    ensures SlotAddr(s, h, j) !in s.occ
  {
    hide ListsOk, PagesOk, SlotsOk, HeadersOk, PmCore, ClassSize, SlotAddr;
    FreeSlotUnoccupied(L, g, s, h, j);
    TakeLists(L, s, h, j);
    TakePages(g, s, h, j);
    TakeSlots(s, h, j);
    TakeHeaders(L, s, h, j);
    var t := TakeSlot(s, h, j);
    forall h' | h' in t.slabs ensures InService(L, t, h') {
      assert InService(L, s, h');
      if h' == h && h >= L.kernelEnd && s.slabs[h].cls == 0 { DynamicHoldsItself(L, s, h); }
    }
  }

  lemma DynamicHoldsItself(L: Layout, s: SlabState, h: int)
    requires HeadersOk(L, s) && SlotsOk(s) && h in s.slabs && h >= L.kernelEnd && s.slabs[h].cls == 0
    ensures 0 in s.slabs[h].bits
  {
    assert Taken(s, s.occ[h].hdr, s.occ[h].slot);
  }

  lemma TakeLists(L: Layout, s: SlabState, h: int, j: nat)
    requires ListsOk(L, s) && h in s.slabs
    ensures ListsOk(L, TakeSlot(s, h, j))
  {
  }

  lemma TakePages(g: PmState, s: SlabState, h: int, j: nat)
    requires PagesOk(g, s) && h in s.slabs
    ensures PagesOk(g, TakeSlot(s, h, j))
  {
    var t := TakeSlot(s, h, j);
    assert t.slabs.Keys == s.slabs.Keys;
    assert |t.slabs| == |t.slabs.Keys| == |s.slabs.Keys| == |s.slabs|;
    forall p | p in t.dropped ensures !IsPage(t, p) {
      assert !IsPage(s, p);
    }
  }

  lemma TakeSlots(s: SlabState, h: int, j: nat)
    requires SlotsOk(s) && h in s.slabs && j < Slots(s.slabs[h].cls) && j !in s.slabs[h].bits
    requires SlotAddr(s, h, j) !in s.occ
    ensures SlotsOk(TakeSlot(s, h, j))
  {
    var t := TakeSlot(s, h, j);
    forall h', j': nat | Taken(t, h', j')
      ensures j' < Slots(t.slabs[h'].cls) && SlotAddr(t, h', j') in t.occ
      ensures t.occ[SlotAddr(t, h', j')].hdr == h' && t.occ[SlotAddr(t, h', j')].slot == j'
    {
      assert SlotAddr(t, h', j') == SlotAddr(s, h', j');
      if (h', j') != (h, j) { assert Taken(s, h', j'); }
    }
    forall a | a in t.occ
      ensures Taken(t, t.occ[a].hdr, t.occ[a].slot) && a == SlotAddr(t, t.occ[a].hdr, t.occ[a].slot)
    {
      if a in s.occ { assert Taken(s, s.occ[a].hdr, s.occ[a].slot); }
    }
  }

  lemma TakeHeaders(L: Layout, s: SlabState, h: int, j: nat)
    requires HeadersOk(L, s) && h in s.slabs && SlotAddr(s, h, j) !in s.occ
    ensures HeadersOk(L, TakeSlot(s, h, j))
  {
  }

  // ---- Adding a slab on a page fresh from the physical allocator ----

  lemma PagesMono(g: PmState, g': PmState, s: SlabState)
    requires PagesOk(g, s)
    requires forall b :: IsUsed(g, b) ==> IsUsed(g', b) && g'.blocks[b] == g.blocks[b]
    ensures PagesOk(g', s)
  {
  }

  /** No occupant lies in a used block that backs no slab. */
  lemma OutsidePages(L: Layout, g: PmState, s: SlabState, p: int, a: int)
    requires PmCore(L, g) && Placed(L, g, s) && IsUsed(g, p) && !IsPage(s, p) && a in s.occ
    ensures a + ClassSize(BlockClass(s, a)) <= p || p + Size(g.blocks[p]) <= a
    ensures a >= L.kernelEnd
  {
    hide ListsOk, PagesOk, SlotsOk, HeadersOk, PmCore, ClassSize, IsUsed, SlotAddr;
    var o := s.occ[a];
    OccFacts(L, g, s, a);
    SlotInPage(s, o.hdr, o.slot);
    var q := s.slabs[o.hdr].page;
    assert q != p;
    BlocksApart(L, g, p, q);
    UsedAbove(L, g, q);
  }

  lemma NotInside(L: Layout, g: PmState, s: SlabState, p: int, a: int)
    requires PmCore(L, g) && Placed(L, g, s) && IsUsed(g, p) && !IsPage(s, p) && p <= a <= p + 64
    ensures a !in s.occ
  {
    hide ListsOk, PagesOk, SlotsOk, HeadersOk, PmCore, ClassSize, IsUsed;
    if a in s.occ {
      OccFacts(L, g, s, a);
      ClassTable(BlockClass(s, a));
      OutsidePages(L, g, s, p, a);
      assert false;
    }
  }

  lemma UnusedByHeaders(L: Layout, g: PmState, s: SlabState, p: int)
    requires PmCore(L, g) && Placed(L, g, s) && IsUsed(g, p) && !IsPage(s, p)
    ensures p !in s.occ && p + 64 !in s.occ && p !in s.slabs && L.kernelEnd <= p
  {
    hide ListsOk, PagesOk, SlotsOk, PmCore, ClassSize, IsUsed;
    UsedAbove(L, g, p);
    if p in s.occ { NotInside(L, g, s, p, p); }
    if p + 64 in s.occ { NotInside(L, g, s, p, p + 64); }
  }

  lemma ListsLen(L: Layout, s: SlabState)
    requires ListsOk(L, s)
    ensures |s.lists| == CLASSES
  {
  }

  ghost function NewSlab64(s: SlabState, p: int): SlabState
    requires |s.lists| == CLASSES
  {
    s.(lists := s.lists[0 := s.lists[0] + [p]],
       slabs := s.slabs[p := Slab(0, p, {0, 1})],
       occ := s.occ[p := Occupant(p, 0, false)][p + 64 := Occupant(p, 1, true)],
       taken := s.taken + 1)
  }

  /** Block `h`, until now a client block of 64 bytes, becomes the header of a slab on page `p`. */
  ghost function NewSlab(s: SlabState, k: nat, h: int, p: int): SlabState
    requires |s.lists| == CLASSES && k < CLASSES && h in s.occ
  {
    s.(lists := s.lists[k := s.lists[k] + [h]],
       slabs := s.slabs[h := Slab(k, p, {0})],
       occ := s.occ[h := s.occ[h].(client := false)][p := Occupant(h, 0, true)],
       taken := s.taken + 1)
  }

  lemma OneMore(m: map<int, Slab>, h: int, v: Slab)
    requires h !in m
    ensures |m[h := v]| == |m| + 1
  {
    assert m[h := v].Keys == m.Keys + {h};
    assert |m[h := v]| == |m[h := v].Keys|;
  }

  lemma NewSlabPages(g: PmState, s: SlabState, t: SlabState, k: nat, h: int, p: int, bits: set<nat>)
    requires PagesOk(g, s) && h !in s.slabs && IsUsed(g, p) && g.blocks[p] == PageLevel(k) && !IsPage(s, p)
    requires p !in s.dropped
    requires t.slabs == s.slabs[h := Slab(k, p, bits)] && t.dropped == s.dropped
    requires t.taken == s.taken + 1 && t.returned == s.returned
    ensures PagesOk(g, t)
  {
    hide IsUsed;
    OneMore(s.slabs, h, Slab(k, p, bits));
    forall q | q in t.dropped ensures !IsPage(t, q) {
      assert !IsPage(s, q);
    }
    forall h' | h' in s.slabs ensures s.slabs[h'].page != p {
      assert IsPage(s, s.slabs[h'].page);
    }
  }

  lemma NewSlabLists(L: Layout, s: SlabState, t: SlabState, k: nat, h: int, p: int, bits: set<nat>)
    requires ListsOk(L, s) && k < CLASSES && h !in s.slabs
    requires t.slabs == s.slabs[h := Slab(k, p, bits)] && t.lists == s.lists[k := s.lists[k] + [h]]
    ensures ListsOk(L, t)
  {
    assert h !in s.lists[k];
  }

  lemma NewSlab64Inv(L: Layout, g: PmState, s: SlabState, p: int)
    requires PmCore(L, g) && SlabInv(L, g, s)
    requires IsUsed(g, p) && g.blocks[p] == 0 && !IsPage(s, p) && p !in s.dropped
    ensures |s.lists| == CLASSES && SlabInv(L, g, NewSlab64(s, p))
    ensures p !in s.slabs && p !in s.occ && p + 64 !in s.occ
  {
    hide ListsOk, PagesOk, SlotsOk, HeadersOk, PmCore;
    ListsLen(L, s);
    var t := NewSlab64(s, p);
    UnusedByHeaders(L, g, s, p);
    NewSlabPages(g, s, t, 0, p, p, {0, 1});
    NewSlabLists(L, s, t, 0, p, p, {0, 1});
    NewSlab64Slots(s, p);
    NewSlab64Headers(L, s, p);
    forall h | h in t.slabs ensures InService(L, t, h) {
      if h == p { assert 1 in t.slabs[h].bits; } else { assert InService(L, s, h); }
    }
  }

  lemma NewSlab64Headers(L: Layout, s: SlabState, p: int)
    requires HeadersOk(L, s) && SlotsOk(s) && |s.lists| == CLASSES && p !in s.slabs && p !in s.occ && p + 64 !in s.occ
    requires p >= L.kernelEnd
    ensures HeadersOk(L, NewSlab64(s, p))
  {
    var t := NewSlab64(s, p);
    forall a | a in s.occ ensures s.occ[a].hdr in s.slabs && s.occ[a].hdr != p {
      assert Taken(s, s.occ[a].hdr, s.occ[a].slot);
    }
  }

  lemma NewSlab64Slots(s: SlabState, p: int)
    requires SlotsOk(s) && |s.lists| == CLASSES && p !in s.slabs && p !in s.occ && p + 64 !in s.occ
    ensures SlotsOk(NewSlab64(s, p))
  {
    var t := NewSlab64(s, p);
    ClassTable(0);
    assert Taken(t, p, 0) && Taken(t, p, 1) && SlotAddr(t, p, 0) == p && SlotAddr(t, p, 1) == p + 64;
    forall h, j: nat | Taken(t, h, j) ensures SlotAddr(t, h, j) in t.occ && j < Slots(t.slabs[h].cls)
      ensures t.occ[SlotAddr(t, h, j)].hdr == h && t.occ[SlotAddr(t, h, j)].slot == j
    {
      if h != p {
        assert Taken(s, h, j);
        assert SlotAddr(t, h, j) == SlotAddr(s, h, j);
      }
    }
    forall a | a in t.occ
      ensures Taken(t, t.occ[a].hdr, t.occ[a].slot) && a == SlotAddr(t, t.occ[a].hdr, t.occ[a].slot)
    {
      if a in s.occ { assert Taken(s, s.occ[a].hdr, s.occ[a].slot); }
    }
  }

  lemma NewSlabInv(L: Layout, g: PmState, s: SlabState, k: nat, h: int, p: int)
    requires PmCore(L, g) && SlabInv(L, g, s) && 0 < k < CLASSES
    requires IsClient(s, h) && s.occ[h].hdr in s.slabs && BlockClass(s, h) == 0
    requires IsUsed(g, p) && g.blocks[p] == PageLevel(k) && !IsPage(s, p) && p !in s.dropped
    ensures SlabInv(L, g, NewSlab(s, k, h, p))
    ensures h !in s.slabs && p !in s.occ && p !in s.slabs && h != p
  {
    var t := NewSlab(s, k, h, p);
    UnusedByHeaders(L, g, s, p);
    OutsidePages(L, g, s, p, h);
    assert h !in s.slabs;
    NewSlabPages(g, s, t, k, h, p, {0});
    NewSlabLists(L, s, t, k, h, p, {0});
    NewSlabSlots(s, k, h, p);
    NewSlabHeaders(L, s, k, h, p);
    forall h' | h' in t.slabs ensures InService(L, t, h') {
      if h' == h { assert 0 in t.slabs[h].bits; } else { assert InService(L, s, h'); }
    }
  }

  lemma NewSlabHeaders(L: Layout, s: SlabState, k: nat, h: int, p: int)
    requires HeadersOk(L, s) && SlotsOk(s) && |s.lists| == CLASSES && 0 < k < CLASSES
    requires IsClient(s, h) && h !in s.slabs && h >= L.kernelEnd && p !in s.occ && BlockClass(s, h) == 0
    ensures HeadersOk(L, NewSlab(s, k, h, p))
  {
    var t := NewSlab(s, k, h, p);
    forall a | a in s.occ ensures s.occ[a].hdr in s.slabs {
      assert Taken(s, s.occ[a].hdr, s.occ[a].slot);
    }
  }

  lemma NewSlabSlots(s: SlabState, k: nat, h: int, p: int)
    requires SlotsOk(s) && |s.lists| == CLASSES && k < CLASSES && h in s.occ && h !in s.slabs && p !in s.occ
    ensures SlotsOk(NewSlab(s, k, h, p))
  {
    var t := NewSlab(s, k, h, p);
    ClassTable(k);
    assert Taken(t, h, 0) && SlotAddr(t, h, 0) == p;
    forall h', j: nat | Taken(t, h', j) ensures SlotAddr(t, h', j) in t.occ && j < Slots(t.slabs[h'].cls)
      ensures t.occ[SlotAddr(t, h', j)].hdr == h' && t.occ[SlotAddr(t, h', j)].slot == j
    {
      if h' != h {
        assert Taken(s, h', j);
        assert SlotAddr(t, h', j) == SlotAddr(s, h', j);
      }
    }
    forall a | a in t.occ
      ensures Taken(t, t.occ[a].hdr, t.occ[a].slot) && a == SlotAddr(t, t.occ[a].hdr, t.occ[a].slot)
    {
      if a in s.occ { assert Taken(s, s.occ[a].hdr, s.occ[a].slot); }
    }
  }

  // ---- Releasing a slot, retiring an emptied slab ----

  ghost function Release(s: SlabState, a: int): SlabState
    requires a in s.occ && s.occ[a].hdr in s.slabs
  {
    var o := s.occ[a];
    s.(slabs := s.slabs[o.hdr := s.slabs[o.hdr].(bits := s.slabs[o.hdr].bits - {o.slot})], occ := s.occ - {a})
  }

  ghost function Without(l: seq<int>, x: int): seq<int> {
    if l == [] then [] else if l[0] == x then l[1..] else [l[0]] + Without(l[1..], x)
  }

  /** The emptied slab `h` above 64 bytes is unlinked: its page is forgotten and its header block is
      an ordinary 64-byte block again. */
  ghost function Retire(s: SlabState, h: int): SlabState
    requires h in s.slabs && h in s.occ && s.slabs[h].cls < |s.lists|
  {
    var k := s.slabs[h].cls;
    s.(lists := s.lists[k := Without(s.lists[k], h)],
       slabs := s.slabs - {h},
       occ := s.occ[h := s.occ[h].(client := true)],
       dropped := s.dropped + {s.slabs[h].page})
  }

  /** The 64-byte slab `h`, holding nothing but its own header, is unlinked and its page given back. */
  ghost function GiveBack(s: SlabState, h: int): SlabState
    requires h in s.slabs && |s.lists| == CLASSES
  {
    s.(lists := s.lists[0 := Without(s.lists[0], h)],
       slabs := s.slabs - {h},
       occ := s.occ - {h},
       returned := s.returned + 1)
  }

  lemma {:induction false} WithoutIs(l: seq<int>, i: nat)
    requires i < |l| && NoDup(l)
    ensures Without(l, l[i]) == l[..i] + l[i + 1..]
  {
    if i > 0 {
      assert l[0] != l[i];
      WithoutIs(l[1..], i - 1);
      assert l[1..][..i - 1] == l[1..i];
    }
  }

  lemma WithoutFacts(l: seq<int>, i: nat)
    requires 0 < i < |l| && NoDup(l)
    ensures var w := Without(l, l[i]);
      |w| == |l| - 1 && w[0] == l[0] && NoDup(w) && forall y :: y in w <==> y in l && y != l[i]
  {
    WithoutIs(l, i);
    var w := l[..i] + l[i + 1..];
    forall y | y in l && y != l[i] ensures y in w {
      var q :| 0 <= q < |l| && l[q] == y;
      assert if q < i then w[q] == y else w[q - 1] == y;
    }
  }

  lemma ReleasePlaced(L: Layout, g: PmState, s: SlabState, a: int)
    requires Placed(L, g, s) && IsClient(s, a)
    ensures s.occ[a].hdr in s.slabs && Placed(L, g, Release(s, a))
  {
    assert Taken(s, s.occ[a].hdr, s.occ[a].slot);
    ReleasePages(g, s, a);
    ReleaseSlots(s, a);
    ReleaseHeaders(L, s, a);
    ReleaseLists(L, s, a);
    hide ListsOk, PagesOk, SlotsOk, HeadersOk;
  }

  lemma ReleaseLists(L: Layout, s: SlabState, a: int)
    requires ListsOk(L, s) && a in s.occ && s.occ[a].hdr in s.slabs
    ensures ListsOk(L, Release(s, a))
  {
  }

  lemma ReleaseHeaders(L: Layout, s: SlabState, a: int)
    requires HeadersOk(L, s) && IsClient(s, a) && s.occ[a].hdr in s.slabs
    ensures HeadersOk(L, Release(s, a))
  {
  }

  lemma ReleasePages(g: PmState, s: SlabState, a: int)
    requires PagesOk(g, s) && a in s.occ && s.occ[a].hdr in s.slabs
    ensures PagesOk(g, Release(s, a))
  {
    var t := Release(s, a);
    assert t.slabs.Keys == s.slabs.Keys;
    assert |t.slabs| == |t.slabs.Keys| == |s.slabs.Keys| == |s.slabs|;
    forall p | p in t.dropped ensures !IsPage(t, p) {
      assert !IsPage(s, p);
    }
  }

  lemma ReleaseSlots(s: SlabState, a: int)
    requires SlotsOk(s) && a in s.occ && s.occ[a].hdr in s.slabs
    ensures SlotsOk(Release(s, a))
  {
    var t := Release(s, a);
    forall h, j: nat | Taken(t, h, j) ensures SlotAddr(t, h, j) in t.occ && j < Slots(t.slabs[h].cls)
      ensures t.occ[SlotAddr(t, h, j)].hdr == h && t.occ[SlotAddr(t, h, j)].slot == j
    {
      assert Taken(s, h, j) && SlotAddr(t, h, j) == SlotAddr(s, h, j);
    }
    forall b | b in t.occ
      ensures Taken(t, t.occ[b].hdr, t.occ[b].slot) && b == SlotAddr(t, t.occ[b].hdr, t.occ[b].slot)
    {
      assert Taken(s, s.occ[b].hdr, s.occ[b].slot) && Taken(s, s.occ[a].hdr, s.occ[a].slot);
    }
  }

  lemma RetireLists(L: Layout, s: SlabState, t: SlabState, h: int)
    requires ListsOk(L, s) && h in s.slabs && h >= L.kernelEnd
    requires var k := s.slabs[h].cls; t.slabs == s.slabs - {h} && t.lists == s.lists[k := Without(s.lists[k], h)]
    ensures ListsOk(L, t)
  {
    hide NoDup, Without, ListsOk;
    var k := s.slabs[h].cls;
    ListsParts(L, s);
    RetireHeads(L, s, h);
    RetireMembers(s, t, k, h);
    forall j | 0 <= j < CLASSES ensures HeadOk(L, t, j) {
      assert HeadOk(L, s, j);
      if j != k { assert t.lists[j] == s.lists[j]; }
    }
    ListsFrom(L, t);
  }

  ghost predicate HeadOk(L: Layout, s: SlabState, k: nat) {
    k < |s.lists| && |s.lists[k]| > 0 && s.lists[k][0] == StaticHdr(L, k) && NoDup(s.lists[k])
  }

  lemma ListsParts(L: Layout, s: SlabState)
    requires ListsOk(L, s)
    ensures |s.lists| == CLASSES && forall k: nat :: k < CLASSES ==> HeadOk(L, s, k)
    ensures forall j, q :: 0 <= j < CLASSES && q in s.lists[j] ==> q in s.slabs && s.slabs[q].cls == j
    ensures forall q :: q in s.slabs ==> s.slabs[q].cls < CLASSES && q in s.lists[s.slabs[q].cls]
  {
    hide NoDup;
  }

  lemma ListsFrom(L: Layout, s: SlabState)
    requires |s.lists| == CLASSES && forall k: nat :: k < CLASSES ==> HeadOk(L, s, k)
    requires forall j, q :: 0 <= j < CLASSES && q in s.lists[j] ==> q in s.slabs && s.slabs[q].cls == j
    requires forall q :: q in s.slabs ==> s.slabs[q].cls < CLASSES && q in s.lists[s.slabs[q].cls]
    ensures ListsOk(L, s)
  {
    hide NoDup;
    forall k | 0 <= k < CLASSES ensures |s.lists[k]| > 0 && s.lists[k][0] == StaticHdr(L, k) && NoDup(s.lists[k]) {
      assert HeadOk(L, s, k);
    }
  }

  /** Members and listed headers still agree once `h` is gone from both. */
  lemma RetireMembers(s: SlabState, t: SlabState, k: nat, h: int)
    requires |s.lists| == CLASSES == |t.lists| && k < CLASSES && h in s.slabs && s.slabs[h].cls == k
    requires t.slabs == s.slabs - {h}
    requires forall j :: 0 <= j < CLASSES && j != k ==> t.lists[j] == s.lists[j]
    requires forall x :: x in t.lists[k] <==> x in s.lists[k] && x != h
    requires forall j, q :: 0 <= j < CLASSES && q in s.lists[j] ==> q in s.slabs && s.slabs[q].cls == j
    requires forall q :: q in s.slabs ==> s.slabs[q].cls < CLASSES && q in s.lists[s.slabs[q].cls]
    ensures forall j, q :: 0 <= j < CLASSES && q in t.lists[j] ==> q in t.slabs && t.slabs[q].cls == j
    ensures forall q :: q in t.slabs ==> t.slabs[q].cls < CLASSES && q in t.lists[t.slabs[q].cls]
  {
    forall j, q | 0 <= j < CLASSES && q in t.lists[j] ensures q in t.slabs && t.slabs[q].cls == j {
      assert q in s.lists[j] && q != h;
    }
    forall q | q in t.slabs ensures q in t.lists[t.slabs[q].cls] {
      assert q in s.lists[s.slabs[q].cls] && q != h;
    }
  }

  /** The list a header leaves keeps its static head and its other members. */
  lemma RetireHeads(L: Layout, s: SlabState, h: int)
    requires ListsOk(L, s) && h in s.slabs && h >= L.kernelEnd
    ensures var l := s.lists[s.slabs[h].cls]; var w := Without(l, h);
      && |w| > 0 && w[0] == l[0] && NoDup(w) && (forall x :: x in w <==> x in l && x != h)
  {
    var l := s.lists[s.slabs[h].cls];
    var i := IndexIn(l, h);
    assert i != 0;
    WithoutFacts(l, i);
  }

  lemma IndexIn(l: seq<int>, x: int) returns (i: nat)
    requires x in l
    ensures i < |l| && l[i] == x
  {
    i :| i < |l| && l[i] == x;
  }

  lemma RetirePages(g: PmState, s: SlabState, t: SlabState, h: int)
    requires PagesOk(g, s) && h in s.slabs && t.slabs == s.slabs - {h} && t.taken == s.taken
    requires (t.dropped == s.dropped + {s.slabs[h].page} && t.returned == s.returned)
          || (t.dropped == s.dropped && t.returned == s.returned + 1)
    ensures PagesOk(g, t) && !IsPage(t, s.slabs[h].page)
  {
    var p := s.slabs[h].page;
    assert IsPage(s, p);
    assert t.slabs.Keys == s.slabs.Keys - {h};
    assert |t.slabs| == |t.slabs.Keys| == |s.slabs| - 1;
    forall q | q in t.dropped ensures IsUsed(g, q) && !IsPage(t, q) {
      if q in s.dropped { assert !IsPage(s, q); }
    }
  }

  lemma RetireInv(L: Layout, g: PmState, s: SlabState, h: int)
    requires Placed(L, g, s) && h in s.slabs && h >= L.kernelEnd && s.slabs[h].cls > 0 && s.slabs[h].bits == {}
    requires forall h' :: h' in s.slabs && h' != h ==> InService(L, s, h')
    ensures |s.lists| == CLASSES && s.slabs[h].cls < CLASSES
    ensures h in s.occ && SlabInv(L, g, Retire(s, h)) && IsClient(Retire(s, h), h)
    ensures s.occ[h].hdr != h && s.occ[h].hdr in s.slabs && BlockClass(s, h) == 0
  {
    hide ListsOk, PagesOk, SlotsOk, HeadersOk, ClassSize, SlotAddr, IsUsed;
    ListsLen(L, s);
    HdrClass(L, s, h);
    HeaderBlock(L, g, s, h);
    var t := Retire(s, h);
    RetireLists(L, s, t, h);
    RetirePages(g, s, t, h);
    RetireSlots(s, h);
    RetireHeaders(L, s, h);
    forall h' | h' in t.slabs ensures InService(L, t, h') {
      assert InService(L, s, h');
    }
  }

  lemma RetireHeaders(L: Layout, s: SlabState, h: int)
    requires HeadersOk(L, s) && SlotsOk(s) && h in s.slabs && h in s.occ && s.slabs[h].cls < |s.lists|
    requires s.slabs[h].bits == {}
    ensures HeadersOk(L, Retire(s, h))
  {
    var t := Retire(s, h);
    forall a | a in s.occ ensures s.occ[a].hdr in s.slabs && s.occ[a].hdr != h {
      assert Taken(s, s.occ[a].hdr, s.occ[a].slot);
    }
  }

  lemma RetireSlots(s: SlabState, h: int)
    requires SlotsOk(s) && h in s.slabs && h in s.occ && s.slabs[h].cls < |s.lists| && s.slabs[h].bits == {}
    ensures SlotsOk(Retire(s, h))
  {
    var t := Retire(s, h);
    forall h', j: nat | Taken(t, h', j) ensures SlotAddr(t, h', j) in t.occ && j < Slots(t.slabs[h'].cls)
      ensures t.occ[SlotAddr(t, h', j)].hdr == h' && t.occ[SlotAddr(t, h', j)].slot == j
    {
      assert Taken(s, h', j) && SlotAddr(t, h', j) == SlotAddr(s, h', j);
    }
    forall a | a in t.occ
      ensures Taken(t, t.occ[a].hdr, t.occ[a].slot) && a == SlotAddr(t, t.occ[a].hdr, t.occ[a].slot)
    {
      assert Taken(s, s.occ[a].hdr, s.occ[a].slot);
    }
  }

  lemma GiveBackInv(L: Layout, g: PmState, s: SlabState, h: int)
    requires PmCore(L, g) && Placed(L, g, s) && h in s.slabs && h >= L.kernelEnd && s.slabs[h].cls == 0
    requires s.slabs[h].bits == {0}
    requires forall h' :: h' in s.slabs && h' != h ==> InService(L, s, h')
    ensures |s.lists| == CLASSES && |g.free| == 3
    ensures IsUsed(g, h) && g.blocks[h] == 0 && s.slabs[h].page == h
    ensures SlabInv(L, Push(g, 0, h), GiveBack(s, h))
  {
    ListsLen(L, s);
    var t := GiveBack(s, h);
    RetireLists(L, s, t, h);
    RetirePages(g, s, t, h);
    GiveBackPages(L, g, s, h);
    GiveBackSlots(s, h);
    GiveBackHeaders(L, s, h);
    hide ListsOk, PagesOk, SlotsOk, HeadersOk;
    forall h' | h' in t.slabs ensures InService(L, t, h') {
      assert InService(L, s, h');
    }
  }

  lemma GiveBackHeaders(L: Layout, s: SlabState, h: int)
    requires HeadersOk(L, s) && SlotsOk(s) && |s.lists| == CLASSES && h in s.slabs && h in s.occ
    requires s.occ[h].hdr == h && s.occ[h].slot == 0 && s.slabs[h].bits == {0}
    ensures HeadersOk(L, GiveBack(s, h))
  {
    forall a | a in s.occ && a != h ensures s.occ[a].hdr in s.slabs && s.occ[a].hdr != h {
      OnlyItself(s, h, a);
    }
  }

  lemma OnlyItself(s: SlabState, h: int, a: int)
    requires SlotsOk(s) && h in s.slabs && h in s.occ && a in s.occ && a != h
    requires s.occ[h].hdr == h && s.occ[h].slot == 0 && s.slabs[h].bits == {0}
    ensures s.occ[a].hdr in s.slabs && s.occ[a].hdr != h
  {
    assert Taken(s, s.occ[a].hdr, s.occ[a].slot) && Taken(s, h, 0);
  }

  lemma GiveBackPages(L: Layout, g: PmState, s: SlabState, h: int)
    requires PmCore(L, g) && PagesOk(g, s) && h in s.slabs && s.slabs[h].page == h && |s.lists| == CLASSES
    requires g.blocks[h] == 0
    requires PagesOk(g, GiveBack(s, h)) && !IsPage(GiveBack(s, h), h)
    ensures PagesOk(Push(g, 0, h), GiveBack(s, h))
  {
    PushInv(L, g, 0, h);
    var t := GiveBack(s, h);
    assert IsPage(s, h);
    assert forall h' :: h' in t.slabs ==> t.slabs[h'].page != h;
  }

  lemma GiveBackSlots(s: SlabState, h: int)
    requires SlotsOk(s) && h in s.slabs && |s.lists| == CLASSES
    requires h in s.occ && s.occ[h].hdr == h && s.slabs[h].bits == {0} && s.occ[h].slot == 0
    ensures SlotsOk(GiveBack(s, h))
  {
    var t := GiveBack(s, h);
    forall h', j: nat | Taken(t, h', j) ensures SlotAddr(t, h', j) in t.occ && j < Slots(t.slabs[h'].cls)
      ensures t.occ[SlotAddr(t, h', j)].hdr == h' && t.occ[SlotAddr(t, h', j)].slot == j
    {
      assert Taken(s, h', j) && SlotAddr(t, h', j) == SlotAddr(s, h', j);
    }
    forall a | a in t.occ
      ensures Taken(t, t.occ[a].hdr, t.occ[a].slot) && a == SlotAddr(t, t.occ[a].hdr, t.occ[a].slot)
    {
      OnlyItself(s, h, a);
      assert Taken(s, s.occ[a].hdr, s.occ[a].slot);
    }
  }
}
