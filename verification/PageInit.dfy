/** `vm_init`: the identity mapping of the low 4 GiB through 2 MiB leaves. */
module PageInit {
  import opened Bits
  import opened Memory
  import opened Blocks
  import opened PageTables
  import opened PageWalk

  const MAPPINGS := 2048
  const LOW_LIMIT := 0x1_0000_0000

  /** A fresh, empty PML4. */
  ghost function EmptyTree(pgdir: int): VmState {
    VmState(map[KROOT := pgdir], pgdir, None)
  }

  /** One iteration: the 2 MiB page at `n * LARGE`. */
  ghost function MapStep(L: Layout, s: VmSt, n: nat): (r: Outcome<VmSt>)
    requires StOk(L, s) && s.v.active == None && n < MAPPINGS
    ensures r.Done? ==>
      StOk(L, r.value) && r.value.v.active == None && r.value.v.pgdir == s.v.pgdir && SameOutside(s, r.value)
  {
    StParts(L, s);
    MapStepOk(L, s, n);
    Walk(L, s, n * LARGE, true)
  }

  /** After n iterations of the loop. */
  ghost function MapPrefix(L: Layout, st: VmSt, n: nat): (r: Outcome<VmSt>)
    requires StOk(L, st) && st.v.active == None && n <= MAPPINGS
    ensures r.Done? ==>
      StOk(L, r.value) && r.value.v.active == None && r.value.v.pgdir == st.v.pgdir && SameOutside(st, r.value)
  {
    hide StOk, MapStep, Outside, IsUsed;
    if n == 0 then
      Done(st)
    else
      var s :- MapPrefix(L, st, n - 1);
      MapStep(L, s, n - 1)
  }

  lemma MapStepOk(L: Layout, s: VmSt, n: nat)
    requires StOk(L, s) && s.v.active == None && n < MAPPINGS
    ensures PmInv(L, s.g)
    ensures var r := Walk(L, s, n * LARGE, true); r.Done? ==>
      StOk(L, r.value) && r.value.v.active == None && r.value.v.pgdir == s.v.pgdir && SameOutside(s, r.value)
  {
    hide StOk, IsUsed, OwnsFrame, Idx, Walk, PmCore, VmInv, FramesOk;
    LowAddress(n);
    StParts(L, s);
    WalkOk(L, s, n * LARGE, true);
  }

  lemma LowAddress(n: nat)
    requires n < MAPPINGS
    ensures n * LARGE < LOW_LIMIT && Idx(n * LARGE, 1) == n && Idx(n * LARGE, 2) == n / ENTRIES
    ensures Idx(n * LARGE, 3) == 0
  {
  }

  /** The positions mapped after n iterations: the PML4, one PDPT, a PD for every started GiB, and n
      large pages. */
  ghost predicate InPrefix(q: Pos, n: nat) {
    || q == KROOT
    || (q.space.Kernel? && q.level == 3 && q.idx == 0 && n > 0)
    || (q.space.Kernel? && q.level == 2 && q.idx * ENTRIES < n)
    || (q.space.Kernel? && q.level == 1 && q.idx < n)
  }

  ghost predicate PrefixOk(v: VmState, n: nat) {
    && (forall q :: q in v.ent <==> InPrefix(q, n))
    && (forall i: nat :: i < n ==> v.ent[Pos(Kernel, 1, i)] == LargeWord(i * LARGE))
  }

  lemma PrefixStep(L: Layout, s: VmSt, n: nat)
    requires StOk(L, s) && s.v.active == None && PrefixOk(s.v, n) && n < MAPPINGS
    ensures PmInv(L, s.g)
    ensures var r := Walk(L, s, n * LARGE, true); r.Done? ==> PrefixOk(r.value.v, n + 1)
  {
    hide StOk, Idx, HasPS, LargeWord, Walk, OnPath, InPrefix, PrefixOk, PmCore, VmInv, FramesOk, TreeOk, Mapped, Shaped;
    var va := n * LARGE;
    LowAddress(n);
    StParts(L, s);
    WalkOk(L, s, va, true);
    var r := Walk(L, s, va, true);
    if r.Done? {
      var v := r.value.v;
      StParts(L, r.value);
      LargeThenNoPage(v, va);
      assert n * LARGE == va && PathPos(s.v, va, 1) == Pos(Kernel, 1, n);
      NotYetMapped(s.v, n);
      PrefixGrows(s, r.value, n);
    }
  }

  lemma NotYetMapped(v: VmState, n: nat)
    requires PrefixOk(v, n)
    ensures Pos(Kernel, 1, n) !in v.ent
  {
  }

  /** A walk of the n-th large page adds the large page and what is missing above it. */
  lemma PrefixGrows(st: VmSt, st': VmSt, n: nat)
    requires n < MAPPINGS && PrefixOk(st.v, n) && OnPath(st, st', n * LARGE) && Mapped(st'.v, n * LARGE)
    requires TreeOk(st'.v)
    requires st.v.active == None && PathPos(st'.v, n * LARGE, 0) !in st'.v.ent
    requires st'.v.ent[PathPos(st'.v, n * LARGE, 1)] == LargeWord(n * LARGE)
    ensures PrefixOk(st'.v, n + 1)
  {
    hide Idx, HasPS, LargeWord, SameOutside, IsUsed, InPrefix, TreeOk, Mapped;
    var v := st'.v;
    PathMapped(v, n);
    RootInPrefix(n);
    forall q ensures q in v.ent <==> InPrefix(q, n + 1) {
      NextPrefix(q, n);
      if q in v.ent && q !in st.v.ent { OnPathOnly(st, st', n, q); }
    }
    forall i: nat | i < n + 1 ensures Pos(Kernel, 1, i) in v.ent && v.ent[Pos(Kernel, 1, i)] == LargeWord(i * LARGE) {
      if i < n { LargeInPrefix(i, n); }
    }
  }

  lemma RootInPrefix(n: nat)
    ensures InPrefix(KROOT, n)
  {
  }

  lemma LargeInPrefix(i: nat, n: nat)
    requires i < n
    ensures InPrefix(Pos(Kernel, 1, i), n)
  {
  }

  lemma PathMapped(v: VmState, n: nat)
    requires n < MAPPINGS && Mapped(v, n * LARGE) && v.active == None
    ensures Pos(Kernel, 3, 0) in v.ent && Pos(Kernel, 2, n / ENTRIES) in v.ent && Pos(Kernel, 1, n) in v.ent
    ensures PathPos(v, n * LARGE, 1) == Pos(Kernel, 1, n)
  {
    hide Idx, HasPS;
    LowAddress(n);
  }

  lemma OnPathOnly(st: VmSt, st': VmSt, n: nat, q: Pos)
    requires n < MAPPINGS && OnPath(st, st', n * LARGE) && TreeOk(st'.v) && st.v.active == None
    requires q in st'.v.ent && q !in st.v.ent && KROOT in st.v.ent && PathPos(st'.v, n * LARGE, 0) !in st'.v.ent
    ensures q == Pos(Kernel, 3, 0) || q == Pos(Kernel, 2, n / ENTRIES) || q == Pos(Kernel, 1, n)
  {
    hide Idx, HasPS, SameOutside, IsUsed;
    LowAddress(n);
    assert Shaped(st'.v, q, st'.v.ent[q]);
  }

  lemma NextPrefix(q: Pos, n: nat)
    ensures InPrefix(q, n + 1) <==>
      InPrefix(q, n) || q == Pos(Kernel, 3, 0) || q == Pos(Kernel, 2, n / ENTRIES) || q == Pos(Kernel, 1, n)
  {
  }

  lemma {:induction false} PrefixHolds(L: Layout, st: VmSt, n: nat)
    requires StOk(L, st) && st.v.active == None && PrefixOk(st.v, 0) && n <= MAPPINGS
    ensures var r := MapPrefix(L, st, n); r.Done? ==> PrefixOk(r.value.v, n)
  {
    hide StOk, PrefixOk, Walk, SameOutside;
    if n > 0 && MapPrefix(L, st, n - 1).Done? {
      PrefixHolds(L, st, n - 1);
      PrefixStep(L, MapPrefix(L, st, n - 1).value, n - 1);
    }
  }

  lemma EmptyPrefix(pgdir: int)
    ensures PrefixOk(EmptyTree(pgdir), 0)
  {
  }

  /** Every address below 4 GiB translates to itself. */
  lemma IdentityMapped(v: VmState, va: nat)
    requires PrefixOk(v, MAPPINGS) && v.active == None && va < LOW_LIMIT
    ensures Lookup(v, va) == Some(va)
  {
    var n := va / LARGE;
    assert Idx(va, 1) == n by { DivTwice(va, PM_4K, ENTRIES); assert Idx(va, 1) == Idx(va, 0) / ENTRIES; }
    KernelPath(v, va);
    LargeWordFacts(n * LARGE);
    assert InPrefix(Pos(Kernel, 1, n), MAPPINGS);
    hide Idx, LargeWord, HasPS;
    assert PathPos(v, va, 1) == Pos(Kernel, 1, n);
    WholeMultiple(n);
  }

  lemma WholeMultiple(n: nat)
    ensures (n * LARGE) % LARGE == 0
  {
  }

  /** The tables are exactly six: the PML4, one PDPT and four page directories. */
  lemma SixTables(v: VmState)
    requires PrefixOk(v, MAPPINGS)
    ensures forall q :: q in v.ent && q.level >= 2 <==>
      q in {KROOT, Pos(Kernel, 3, 0), Pos(Kernel, 2, 0), Pos(Kernel, 2, 1), Pos(Kernel, 2, 2), Pos(Kernel, 2, 3)}
    ensures forall q :: q in v.ent && Owned(q, v.ent[q]) ==> q.level >= 2
  {
    forall q | q in v.ent && Owned(q, v.ent[q]) ensures q.level >= 2 {
      assert InPrefix(q, MAPPINGS);
      if q.level == 1 {
        assert v.ent[q] == LargeWord(q.idx * LARGE);
        LargeWordFacts(q.idx * LARGE);
      }
    }
  }

  /** The whole of `vm_init`. */
  ghost function VmInit(L: Layout, g: PmState): (r: Outcome<VmSt>)
    requires PmInv(L, g)
    ensures r.Done? ==> StOk(L, r.value) && r.value.v.active == None
  {
    FreeLen(L, g);
    if !CanAlloc(g, 0) then Panic
    else
      EmptyTreeOk(L, g);
      MapPrefix(L, VmSt(Alloc(g, 0), EmptyTree(AllocAddr(g, 0))), MAPPINGS)
  }

  lemma FrameHere(L: Layout, g: PmState, f: int)
    requires PmInv(L, g) && IsUsed(g, f)
    ensures f % PM_4K == 0 && 0 < f < WORD_LIMIT
  {
    hide Tiled, ListOk;
  }

  lemma EmptyTreeOk(L: Layout, g: PmState)
    requires PmInv(L, g) && CanAlloc(g, 0)
    ensures var st := VmSt(Alloc(g, 0), EmptyTree(AllocAddr(g, 0)));
      StOk(L, st) && (forall b :: Outside(st, b) <==> IsUsed(g, b))
        && (forall b :: IsUsed(g, b) ==> st.g.blocks[b] == g.blocks[b])
    ensures AllocAddr(g, 0) % PM_4K == 0 && 0 < AllocAddr(g, 0) < WORD_LIMIT
  {
    hide PmCore, Alloc, AllocAddr, CanAlloc, HasPS;
    FreeLen(L, g);
    AllocInv(L, g, 0);
    var f, st := AllocAddr(g, 0), VmSt(Alloc(g, 0), EmptyTree(AllocAddr(g, 0)));
    FrameHere(L, st.g, f);
    assert Shaped(st.v, KROOT, f) by { PlainRoot(f); }
    assert IsTable(KROOT, f) && Frame(f) == f;
    hide PmInv, Shaped, Frame;
    forall b ensures OwnsFrame(st.v, b) <==> b == f {
      if b == f { assert KROOT in st.v.ent && Owned(KROOT, f); }
    }
  }

  lemma PlainRoot(f: int)
    requires f % PM_4K == 0
    ensures !HasPS(f)
  {
    var q := f / 4096;
    ModUnique(f, 128, 32 * q, 0);
    EvenTimes(16 * q);
  }

  /** `vm_init` maps the low 4 GiB to itself with exactly six frames, and no more blocks are in use
      than those frames and the blocks that were in use before. */
  lemma VmInitMeaning(L: Layout, g: PmState)
    requires PmInv(L, g) && VmInit(L, g).Done?
    ensures var st := VmInit(L, g).value;
      && (forall va: nat :: va < LOW_LIMIT ==> Lookup(st.v, va) == Some(va))
      && PrefixOk(st.v, MAPPINGS) && (forall b :: Outside(st, b) <==> IsUsed(g, b))
  {
    hide StOk, Outside, IsUsed;
    FreeLen(L, g);
    EmptyTreeOk(L, g);
    EmptyPrefix(AllocAddr(g, 0));
    PrefixHolds(L, VmSt(Alloc(g, 0), EmptyTree(AllocAddr(g, 0))), MAPPINGS);
    var st := VmInit(L, g).value;
    forall va: nat | va < LOW_LIMIT ensures Lookup(st.v, va) == Some(va) {
      IdentityMapped(st.v, va);
    }
  }
}
