/** How many frames a walk needs: it fails exactly when fewer are free. */
module PageSupply {
  import opened Memory
  import opened Blocks
  import opened Supply
  import opened PageTables
  import opened PageWalk
  import opened PageInit

  ghost function Absent(v: VmState, p: Pos): nat {
    if p in v.ent then 0 else 1
  }

  /** The frames still missing on the path of `va`: its tables, and its page in the user range. A 2 MiB
      page of the kernel takes none, and under one nothing is missing. */
  ghost function Missing(v: VmState, va: nat, large: bool): nat {
    var pd, pt, page := PathPos(v, va, 2), PathPos(v, va, 1), PathPos(v, va, 0);
    Absent(v, PathPos(v, va, 3)) + Absent(v, pd)
      + (if large && va < USER_ADDR_START then 0 else Absent(v, pt))
      + (if va >= USER_ADDR_START && !(pt in v.ent && HasPS(v.ent[pt])) then Absent(v, page) else 0)
  }

  lemma EnsureSupply(st: VmSt, p: Pos, flag: int)
    requires |st.g.free| == 3
    ensures var r := Ensure(st, p, flag);
      && (r.Panic? <==> FreeFrames(st.g) < Absent(st.v, p))
      && (r.Done? ==>
            && |r.value.g.free| == 3 && FreeFrames(r.value.g) == FreeFrames(st.g) - Absent(st.v, p)
            && (FewSmall(st.g) ==> FewSmall(r.value.g)) && r.value.v.active == st.v.active && p in r.value.v.ent
            && (forall q :: q in st.v.ent ==> q in r.value.v.ent && r.value.v.ent[q] == st.v.ent[q])
            && (forall q :: q in r.value.v.ent ==> q in st.v.ent || q == p))
  {
    hide FreeFrames, FewSmall, Alloc, AllocAddr, CanAlloc;
    AllocFrame(st.g);
  }

  /** A walk with `create` fails exactly when fewer frames are free than are missing on its path, and
      takes exactly those. */
  lemma WalkSupply(L: Layout, st: VmSt, va: nat, large: bool)
    requires StOk(L, st) && Walkable(st.v, va)
    ensures PmInv(L, st.g) && |st.g.free| == 3
    ensures var r, n := Walk(L, st, va, large), Missing(st.v, va, large);
      && (r.Panic? <==> FreeFrames(st.g) < n)
      && (r.Done? ==> |r.value.g.free| == 3 && FreeFrames(r.value.g) == FreeFrames(st.g) - n)
      && (r.Done? && FewSmall(st.g) ==> FewSmall(r.value.g))
  {
    hide StOk, PmInv, FreeFrames, FewSmall, Ensure, Idx, HasPS, OnPath, WalkPd, WalkPt, Slot, VmInv, PmCore, TreeOk;
    hide FramesOk;
    StParts(L, st);
    var flag := Flag(va);
    EnsureSupply(st, PathPos(st.v, va, 3), flag);
    WalkTablesOk(L, st, va);
    var r3 := Ensure(st, PathPos(st.v, va, 3), flag);
    if r3.Done? {
      EnsureSupply(r3.value, PathPos(r3.value.v, va, 2), flag);
      var r2 := WalkTables(L, st, va);
      if r2.Done? {
        BelowSupply(L, st, r2.value, va, large);
      }
    }
  }

  /** The two lower levels. */
  lemma BelowSupply(L: Layout, st: VmSt, st2: VmSt, va: nat, large: bool)
    requires StOk(L, st) && StOk(L, st2) && OnPath(st, st2, va) && Walkable(st.v, va)
    requires st2.v.active == st.v.active && |st2.g.free| == 3 && PathPos(st.v, va, 2) in st2.v.ent
    requires forall q :: q in st2.v.ent && q.level <= 1 ==> q in st.v.ent
    ensures var pt := PathPos(st.v, va, 1);
      var n := Missing(st.v, va, large) - Absent(st.v, PathPos(st.v, va, 3)) - Absent(st.v, PathPos(st.v, va, 2));
      var r1 := WalkPd(st2, va, large);
      && (r1.Done? ==> |r1.value.g.free| == 3)
      && (r1.Panic? || WalkPt(r1.value, va).Panic? <==> FreeFrames(st2.g) < n)
      && (r1.Done? && WalkPt(r1.value, va).Done? ==>
            var g := WalkPt(r1.value, va).value.g;
            |g.free| == 3 && FreeFrames(g) == FreeFrames(st2.g) - n && (FewSmall(st2.g) ==> FewSmall(g)))
  {
    hide StOk, PmInv, FreeFrames, FewSmall, Ensure, Idx, HasPS, OnPath, Slot, VmInv, TreeOk, FramesOk, Missing;
    hide LargeWord, SmallWord, Flag;
    StParts(L, st);
    StParts(L, st2);
    var pt, page := PathPos(st.v, va, 1), PathPos(st.v, va, 0);
    SamePath(st, st2, va);
    PathTable(st2.v, PathPos(st2.v, va, 2));
    PdOk(L, st, st2, va, large);
    MissingBelow(st.v, va, large);
    LargeThenNoPage(st.v, va);
    EnsureSupply(st2, pt, Flag(va));
    if !(pt !in st2.v.ent && large && va < USER_ADDR_START) && Ensure(st2, pt, Flag(va)).Done? {
      EnsureSupply(Ensure(st2, pt, Flag(va)).value, page, Flag(va));
    }
  }

  lemma SamePath(st: VmSt, st2: VmSt, va: nat)
    requires OnPath(st, st2, va) && st2.v.active == st.v.active
    ensures forall level: nat :: PathPos(st2.v, va, level) == PathPos(st.v, va, level)
    ensures forall q :: q in st.v.ent ==> q in st2.v.ent && st2.v.ent[q] == st.v.ent[q]
  {
    hide Idx, SameOutside;
  }

  lemma MissingBelow(v: VmState, va: nat, large: bool)
    ensures var pt, page := PathPos(v, va, 1), PathPos(v, va, 0);
      Missing(v, va, large) - Absent(v, PathPos(v, va, 3)) - Absent(v, PathPos(v, va, 2)) ==
        (if large && va < USER_ADDR_START then 0 else Absent(v, pt))
          + (if va >= USER_ADDR_START && !(pt in v.ent && HasPS(v.ent[pt])) then Absent(v, page) else 0)
  {
    hide Idx, HasPS, Absent;
  }

  // ---- vm_init ----

  /** The PML4, one PDPT and a page directory for each of the four GiB. */
  const VM_FRAMES := 6

  /** The tables above the first n large pages: one PDPT and a page directory for each GiB begun. */
  function Tables(n: nat): nat {
    (if n > 0 then 1 else 0) + (n + ENTRIES - 1) / ENTRIES
  }

  lemma TablesNext(n: nat)
    ensures Tables(n + 1) == Tables(n) + (if n == 0 then 1 else 0) + (if n % ENTRIES == 0 then 1 else 0)
    ensures (n / ENTRIES) * ENTRIES < n <==> n % ENTRIES != 0
  {
  }

  lemma NoTables()
    ensures Tables(0) == 0
  {
  }

  /** What the n-th iteration misses is what it begins. */
  lemma StepMissing(v: VmState, n: nat)
    requires PrefixOk(v, n) && n < MAPPINGS
    ensures Missing(v, n * LARGE, true) == Tables(n + 1) - Tables(n)
  {
    hide Idx, HasPS, Tables;
    LowAddress(n);
    KernelPath(v, n * LARGE);
    TablesNext(n);
  }

  lemma {:induction false} PrefixSupply(L: Layout, st: VmSt, n: nat)
    requires StOk(L, st) && st.v.active == None && PrefixOk(st.v, 0) && n <= MAPPINGS
    ensures |st.g.free| == 3
    ensures var r := MapPrefix(L, st, n);
      && (r.Panic? <==> FreeFrames(st.g) < Tables(n))
      && (r.Done? ==> |r.value.g.free| == 3 && FreeFrames(r.value.g) == FreeFrames(st.g) - Tables(n))
      && (r.Done? && FewSmall(st.g) ==> FewSmall(r.value.g))
  {
    hide StOk, FreeFrames, FewSmall, PrefixOk, SameOutside, Tables, Walk, Missing, PmInv, VmInv, PmCore, TreeOk;
    hide FramesOk;
    StParts(L, st);
    if n == 0 {
      NoTables();
    } else {
      TablesNext(n - 1);
      PrefixSupply(L, st, n - 1);
      PrefixHolds(L, st, n - 1);
      if MapPrefix(L, st, n - 1).Done? {
        var s := MapPrefix(L, st, n - 1).value;
        StepMissing(s.v, n - 1);
        LowAddress(n - 1);
        WalkSupply(L, s, (n - 1) * LARGE, true);
      }
    }
  }

  /** `vm_init` fails exactly when fewer than six frames are free, and takes exactly six. */
  lemma VmInitSupply(L: Layout, g: PmState)
    requires PmInv(L, g)
    ensures |g.free| == 3
    ensures var r := VmInit(L, g);
      && (r.Panic? <==> FreeFrames(g) < VM_FRAMES)
      && (r.Done? ==> |r.value.g.free| == 3 && FreeFrames(r.value.g) == FreeFrames(g) - VM_FRAMES)
      && (r.Done? && FewSmall(g) ==> FewSmall(r.value.g))
  {
    hide StOk, FreeFrames, FewSmall, MapPrefix, PrefixOk, PmInv, Alloc, AllocAddr, CanAlloc, Outside, EmptyTree, IsUsed;
    FreeLen(L, g);
    AllocFrame(g);
    if CanAlloc(g, 0) {
      EmptyTreeOk(L, g);
      EmptyPrefix(AllocAddr(g, 0));
      EmptyActive(AllocAddr(g, 0));
      PrefixSupply(L, VmSt(Alloc(g, 0), EmptyTree(AllocAddr(g, 0))), MAPPINGS);
    }
  }

  lemma EmptyActive(pgdir: int)
    ensures EmptyTree(pgdir).active == None
  {
  }
}
