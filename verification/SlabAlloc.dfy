/** The slab allocator of mm/slab.c. */
module SlabAlloc {
  import opened Bits
  import opened Memory
  import opened Blocks
  import opened PhysAlloc
  import opened Slabs
  import opened Heap
  import opened SlabMem
  import opened SlabSteps
  import opened SlabStart
  import opened Supply
  import opened SlabSupply

  /** `addr` may be passed to `kmfree`: where the slot arithmetic accepts it, it is a client block. */
  ghost predicate FreeOk(s: SlabState, addr: int) {
    forall e :: e in s.slabs && InPageOf(s, e, addr) && addr % ClassSize(s.slabs[e].cls) == 0 ==> IsClient(s, addr)
  }

  /** The scan over one bitmap: the lowest slot below `pages` whose bit is clear, or `pages`. */
  method LowestFreeBit(bitmap: Word, pages: nat) returns (i: nat)
    requires pages <= 64
    ensures i <= pages && (i < pages ==> i !in SetOf(bitmap))
    ensures forall j: nat :: j < i ==> j in SetOf(bitmap)
  {
    i := 0;
    while i < pages
      invariant i <= pages && forall j: nat :: j < i ==> j in SetOf(bitmap)
    {
      TestSlot(bitmap, i);
      if And(bitmap, Pow2(i)) == 0 {
        return;
      }
      i := i + 1;
    }
  }

  /** Only a slab above 64 bytes can empty entirely: a dynamic 64-byte slab keeps its header's bit. */
  lemma EmptiedIsLarge(L: Layout, h: HeapState, a: int, k: nat)
    requires HeapInv(L, h) && IsClient(h.s, a) && h.s.occ[a].hdr in h.s.slabs && h.s.slabs[h.s.occ[a].hdr].cls == k
    requires h.s.occ[a].hdr >= L.kernelEnd && Release(h.s, a).slabs[h.s.occ[a].hdr].bits == {}
    ensures k > 0
  {
    RetireFacts(L, h, a);
  }

  /** A header block just retired is an aligned client block. */
  lemma HeaderFreeable(L: Layout, h: HeapState, e: int)
    requires ClientOf(h, e, 0) && e % 64 == 0 && ClassSize(0) == 64
    ensures Freeable(h.s, e) && FreeOk(h.s, e) && BlockClass(h.s, e) == 0
  {
  }

  /** `kmfree` accepts a live block if and only if its slots are no larger than 4K or the top of the
      managed memory is a multiple of the slot size; otherwise it rejects every live block of the class. */
  lemma LiveFreeable(L: Layout, h: HeapState, a: int)
    requires HeapInv(L, h) && IsClient(h.s, a)
    ensures FreeOk(h.s, a) && h.s.occ[a].hdr in h.s.slabs && BlockClass(h.s, a) < CLASSES
    ensures var k := BlockClass(h.s, a); Freeable(h.s, a) <==> k <= SLAB_4K || h.g.hi % ClassSize(k) == 0
  {
    OwnerExists(L, h, a);
    SlabDivides(BlockClass(h.s, a));
    ClientResidue(L, h, a);
  }

  lemma StartRep(L: Layout, h: HeapState, m: Mem)
    requires HeapInv(L, h) && PmRep(L, m, h.g) && SlabRep(m, h.s)
    ensures Rep(L, h, m) && |h.s.lists| == CLASSES && |h.g.free| == 3
  {
  }

  class SlabAllocator {
    const L: Layout
    const pm: PhysMem
    ghost var s: SlabState

    constructor (L: Layout, pm: PhysMem)
      requires pm.L == L
      ensures this.L == L && this.pm == pm
    {
      this.L := L;
      this.pm := pm;
      s := SlabState([], map[], map[], {}, 0, 0);
    }

    ghost function H(): HeapState
      reads this, pm
    {
      HeapState(pm.g, s)
    }

    ghost predicate Valid()
      reads this, pm, pm.ram
    {
      pm.L == L && Rep(L, H(), pm.ram.mem) && pm.Valid() && |s.lists| == CLASSES && |pm.g.free| == 3
    }

    /** `slab_init`: every class starts with its static header on a page of its own. It succeeds exactly
        when seven units are left beside seven small blocks, and leaves the blocks in use as they were. */
    method SlabInit() returns (r: Outcome<()>)
      requires pm.L == L && pm.Valid()
      modifies this, pm, pm.ram
      ensures PmInv(L, old(pm.g)) && |old(pm.g).free| == 3
      ensures r.Done? <==> Units(old(pm.g)) >= if |old(pm.g).free[0]| >= 7 then 7 else 8
      ensures r.Panic? <==> InitPrefix(L, old(pm.g), CLASSES).Panic?
      ensures r.Done? ==>
        && Valid() && InitPrefix(L, old(pm.g), CLASSES) == Done(H())
        && Quiescent(L, s) && s.taken == CLASSES && (forall a :: !IsClient(s, a))
        && (forall b :: Foreign(H(), b) <==> IsUsed(old(pm.g), b))
        && StartKept(L, old(pm.g), old(pm.ram.mem), pm.ram.mem)
    {
      hide PmInv, PmCore, PmRep, SlabRep, PmFrame, StartKept, Started, Alloc, AllocAddr, CanAlloc, IsUsed, InitPrefix;
      hide Foreign, Quiescent, SlabInv, Units;
      ghost var g0, m0 := pm.g, pm.ram.mem;
      InitSupply(L, g0, CLASSES);
      s := EMPTY;
      InitPrefixStart(L, g0, m0);
      for i := 0 to CLASSES
        invariant pm.Valid() && pm.L == L && SlabRep(pm.ram.mem, s) && StartKept(L, g0, m0, pm.ram.mem)
        invariant InitPrefix(L, g0, i) == Done(H()) && Started(L, g0, H(), i)
      {
        ghost var h, m := H(), pm.ram.mem;
        InitPrefixNext(L, g0, h, i);
        var page :- pm.Pmalloc(if i > SLAB_4K then PM_512K else PM_4K);
        ghost var m1 := pm.ram.mem;
        AllocWord(L, h.g, PageLevel(i));
        StaticStep(L, g0, h, m0, m, m1, i);
        var slab := L.slabs + HEADER_BYTES * i;
        StaticMultiple(L, i);
        BitmapAligned(slab);
        pm.ram.Store(slab, page);
        pm.ram.Store(slab + BITMAP, 0);
        pm.ram.Store(slab + NEXT, 0);
        s := AddStatic(L, s, i, page);
      }
      StartOk(L, g0);
      StartRep(L, H(), pm.ram.mem);
      return Done(());
    }

    /** Sets the lowest free bit of the first header of the class that has one; NULL if none has. */
    method FindFreeSlab(idx: nat) returns (r: Outcome<int>)
      requires Valid() && idx != CLASSES
      modifies this, pm.ram
      ensures r.Panic? <==> idx > CLASSES
      ensures Valid() && Kept(L, old(H()), old(pm.ram.mem), pm.ram.mem)
      ensures ListsOk(L, old(s))
      ensures r.Done? && HasOpen(L, old(s), idx) ==> Grab(H(), r.value) == Take(L, old(H()), idx) && r.value > 0
      ensures r.Done? && !HasOpen(L, old(s), idx) ==> r.value == 0 && s == old(s) && pm.ram.mem == old(pm.ram.mem)
    {
      hide Rep, HeapInv, PmInv, PmCore, PmRep, Kept, ListsOk, Take, HasOpen, SetOf, And, Or, ClassSize, Slots, TakeSlot;
      ghost var h, m := H(), pm.ram.mem;
      KeptRefl(L, h, m);
      HeapParts(L, h, m);
      if idx > CLASSES {
        return Panic;
      }
      ClassTable(idx);
      var entry := L.slabs + HEADER_BYTES * idx;
      var size := ClassSize(idx);
      var pages := if size > PM_4K then PM_512K / size else PM_4K / size;
      SlotCount(idx);
      ghost var l, q := s.lists[idx], 0;
      EntryFacts(L, h, m, idx, 0);
      while entry != 0
        invariant pm.ram.mem == m && H() == h
        invariant 0 <= q <= |l| && entry == (if q < |l| then l[q] else 0) && (q < |l| ==> entry > 0)
        invariant forall p :: 0 <= p < q ==> l[p] in s.slabs && IsFull(s, l[p])
        decreases |l| - q
      {
        assert q < |l|;
        EntryFacts(L, h, m, idx, q);
        BitmapAligned(entry);
        var bitmap := pm.ram.Load(entry + BITMAP);
        if bitmap != WORD_MAX {
          var i := LowestFreeBit(bitmap, pages);
          if i < pages {
            TakeStep(L, h, m, idx, q, i, entry, bitmap);
            var address := pm.ram.Load(entry);
            pm.ram.Store(entry + BITMAP, Or(bitmap, Pow2(i)));
            s := TakeSlot(s, entry, i);
            HeapParts(L, H(), pm.ram.mem);
            return Done(address + i * size);
          }
        } else {
          FullWord();
        }
        assert IsFull(s, entry);
        if q + 1 < |l| { NextNonzero(L, h, idx, q + 1); }
        entry := pm.ram.Load(entry + NEXT);
        q := q + 1;
      }
      NoneOpen(L, s, idx);
      return Done(0);
    }

    /** Walks to the last header of a class. */
    method LastEntry(idx: nat) returns (last: int)
      requires Valid() && idx < CLASSES
      ensures s.lists[idx] != [] && last == s.lists[idx][|s.lists[idx]| - 1]
    {
      hide Rep, HeapInv, PmInv, PmCore, PmRep, ListsOk;
      ghost var h, m, l, q := H(), pm.ram.mem, s.lists[idx], 0;
      HeapParts(L, h, m);
      EntryFacts(L, h, m, idx, 0);
      if |l| > 1 { NextNonzero(L, h, idx, 1); }
      last := L.slabs + HEADER_BYTES * idx;
      BitmapAligned(last);
      var next := pm.ram.Load(last + NEXT);
      while next != 0
        invariant 0 <= q < |l| && last == l[q] && last % 8 == 0
        invariant next == if q + 1 < |l| then l[q + 1] else 0
        invariant q + 1 < |l| ==> next > 0
        decreases |l| - q
      {
        q := q + 1;
        EntryFacts(L, h, m, idx, q);
        last := next;
        BitmapAligned(last);
        next := pm.ram.Load(last + NEXT);
        if q + 1 < |l| { NextNonzero(L, h, idx, q + 1); }
      }
    }

    /** `kmalloc`: a zeroed block of at least `size` bytes. It succeeds exactly when the size is at most
        512K and its class has a free slot or memory holds what a new slab needs, and changes no byte of
        any other client, of any block outside the slab allocator, or of other kernel data. */
    method Kmalloc(size: nat) returns (r: Outcome<int>)
      requires Valid()
      modifies this, pm, pm.ram
      ensures Valid()
      ensures r.Done? <==> size <= PM_512K && CanServe(old(H()), SizeToClass(size).value)
      ensures r.Panic? <==> SizeToClass(size).Panic? || KAlloc(L, old(H()), SizeToClass(size).value).Panic?
      ensures r.Done? ==> var k := SizeToClass(size).value;
        && KAlloc(L, old(H()), k) == Done(Grab(H(), r.value))
        && OnlyAdds(old(H()), H(), r.value, k) && size <= ClassSize(k)
        && ZeroRange(pm.ram.mem, r.value, ClassSize(k))
        && Kept(L, old(H()), old(pm.ram.mem), pm.ram.mem)
      decreases size > 64
    {
      hide Rep, HeapInv, PmInv, PmCore, PmRep, Kept, ListsOk, Take, OnlyAdds, SameForeign, PmFrame, ZeroRange;
      hide KAlloc, KAlloc64, SlabInv, Placed, SlabRep;
      hide ClassSize, HasOpen, CanAlloc, Alloc, AllocAddr, CanServe;
      ghost var h0, m0 := H(), pm.ram.mem;
      HeapParts(L, h0, m0);
      if size <= 64 {
        SmallestClass(L, h0, size);
        KAllocServes(L, h0, 0);
        r := Kmalloc64();
        return;
      }
      var idx :- SizeToClass(size);
      KAllocServes(L, h0, idx);
      var found := FindFreeSlab(idx);
      var addr := found.value;
      KAllocCases(L, h0, idx);
      if addr != 0 {
        ghost var h1, m1 := H(), pm.ram.mem;
        ClassTable(idx);
        pm.ram.Memset(addr, ClassSize(idx));
        ZeroStep(L, h0, h1, addr, idx, m1, pm.ram.mem);
        HeapParts(L, h1, pm.ram.mem);
        KeptTwice(L, h0, m0, m1, pm.ram.mem);
        return Done(addr);
      }
      var entry := LastEntry(idx);
      SmallestClass(L, h0, HEADER_BYTES);
      var hdr :- Kmalloc(HEADER_BYTES);
      ghost var h, m := H(), pm.ram.mem;
      var page :- pm.Pmalloc(if idx > SLAB_4K then PM_512K else PM_4K);
      ghost var m1 := pm.ram.mem;
      GrowReady(L, h0, h, m0, m, m1, idx, hdr);
      KAllocOk(L, h0, idx);
      pm.ram.Store(hdr, page);
      pm.ram.Store(hdr + BITMAP, 1);
      pm.ram.Store(entry + NEXT, hdr);
      s := NewSlab(s, idx, hdr, page);
      HeapParts(L, H(), pm.ram.mem);
      return Done(page);
    }

    /** The branch of `kmalloc` for at most 64 bytes. */
    method Kmalloc64() returns (r: Outcome<int>)
      requires Valid()
      modifies this, pm, pm.ram
      ensures Valid() && HeapInv(L, old(H()))
      ensures r.Done? <==> CanServe(old(H()), 0)
      ensures r.Panic? <==> KAlloc64(L, old(H())).Panic?
      ensures r.Done? ==>
        && KAlloc64(L, old(H())) == Done(Grab(H(), r.value))
        && OnlyAdds(old(H()), H(), r.value, 0)
        && ZeroRange(pm.ram.mem, r.value, 64)
        && Kept(L, old(H()), old(pm.ram.mem), pm.ram.mem)
    {
      hide Rep, HeapInv, PmInv, PmCore, PmRep, Kept, ListsOk, Take, OnlyAdds, SameForeign, PmFrame, ZeroRange;
      hide ClassSize, HasOpen, CanAlloc, Alloc, AllocAddr, CanServe;
      ghost var h0, m0 := H(), pm.ram.mem;
      HeapParts(L, h0, m0);
      KAllocServes(L, h0, 0);
      ClassTable(0);
      var found := FindFreeSlab(0);
      var addr := found.value;
      if addr != 0 {
        ghost var h1, m1 := H(), pm.ram.mem;
        TakeOk(L, h0, 0);
        pm.ram.Memset(addr, 64);
        ZeroStep(L, h0, h1, addr, 0, m1, pm.ram.mem);
        HeapParts(L, h1, pm.ram.mem);
        KeptTwice(L, h0, m0, m1, pm.ram.mem);
        return Done(addr);
      }
      var last := LastEntry(0);
      var new_ :- pm.Pmalloc(PM_4K);
      Grow64Step(L, h0, m0, pm.ram.mem);
      Grow64Ok(L, h0);
      AllocWord(L, h0.g, 0);
      EntryFacts(L, h0, m0, 0, |h0.s.lists[0]| - 1);
      BitmapAligned(new_);
      BitmapAligned(last);
      pm.ram.Store(new_, new_);
      pm.ram.Store(new_ + BITMAP, 3);
      pm.ram.Store(last + NEXT, new_);
      s := NewSlab64(s, new_);
      HeapParts(L, H(), pm.ram.mem);
      return Done(new_ + 64);
    }

    /** The search of `kmfree`: the header whose page contains `addr`, with its position, or NULL. */
    method FindOwner(addr: int) returns (entry: int, prev: int, idx: nat, ghost q: nat)
      requires Valid()
      ensures entry == 0 ==> forall e :: e in s.slabs ==> !InPageOf(s, e, addr)
      ensures entry != 0 ==>
        && idx < CLASSES && q < |s.lists[idx]| && entry == s.lists[idx][q]
        && prev == (if q > 0 then s.lists[idx][q - 1] else 0)
        && entry in s.slabs && s.slabs[entry].cls == idx && InPageOf(s, entry, addr)
    {
      hide Rep, HeapInv, PmInv, PmCore, PmRep, ListsOk, PagesOk, SlotsOk, HeadersOk, Placed, SlabRep, SetOf, InPageOf;
      ghost var h, m := H(), pm.ram.mem;
      HeapParts(L, h, m);
      idx := 0;
      while idx < CLASSES
        invariant 0 <= idx <= CLASSES
        invariant forall e :: e in s.slabs && s.slabs[e].cls < idx ==> !InPageOf(s, e, addr)
      {
        entry, prev, q := L.slabs + HEADER_BYTES * idx, 0, 0;
        ghost var l := s.lists[idx];
        EntryFacts(L, h, m, idx, 0);
        var pageSize := if idx > SLAB_4K then PM_512K else PM_4K;
        while entry != 0
          invariant 0 <= q <= |l| && entry == (if q < |l| then l[q] else 0) && (q < |l| ==> entry > 0)
          invariant q < |l| ==> prev == if q > 0 then l[q - 1] else 0
          invariant forall p :: 0 <= p < q ==> l[p] in s.slabs && !InPageOf(s, l[p], addr)
          decreases |l| - q
        {
          EntryFacts(L, h, m, idx, q);
          BitmapAligned(entry);
          var address := pm.ram.Load(entry);
          PageTest(s, entry, addr);
          if address + pageSize > addr && address <= addr {
            return;
          }
          if q + 1 < |l| { NextNonzero(L, h, idx, q + 1); }
          prev := entry;
          entry := pm.ram.Load(entry + NEXT);
          q := q + 1;
        }
        ClassSearched(L, s, idx, addr);
        idx := idx + 1;
      }
      entry, prev, q := 0, 0, 0;
      AllSearched(L, s, addr);
    }

    /** The block `addr` of header `entry`, at position q of list k, has just been released. */
    ghost predicate JustReleased(h0: HeapState, m0: Mem, addr: int, k: nat, q: nat, prev: int, entry: int, next: int)
      reads this, pm, pm.ram
    {
      && pm.L == L && Released(L, h0, m0, pm.ram.mem, addr) && H() == HeapState(h0.g, Release(h0.s, addr))
      && h0.s.occ[addr].hdr == entry && entry % 8 == 0 && k < CLASSES && |h0.s.lists| == CLASSES
      && h0.s.slabs[entry].cls == k
      && At(pm.ram.mem, entry + NEXT) == next && 0 <= next < WORD_LIMIT && (prev + NEXT) % 8 == 0
      && (prev != 0 ==> Between(h0.s.lists[k], q, prev, entry, next))
    }

    /** `kmfree`, first conditional: an emptied dynamic slab is unlinked and its header freed. */
    method DropSlab(addr: int, entry: int, prev: int, ghost next: int, ghost k: nat, ghost q: nat, ghost h0: HeapState,
                    ghost m0: Mem)
      requires JustReleased(h0, m0, addr, k, q, prev, entry, next) && prev != 0 && s.slabs[entry].bits == {}
      modifies this, pm, pm.ram
      ensures Valid() && HeapInv(L, h0) && IsClient(h0.s, addr) && k > 0
      ensures H() == KFree(L, h0, addr) && OnlyRemoves(h0, H(), addr) && Kept(L, H(), m0, pm.ram.mem)
      decreases true, 0
    {
      hide Rep, HeapInv, PmInv, PmCore, PmRep, ListsOk, SetOf, Placed, SlabInv, SlabRep, Kept, IsClient, OnlyRemoves;
      hide ClientsLess, SameForeign, ClassSize, Retire, Release, KFree64, KFree, IsUsed, Between;
      ghost var h1, m1 := H(), pm.ram.mem;
      HeapParts(L, h0, m0);
      BitmapAligned(entry);
      var following := pm.ram.Load(entry + NEXT);
      RetireStep(L, h0, s, m1, addr, k, q, prev, entry, next);
      pm.ram.Store(prev + NEXT, following);
      s := Retire(s, entry);
      ghost var m2 := pm.ram.mem;
      HeapParts(L, H(), m2);
      RetireIsFree(L, h0, h1.s, addr, entry);
      SlabDivides(0);
      HeaderFreeable(L, H(), entry);
      var _ := Kmfree(entry);
      LessKept(L, h0, h1, H(), m0, m1, m2, addr);
      KeptTwice(L, H(), m0, m2, pm.ram.mem);
    }

    /** `kmfree`, second conditional: a 64-byte slab holding only its header is unlinked and its page
        given back. */
    method ReturnPage(addr: int, entry: int, prev: int, pageSize: int, ghost next: int, ghost q: nat,
                      ghost h0: HeapState, ghost m0: Mem)
      requires JustReleased(h0, m0, addr, 0, q, prev, entry, next) && prev != 0 && s.slabs[entry].bits == {0}
      requires pageSize == PM_4K
      modifies this, pm, pm.ram
      ensures Valid() && HeapInv(L, h0) && IsClient(h0.s, addr)
      ensures H() == KFree(L, h0, addr) && OnlyRemoves(h0, H(), addr) && Kept(L, H(), m0, pm.ram.mem)
    {
      hide Rep, HeapInv, PmInv, PmCore, PmRep, ListsOk, SetOf, Placed, SlabInv, SlabRep, Kept, IsClient, OnlyRemoves;
      hide ClientsLess, SameForeign, ClassSize, GiveBack, Release, KFree64, KFree, IsUsed, Between, PmFrame;
      ghost var h1, m1 := H(), pm.ram.mem;
      HeapParts(L, h0, m0);
      BitmapAligned(entry);
      var following := pm.ram.Load(entry + NEXT);
      GiveBackStep(L, h0, s, m1, addr, q, prev, entry, next);
      pm.ram.Store(prev + NEXT, following);
      ghost var m2 := pm.ram.mem;
      GiveBackIsFree(L, h0, s, addr, entry);
      s := GiveBack(s, entry);
      var _ := pm.Pmfree(entry, pageSize);
      PmStepRep(L, H(), m2, pm.ram.mem);
      HeapParts(L, H(), pm.ram.mem);
      LessKept(L, h0, h1, H(), m0, m1, m2, addr);
      KeptTwice(L, H(), m0, m2, pm.ram.mem);
    }

    /** `kmfree`: panics exactly when `addr` is not a client block aligned to its slot size; otherwise
        removes just that block and changes no byte of any other client. */
    method Kmfree(addr: int) returns (r: Outcome<()>)
      requires Valid() && FreeOk(s, addr)
      modifies this, pm, pm.ram
      ensures r.Panic? <==> !Freeable(old(s), addr)
      ensures r.Panic? ==> Valid() && H() == old(H()) && pm.ram.mem == old(pm.ram.mem)
      ensures r.Done? ==>
        && Valid() && HeapInv(L, old(H()))
        && H() == KFree(L, old(H()), addr) && OnlyRemoves(old(H()), H(), addr)
        && Kept(L, H(), old(pm.ram.mem), pm.ram.mem)
      decreases Freeable(s, addr) && BlockClass(s, addr) > 0, 1
    {
      hide Rep, HeapInv, PmInv, PmCore, PmRep, ListsOk, SetOf, InPageOf, Placed, SlabInv, SlabRep, Kept, PmFrame;
      hide IsClient, OnlyRemoves, SameForeign, And, ClassSize, Slots, Retire, GiveBack, Release, KFree64, KFree;
      hide Without, IsUsed, Between;
      ghost var h0, m0 := H(), pm.ram.mem;
      HeapParts(L, h0, m0);
      if addr == 0 {
        NullIsNoClient(L, h0);
        return Panic;
      }
      var entry, prev, k, q := FindOwner(addr);
      if entry == 0 {
        NoOwnerNoClient(L, h0, addr);
        return Panic;
      }
      EntryFacts(L, h0, m0, k, q);
      SlotCount(k);
      SlabDivides(k);
      var address := pm.ram.Load(entry);
      var pageSize := if k > SLAB_4K then PM_512K else PM_4K;
      var slabSize := ClassSize(k);
      PageTest(s, entry, addr);
      var idx := (addr - address) / slabSize;
      SlotIndexInRange(addr - address, slabSize, pageSize);
      OwnerOfClient(L, h0, entry, addr);
      if addr % slabSize != 0 || idx < 0 || idx >= pageSize / slabSize {
        return Panic;
      }
      BitmapAligned(entry);
      Neighbours(L, h0, m0, k, q, prev);
      var bitmap := pm.ram.Load(entry + BITMAP);
      ReleaseStep(L, h0, m0, addr, entry, idx, bitmap);
      BitmapTests(And(bitmap, Not(Pow2(idx))));
      pm.ram.Store(entry + BITMAP, And(bitmap, Not(Pow2(idx))));
      ghost var m1 := pm.ram.mem;
      s := Release(s, addr);
      ReleaseIs(h0.s, addr);
      bitmap := pm.ram.Load(entry + BITMAP);
      if bitmap == 0 && prev != 0 {
        EmptiedIsLarge(L, h0, addr, k);
        DropSlab(addr, entry, prev, At(m0, entry + NEXT), k, q, h0, m0);
      } else if !(bitmap == 1 && slabSize == SLAB_MIN_SIZE && prev != 0) {
        PlainCase(L, h0, m0, m1, addr);
        HeapParts(L, H(), m1);
      }
      bitmap := pm.ram.Load(entry + BITMAP);
      if bitmap == 1 && slabSize == SLAB_MIN_SIZE && prev != 0 {
        ReturnPage(addr, entry, prev, pageSize, At(m0, entry + NEXT), q, h0, m0);
      }
      return Done(());
    }
  }
}
