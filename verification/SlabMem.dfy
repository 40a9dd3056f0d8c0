/** How the slab allocator's abstract state is laid out in memory, and what a write to one of its
    headers or to a client block can and cannot disturb. */
module SlabMem {
  import opened Bits
  import opened Memory
  import opened Blocks
  import opened Slabs
  import opened Heap

  const BITMAP := 8
  const NEXT := 16

  /** `struct SLAB`: the page address and the occupancy bitmap of one header. */
  ghost predicate HdrRep(m: Mem, s: SlabState, h: int)
    requires h in s.slabs
  {
    && At(m, h) == s.slabs[h].page
    && 0 <= At(m, h + BITMAP) < WORD_LIMIT
    && SetOf(At(m, h + BITMAP)) == s.slabs[h].bits
  }

  ghost predicate LinkOk(m: Mem, l: seq<int>, i: int)
    requires 0 <= i < |l|
  {
    At(m, l[i] + NEXT) == if i + 1 < |l| then l[i + 1] else 0
  }

  ghost predicate Threaded(m: Mem, l: seq<int>) {
    forall i :: 0 <= i < |l| ==> LinkOk(m, l, i)
  }

  ghost predicate SlabRep(m: Mem, s: SlabState) {
    && (forall h :: h in s.slabs ==> HdrRep(m, s, h))
    && (forall k :: 0 <= k < |s.lists| ==> Threaded(m, s.lists[k]))
  }

  /** Unchanged: every client block of `h`, everybody else's blocks, and other kernel data. */
  ghost predicate Kept(L: Layout, h: HeapState, m: Mem, m': Mem) {
    && (forall a, k, x :: ClientOf(h, a, k) && a <= x < a + ClassSize(k) ==> At(m', x) == At(m, x))
    && (forall b, x :: Foreign(h, b) && b <= x < b + Size(h.g.blocks[b]) ==> At(m', x) == At(m, x))
    && (forall x :: OtherKernelData(L, x) ==> At(m', x) == At(m, x))
  }

  ghost predicate OtherKernelData(L: Layout, x: int) {
    x < L.kernelEnd && !(L.pmmap <= x < L.pmmap + 24) && !(L.slabs <= x < L.slabs + HEADER_BYTES * CLASSES)
  }

  lemma KeptRefl(L: Layout, h: HeapState, m: Mem)
    ensures Kept(L, h, m, m)
  {
  }

  lemma KeptTrans(L: Layout, h1: HeapState, h2: HeapState, h: HeapState, m1: Mem, m2: Mem, m3: Mem)
    requires Kept(L, h1, m1, m2) && Kept(L, h2, m2, m3)
    requires forall a, k :: ClientOf(h, a, k) ==> ClientOf(h1, a, k) && ClientOf(h2, a, k)
    requires SameForeign(h, h1) && SameForeign(h, h2)
    ensures Kept(L, h, m1, m3)
  {
    hide ClientOf, Foreign, OtherKernelData;
  }

  // ---- Where headers are ----

  /** Every header lies wholly in the static table or wholly in a block in use. */
  lemma HdrPlace(L: Layout, g: PmState, s: SlabState, h: int)
    requires PmCore(L, g) && Placed(L, g, s) && h in s.slabs
    ensures h % 8 == 0 && h > 0
    ensures h >= L.kernelEnd ==> h % 64 == 0
    ensures if h < L.kernelEnd then L.slabs <= h && h + HEADER_BYTES <= L.slabs + HEADER_BYTES * CLASSES
            else h in s.occ && s.occ[h].hdr in s.slabs && var b := s.slabs[s.occ[h].hdr].page;
              IsUsed(g, b) && g.blocks[b] == 0 && b <= h && h + 64 <= b + PM_4K
  {
    if h >= L.kernelEnd {
      OccPlace(L, g, s, h);
      ClassTable(0);
    } else {
      StaticMultiple(L, s.slabs[h].cls);
    }
  }

  lemma StaticMultiple(L: Layout, k: nat)
    ensures StaticHdr(L, k) % 8 == 0
  {
    var q := L.slabs / 8;
    Multiples(q + 3 * k, 0);
    assert StaticHdr(L, k) == 8 * (q + 3 * k);
  }

  lemma PageAligned(L: Layout, g: PmState, p: int)
    requires PmCore(L, g) && p in g.blocks
    ensures p % PM_4K == 0 && L.kernelEnd <= p
  {
  }

  lemma SlotMultiple(p: int, j: nat, k: nat)
    requires p % PM_4K == 0
    ensures var a := p + j * ClassSize(k); a % 64 == 0 && a % 8 == 0
  {
    var q, n := p / 4096, j * Pow2(k);
    Multiples(512 * q + 8 * n, 64 * q + n);
    assert j * (64 * Pow2(k)) == 64 * n;
    assert p + j * ClassSize(k) == 64 * (64 * q + n) == 8 * (512 * q + 8 * n);
  }

  lemma HdrsApart(L: Layout, g: PmState, s: SlabState, h: int, h': int)
    requires PmCore(L, g) && Placed(L, g, s) && h in s.slabs && h' in s.slabs && h < h'
    ensures h + HEADER_BYTES <= h'
  {
    HdrPlace(L, g, s, h);
    HdrPlace(L, g, s, h');
    if h >= L.kernelEnd {
      OccupantsApart(L, g, s, h, h');
      ClassTable(0);
    }
  }

  /** A header does not overlap a client block. */
  lemma HdrClientApart(L: Layout, g: PmState, s: SlabState, h: int, a: int)
    requires PmCore(L, g) && Placed(L, g, s) && h in s.slabs && IsClient(s, a) && s.occ[a].hdr in s.slabs
    ensures h + HEADER_BYTES <= a || a + ClassSize(BlockClass(s, a)) <= h
  {
    hide ListsOk, PagesOk, SlotsOk, HeadersOk, PmCore, ClassSize, IsUsed;
    HdrPlace(L, g, s, h);
    OccPlace(L, g, s, a);
    if h >= L.kernelEnd {
      HeaderBlock(L, g, s, h);
      ClassTable(0);
      if h < a { OccupantsApart(L, g, s, h, a); } else { OccupantsApart(L, g, s, a, h); }
    }
  }

  /** An occupied slot lies wholly in the page of its slab, which is in use. */
  lemma OccPlace(L: Layout, g: PmState, s: SlabState, a: int)
    requires PmCore(L, g) && Placed(L, g, s) && a in s.occ && s.occ[a].hdr in s.slabs
    ensures var b := s.slabs[s.occ[a].hdr].page;
      && IsUsed(g, b) && IsPage(s, b) && g.blocks[b] == PageLevel(BlockClass(s, a))
      && L.kernelEnd <= b <= a && a + ClassSize(BlockClass(s, a)) <= b + Size(g.blocks[b])
    ensures a % 8 == 0 && a % 64 == 0
  {
    hide ListsOk, PagesOk, SlotsOk, HeadersOk, PmCore, ClassSize;
    var o := s.occ[a];
    OccFacts(L, g, s, a);
    SlotInPage(s, o.hdr, o.slot);
    PageAligned(L, g, s.slabs[o.hdr].page);
    SlotMultiple(s.slabs[o.hdr].page, o.slot, s.slabs[o.hdr].cls);
  }

  // ---- Writes ----

  /** The cells a slab operation may write besides the block it hands out: those of a header. */
  ghost predicate InHdr(h: int, x: int) {
    h <= x < h + HEADER_BYTES
  }

  lemma HdrWriteKept(L: Layout, h: HeapState, m: Mem, hdr: int, x: int, v: int)
    requires PmCore(L, h.g) && Placed(L, h.g, h.s) && hdr in h.s.slabs && InHdr(hdr, x)
    ensures Kept(L, h, m, Put(m, x, v))
  {
    HdrPlace(L, h.g, h.s, hdr);
    forall a, k | ClientOf(h, a, k) ensures !(a <= x < a + ClassSize(k)) {
      HdrClientApart(L, h.g, h.s, hdr, a);
    }
    forall b | Foreign(h, b) ensures !(b <= x < b + Size(h.g.blocks[b])) {
      if hdr < L.kernelEnd {
        UsedAbove(L, h.g, b);
      } else {
        var p := h.s.slabs[h.s.occ[hdr].hdr].page;
        assert IsPage(h.s, p);
        BlocksApart(L, h.g, b, p);
      }
    }
  }

  lemma HdrWritePm(L: Layout, h: HeapState, m: Mem, hdr: int, x: int, v: int)
    requires PmCore(L, h.g) && PmRep(L, m, h.g) && Placed(L, h.g, h.s) && hdr in h.s.slabs && InHdr(hdr, x)
    ensures PmRep(L, Put(m, x, v), h.g)
  {
    HdrPlace(L, h.g, h.s, hdr);
    if hdr < L.kernelEnd {
      LowWritePm(L, h.g, m, x, v);
    } else {
      UsedWritePm(L, h.g, m, Put(m, x, v), h.s.slabs[h.s.occ[hdr].hdr].page);
    }
  }

  /** Header cells that keep their contents keep the representation. */
  lemma RepFrame(L: Layout, s: SlabState, m: Mem, m': Mem)
    requires ListsOk(L, s) && SlabRep(m, s)
    requires forall h, x :: h in s.slabs && InHdr(h, x) ==> At(m', x) == At(m, x)
    ensures SlabRep(m', s)
  {
    forall h | h in s.slabs ensures HdrRep(m', s, h) {
      assert HdrRep(m, s, h);
      assert InHdr(h, h) && InHdr(h, h + BITMAP);
    }
    forall k, i | 0 <= k < |s.lists| && 0 <= i < |s.lists[k]| ensures LinkOk(m', s.lists[k], i) {
      ListedClass(L, s, k, s.lists[k][i]);
      assert Threaded(m, s.lists[k]) && LinkOk(m, s.lists[k], i);
      assert InHdr(s.lists[k][i], s.lists[k][i] + NEXT);
    }
  }

  /** A step of the physical allocator disturbs neither headers nor clients. */
  lemma PmStepKept(L: Layout, h: HeapState, m: Mem, m': Mem)
    requires PmCore(L, h.g) && Placed(L, h.g, h.s) && SlabRep(m, h.s) && PmFrame(L, h.g, m, m')
    ensures SlabRep(m', h.s) && Kept(L, h, m, m')
  {
    hide PmCore, ListsOk, PagesOk, SlotsOk, HeadersOk, SlabRep, IsPage, IsUsed, ClassSize;
    PmStepHdrs(L, h, m, m');
    RepFrame(L, h.s, m, m');
    forall a, k, x | ClientOf(h, a, k) && a <= x < a + ClassSize(k) ensures At(m', x) == At(m, x) {
      OccPlace(L, h.g, h.s, a);
    }
  }

  lemma PmStepHdrs(L: Layout, h: HeapState, m: Mem, m': Mem)
    requires PmCore(L, h.g) && Placed(L, h.g, h.s) && PmFrame(L, h.g, m, m')
    ensures forall hdr, x :: hdr in h.s.slabs && InHdr(hdr, x) ==> At(m', x) == At(m, x)
  {
    hide PmCore, ListsOk, PagesOk, SlotsOk, HeadersOk, IsPage, IsUsed;
    forall hdr, x | hdr in h.s.slabs && InHdr(hdr, x) ensures At(m', x) == At(m, x) {
      HdrPlace(L, h.g, h.s, hdr);
      if hdr >= L.kernelEnd { assert IsUsed(h.g, h.s.slabs[h.s.occ[hdr].hdr].page); }
    }
  }

  /** Whatever is written inside a client block, headers, free lists and all other clients stay. */
  lemma ClientWrite(L: Layout, h: HeapState, m: Mem, m': Mem, a: int)
    requires PmCore(L, h.g) && PmRep(L, m, h.g) && Placed(L, h.g, h.s) && SlabRep(m, h.s)
    requires IsClient(h.s, a) && h.s.occ[a].hdr in h.s.slabs
    requires forall x :: !(a <= x < a + ClassSize(BlockClass(h.s, a))) ==> At(m', x) == At(m, x)
    ensures PmRep(L, m', h.g) && SlabRep(m', h.s)
    ensures forall b, k, x :: ClientOf(h, b, k) && b != a && b <= x < b + ClassSize(k) ==> At(m', x) == At(m, x)
    ensures forall b, x :: Foreign(h, b) && b <= x < b + Size(h.g.blocks[b]) ==> At(m', x) == At(m, x)
    ensures forall x :: x < L.kernelEnd ==> At(m', x) == At(m, x)
  {
    OccPlace(L, h.g, h.s, a);
    var p := h.s.slabs[h.s.occ[a].hdr].page;
    UsedWritePm(L, h.g, m, m', p);
    forall hdr, x | hdr in h.s.slabs && InHdr(hdr, x) ensures At(m', x) == At(m, x) {
      HdrClientApart(L, h.g, h.s, hdr, a);
    }
    RepFrame(L, h.s, m, m');
    forall b, k, x | ClientOf(h, b, k) && b != a && b <= x < b + ClassSize(k) ensures At(m', x) == At(m, x) {
      if a < b { OccupantsApart(L, h.g, h.s, a, b); } else { OccupantsApart(L, h.g, h.s, b, a); }
    }
    forall b, x | Foreign(h, b) && b <= x < b + Size(h.g.blocks[b]) ensures At(m', x) == At(m, x) {
      BlocksApart(L, h.g, b, p);
    }
  }

  // ---- The representation through each transition ----

  /** Rewriting the bitmap word of one header. */
  lemma BitmapRep(L: Layout, g: PmState, s: SlabState, t: SlabState, m: Mem, h: int, w: int)
    requires PmCore(L, g) && Placed(L, g, s) && SlabRep(m, s) && h in s.slabs && 0 <= w < WORD_LIMIT
    requires t.slabs == s.slabs[h := s.slabs[h].(bits := SetOf(w))] && t.lists == s.lists
    ensures SlabRep(Put(m, h + BITMAP, w), t)
  {
    var m' := Put(m, h + BITMAP, w);
    forall q | q in t.slabs ensures HdrRep(m', t, q) {
      assert HdrRep(m, s, q);
      if q < h { HdrsApart(L, g, s, q, h); } else if h < q { HdrsApart(L, g, s, h, q); }
    }
    forall k, i | 0 <= k < |t.lists| && 0 <= i < |t.lists[k]| ensures LinkOk(m', t.lists[k], i) {
      assert Threaded(m, s.lists[k]) && LinkOk(m, s.lists[k], i);
      var q := s.lists[k][i];
      ListedClass(L, s, k, q);
      if q < h { HdrsApart(L, g, s, q, h); } else if h < q { HdrsApart(L, g, s, h, q); }
    }
  }

  lemma NotTheLink(L: Layout, g: PmState, s: SlabState, h: int, last: int)
    requires PmCore(L, g) && Placed(L, g, s) && h in s.slabs && last in s.slabs
    ensures h != last + NEXT && h + BITMAP != last + NEXT && (h + NEXT == last + NEXT ==> h == last)
  {
    if h < last { HdrsApart(L, g, s, h, last); } else if last < h { HdrsApart(L, g, s, last, h); }
  }

  /** Memory in which, of the headers of `s`, at most the link of `q` has changed. */
  ghost predicate OnlyLink(s: SlabState, m: Mem, m': Mem, q: int) {
    forall h, x :: h in s.slabs && InHdr(h, x) && x != q + NEXT ==> At(m', x) == At(m, x)
  }

  lemma HdrElsewhere(L: Layout, g: PmState, s: SlabState, t: SlabState, m: Mem, m': Mem, h: int, q: int)
    requires HdrsIn(L, g, s, t) && SlabRep(m, s) && h in s.slabs && q in s.slabs && OnlyLink(s, m, m', q)
    ensures h in t.slabs && (t.slabs[h] == s.slabs[h] ==> HdrRep(m', t, h))
  {
    NotTheLink(L, g, t, h, q);
    hide Placed, PmCore;
    assert HdrRep(m, s, h);
    assert InHdr(h, h) && InHdr(h, h + BITMAP);
  }

  /** A placed state in which the headers of `s` are apart. */
  ghost predicate HdrsIn(L: Layout, g: PmState, s: SlabState, t: SlabState) {
    PmCore(L, g) && Placed(L, g, t) && forall h :: h in s.slabs ==> h in t.slabs
  }

  lemma LinkElsewhere(L: Layout, g: PmState, s: SlabState, t: SlabState, m: Mem, m': Mem, j: nat, i: nat, q: int)
    requires HdrsIn(L, g, s, t) && ListsOk(L, s) && SlabRep(m, s) && j < CLASSES && i < |s.lists[j]|
    requires q in s.slabs && s.lists[j][i] != q && OnlyLink(s, m, m', q)
    ensures LinkOk(m', s.lists[j], i)
  {
    hide ListsOk, Placed, PmCore;
    ListsLen(L, s);
    var h := s.lists[j][i];
    ListedClass(L, s, j, h);
    assert Threaded(m, s.lists[j]) && LinkOk(m, s.lists[j], i);
    assert InHdr(h, h + NEXT);
    NotTheLink(L, g, t, h, q);
  }

  lemma ListElsewhere(L: Layout, g: PmState, s: SlabState, t: SlabState, m: Mem, m': Mem, j: nat, q: int)
    requires HdrsIn(L, g, s, t) && ListsOk(L, s) && SlabRep(m, s) && j < CLASSES
    requires q in s.slabs && s.slabs[q].cls != j && OnlyLink(s, m, m', q)
    ensures Threaded(m', s.lists[j])
  {
    forall i | 0 <= i < |s.lists[j]| ensures LinkOk(m', s.lists[j], i) {
      ListedClass(L, s, j, s.lists[j][i]);
      LinkElsewhere(L, g, s, t, m, m', j, i, q);
    }
  }

  lemma AppendLinked(m: Mem, l: seq<int>, n: int)
    requires l != [] && At(m, l[|l| - 1] + NEXT) == n && At(m, n + NEXT) == 0
    requires forall i :: 0 <= i < |l| - 1 ==> LinkOk(m, l, i)
    ensures Threaded(m, l + [n])
  {
    var w := l + [n];
    forall i | 0 <= i < |w| ensures LinkOk(m, w, i) {
      if i < |l| - 1 { assert LinkOk(m, l, i); }
    }
  }

  lemma UnlinkLinked(m: Mem, l: seq<int>, i: nat)
    requires 0 < i < |l| && At(m, l[i - 1] + NEXT) == if i + 1 < |l| then l[i + 1] else 0
    requires forall q :: 0 <= q < |l| && q != i - 1 ==> LinkOk(m, l, q)
    ensures Threaded(m, l[..i] + l[i + 1..])
  {
    var w := l[..i] + l[i + 1..];
    forall q | 0 <= q < |w| ensures LinkOk(m, w, q) {
      if q < i - 1 { assert LinkOk(m, l, q); } else if q > i - 1 { assert LinkOk(m, l, q + 1); }
    }
  }

  /** Appending header `n` behind the last header of its list. */
  lemma AppendRep(L: Layout, g: PmState, s: SlabState, t: SlabState, m: Mem, m': Mem, k: nat, n: int)
    requires |s.lists| == CLASSES && k < CLASSES && s.lists[k] != []
    requires ListsOk(L, s) && SlabRep(m, s) && n !in s.slabs && n in t.slabs
    requires t.slabs == s.slabs[n := t.slabs[n]] && t.lists == s.lists[k := s.lists[k] + [n]]
    requires HdrsIn(L, g, s, t)
    requires var last := s.lists[k][|s.lists[k]| - 1]; At(m', last + NEXT) == n && OnlyLink(s, m, m', last)
    requires HdrRep(m', t, n) && At(m', n + NEXT) == 0
    ensures SlabRep(m', t)
  {
    hide *;
    var l := s.lists[k];
    var last := l[|l| - 1];
    ListedClass(L, s, k, last);
    HdrsElsewhere(L, g, s, t, m, m', last);
    AppendedList(L, g, s, t, m, m', k, n);
    OthersElsewhere(L, g, s, t, m, m', k, last);
    RepFromParts(m', t, k);
  }

  lemma RepFromParts(m: Mem, t: SlabState, k: nat)
    requires forall h :: h in t.slabs ==> HdrRep(m, t, h)
    requires k < |t.lists| && Threaded(m, t.lists[k]) && forall j :: 0 <= j < |t.lists| && j != k ==>
      Threaded(m, t.lists[j])
    ensures SlabRep(m, t)
  {
  }

  lemma HdrsElsewhere(L: Layout, g: PmState, s: SlabState, t: SlabState, m: Mem, m': Mem, q: int)
    requires HdrsIn(L, g, s, t) && SlabRep(m, s) && q in s.slabs && OnlyLink(s, m, m', q)
    ensures forall h :: h in s.slabs ==> h in t.slabs && (t.slabs[h] == s.slabs[h] ==> HdrRep(m', t, h))
  {
    forall h | h in s.slabs ensures h in t.slabs && (t.slabs[h] == s.slabs[h] ==> HdrRep(m', t, h)) {
      HdrElsewhere(L, g, s, t, m, m', h, q);
    }
  }

  lemma OthersElsewhere(L: Layout, g: PmState, s: SlabState, t: SlabState, m: Mem, m': Mem, k: nat, q: int)
    requires HdrsIn(L, g, s, t) && ListsOk(L, s) && SlabRep(m, s) && q in s.slabs && s.slabs[q].cls == k
    requires OnlyLink(s, m, m', q)
    ensures forall j :: 0 <= j < CLASSES && j != k ==> Threaded(m', s.lists[j])
  {
    forall j | 0 <= j < CLASSES && j != k ensures Threaded(m', s.lists[j]) {
      ListElsewhere(L, g, s, t, m, m', j, q);
    }
  }

  lemma OnceListed(L: Layout, s: SlabState, k: nat, i: nat, j: nat)
    requires ListsOk(L, s) && k < CLASSES && i < |s.lists[k]| && j < |s.lists[k]| && i != j
    ensures s.lists[k][i] != s.lists[k][j]
  {
  }

  lemma AppendedList(L: Layout, g: PmState, s: SlabState, t: SlabState, m: Mem, m': Mem, k: nat, n: int)
    requires HdrsIn(L, g, s, t) && ListsOk(L, s) && SlabRep(m, s) && k < CLASSES
    requires var last := s.lists[k][|s.lists[k]| - 1];
      && last in s.slabs && At(m', last + NEXT) == n
      && OnlyLink(s, m, m', last)
    requires At(m', n + NEXT) == 0
    ensures Threaded(m', s.lists[k] + [n])
  {
    hide ListsOk, Placed, PmCore, OnlyLink, HdrRep;
    ListsLen(L, s);
    ListHead(L, s, k);
    var l := s.lists[k];
    var last := l[|l| - 1];
    forall i | 0 <= i < |l| - 1 ensures LinkOk(m', l, i) {
      OnceListed(L, s, k, i, |l| - 1);
      LinkElsewhere(L, g, s, t, m, m', k, i, last);
    }
    AppendLinked(m', l, n);
  }

  /** Unlinking the header at position i > 0 of list k. */
  lemma UnlinkRep(L: Layout, g: PmState, s: SlabState, t: SlabState, m: Mem, k: nat, i: nat)
    requires |s.lists| == CLASSES && k < CLASSES && 0 < i < |s.lists[k]|
    requires HdrsIn(L, g, s, s) && ListsOk(L, s) && SlabRep(m, s)
    requires t.slabs == s.slabs - {s.lists[k][i]} && t.lists == s.lists[k := Without(s.lists[k], s.lists[k][i])]
    ensures var l := s.lists[k]; SlabRep(Put(m, l[i - 1] + NEXT, if i + 1 < |l| then l[i + 1] else 0), t)
  {
    hide *;
    var l := s.lists[k];
    var prev := l[i - 1];
    var m' := Put(m, prev + NEXT, if i + 1 < |l| then l[i + 1] else 0);
    ListedClass(L, s, k, prev);
    ListNoDup(L, s, k);
    OnlyLinkPut(s, m, prev, if i + 1 < |l| then l[i + 1] else 0);
    HdrsElsewhere(L, g, s, s, m, m', prev);
    UnlinkedList(L, g, s, m, m', k, i);
    OthersElsewhere(L, g, s, s, m, m', k, prev);
    WithoutIs(l, i);
    UnlinkedHdrs(s, t, m', l[i]);
    RepFromParts(m', t, k);
  }

  lemma ListNoDup(L: Layout, s: SlabState, k: nat)
    requires ListsOk(L, s) && k < CLASSES
    ensures NoDup(s.lists[k])
  {
  }

  lemma OnlyLinkPut(s: SlabState, m: Mem, q: int, v: int)
    ensures OnlyLink(s, m, Put(m, q + NEXT, v), q)
  {
  }

  lemma UnlinkedHdrs(s: SlabState, t: SlabState, m: Mem, q: int)
    requires t.slabs == s.slabs - {q} && forall h :: h in s.slabs ==> HdrRep(m, s, h)
    ensures forall h :: h in t.slabs ==> HdrRep(m, t, h)
  {
    forall h | h in t.slabs ensures HdrRep(m, t, h) { assert HdrRep(m, s, h); }
  }

  lemma UnlinkedList(L: Layout, g: PmState, s: SlabState, m: Mem, m': Mem, k: nat, i: nat)
    requires HdrsIn(L, g, s, s) && ListsOk(L, s) && SlabRep(m, s) && k < CLASSES && 0 < i < |s.lists[k]|
    requires var l := s.lists[k];
      && l[i - 1] in s.slabs && OnlyLink(s, m, m', l[i - 1])
      && At(m', l[i - 1] + NEXT) == if i + 1 < |l| then l[i + 1] else 0
    ensures var l := s.lists[k]; Threaded(m', l[..i] + l[i + 1..])
  {
    hide ListsOk, Placed, PmCore, OnlyLink, HdrRep;
    ListsLen(L, s);
    var l := s.lists[k];
    forall q | 0 <= q < |l| && q != i - 1 ensures LinkOk(m', l, q) {
      OnceListed(L, s, k, q, i - 1);
      LinkElsewhere(L, g, s, s, m, m', k, q, l[i - 1]);
    }
    UnlinkLinked(m', l, i);
  }

  lemma PositionIs(L: Layout, s: SlabState, k: nat, i: nat)
    requires ListsOk(L, s) && HeadersOk(L, s) && k < CLASSES && i < |s.lists[k]|
    ensures s.lists[k][i] in s.slabs && s.slabs[s.lists[k][i]].cls == k
    ensures s.lists[k][i] >= L.kernelEnd <==> i > 0
  {
    ListedClass(L, s, k, s.lists[k][i]);
    ListedClass(L, s, k, s.lists[k][0]);
    assert i > 0 ==> s.lists[k][i] != s.lists[k][0];
  }
}
