/** The memory side of a page-table walk: the words written, that they represent the new tree, and
    that they leave everybody else's memory alone. */
module PageMem {
  import opened Bits
  import opened Memory
  import opened Blocks
  import opened PageTables
  import opened PageWalk

  ghost predicate VRep(L: Layout, st: VmSt, m: Mem) {
    StOk(L, st) && PmRep(L, m, st.g) && VmRep(m, st.v)
  }

  /** The cell that links position `p` from its table. */
  ghost function LinkCell(v: VmState, p: Pos): int
    requires Parent(p) in v.ent
  {
    Frame(v.ent[Parent(p)]) + 8 * (p.idx % ENTRIES)
  }

  /** The cells that link the positions `v'` maps and `v` does not. */
  ghost function NewLinks(v: VmState, v': VmState): set<int> {
    set p | p in v'.ent && p !in v.ent && Parent(p) in v'.ent :: LinkCell(v', p)
  }

  /** Unchanged: every byte of every block in use but the cells in `e`, and all kernel data but `pmmap`. */
  ghost predicate Spared(L: Layout, g: PmState, m: Mem, m': Mem, e: set<int>) {
    && (forall b, x :: IsUsed(g, b) && b <= x < b + Size(g.blocks[b]) && x !in e ==> At(m', x) == At(m, x))
    && (forall x :: x < L.kernelEnd && !(L.pmmap <= x < L.pmmap + 24) ==> At(m', x) == At(m, x))
  }

  /** Everything mapped stays mapped the same way, and every block in use stays in use. */
  ghost predicate Keeps(st: VmSt, st': VmSt) {
    && (forall q :: q in st.v.ent ==> q in st'.v.ent && st'.v.ent[q] == st.v.ent[q])
    && (forall b :: IsUsed(st.g, b) ==> IsUsed(st'.g, b) && st'.g.blocks[b] == st.g.blocks[b])
  }

  /** A walk writes nothing in a block in use but the cells that link what it newly maps. */
  ghost predicate VmKept(L: Layout, st: VmSt, st': VmSt, m: Mem, m': Mem) {
    Keeps(st, st') && Spared(L, st.g, m, m', NewLinks(st.v, st'.v))
  }

  lemma VmKeptRefl(L: Layout, st: VmSt, m: Mem)
    ensures VmKept(L, st, st, m, m)
  {
  }

  lemma VmKeptTrans(L: Layout, st: VmSt, st1: VmSt, st2: VmSt, m: Mem, m1: Mem, m2: Mem)
    requires VmKept(L, st, st1, m, m1) && VmKept(L, st1, st2, m1, m2)
    ensures VmKept(L, st, st2, m, m2)
  {
    LinksGrow(st, st1, st2);
    hide NewLinks;
    SparedTrans(L, st.g, st1.g, m, m1, m2, NewLinks(st.v, st1.v), NewLinks(st1.v, st2.v), NewLinks(st.v, st2.v));
    hide Spared, IsUsed;
  }

  lemma LinksGrow(st: VmSt, st1: VmSt, st2: VmSt)
    requires Keeps(st, st1) && Keeps(st1, st2)
    ensures NewLinks(st.v, st1.v) <= NewLinks(st.v, st2.v) && NewLinks(st1.v, st2.v) <= NewLinks(st.v, st2.v)
  {
    hide IsUsed, Frame;
    forall c | c in NewLinks(st.v, st1.v) ensures c in NewLinks(st.v, st2.v) {
      var p :| p in st1.v.ent && p !in st.v.ent && Parent(p) in st1.v.ent && LinkCell(st1.v, p) == c;
      assert p in st2.v.ent && LinkCell(st2.v, p) == c;
    }
    forall c | c in NewLinks(st1.v, st2.v) ensures c in NewLinks(st.v, st2.v) {
      var p :| p in st2.v.ent && p !in st1.v.ent && Parent(p) in st2.v.ent && LinkCell(st2.v, p) == c;
      assert p !in st.v.ent;
    }
  }

  lemma FewerLinks(v: VmState, v1: VmState, v2: VmState)
    requires v.ent.Keys <= v1.ent.Keys
    ensures NewLinks(v1, v2) <= NewLinks(v, v2)
  {
    hide Frame;
    forall c | c in NewLinks(v1, v2) ensures c in NewLinks(v, v2) {
      var p :| p in v2.ent && p !in v1.ent && Parent(p) in v2.ent && LinkCell(v2, p) == c;
      assert p !in v.ent;
    }
  }

  lemma SparedTrans(L: Layout, g: PmState, g1: PmState, m: Mem, m1: Mem, m2: Mem, e1: set<int>, e2: set<int>,
                    e: set<int>)
    requires Spared(L, g, m, m1, e1) && Spared(L, g1, m1, m2, e2) && e1 <= e && e2 <= e
    requires forall b :: IsUsed(g, b) ==> IsUsed(g1, b) && g1.blocks[b] == g.blocks[b]
    ensures Spared(L, g, m, m2, e)
  {
    hide IsUsed;
  }

  /** A step that leaves every block in use alone. */
  lemma PmStepSpared(L: Layout, g: PmState, m: Mem, m': Mem)
    requires PmFrame(L, g, m, m')
    ensures Spared(L, g, m, m', {})
  {
  }

  /** The links a walk writes lie in frames of the trees, apart from every other block. */
  lemma LinksInTrees(L: Layout, st: VmSt, v: VmState, b: int, x: int)
    requires StOk(L, st) && Outside(st, b) && b <= x < b + Size(st.g.blocks[b])
    ensures x !in NewLinks(v, st.v)
  {
    hide Frame, Shaped, HasPS, PmInv;
    if x in NewLinks(v, st.v) {
      var p :| p in st.v.ent && p !in v.ent && Parent(p) in st.v.ent && LinkCell(st.v, p) == x;
      LinkInFrame(L, st, p);
      StParts(L, st);
      BlocksApart(L, st.g, b, Frame(st.v.ent[Parent(p)]));
    }
  }

  /** The cell that links a mapped position lies in its table's frame. */
  lemma LinkInFrame(L: Layout, st: VmSt, p: Pos)
    requires StOk(L, st) && p in st.v.ent && Parent(p) in st.v.ent
    ensures var up := Parent(p); var f := Frame(st.v.ent[up]);
      && IsTable(up, st.v.ent[up]) && IsUsed(st.g, f) && st.g.blocks[f] == 0 && OwnsFrame(st.v, f)
      && f <= LinkCell(st.v, p) < f + PM_4K
  {
    hide Frame, HasPS, PmInv, Slot, Present;
    var up := Parent(p);
    assert Shaped(st.v, p, st.v.ent[p]) && (!IsRoot(p) ==> Linked(st.v, p));
    assert Shaped(st.v, up, st.v.ent[up]);
    CellInFrame(st.v.ent[up], p.idx % ENTRIES);
    assert Owned(up, st.v.ent[up]);
  }

  /** Writing a table word stays inside a frame of the tree. */
  lemma CellWrite(L: Layout, st: VmSt, m: Mem, p: Pos, w: int)
    requires StOk(L, st) && PmRep(L, m, st.g) && Linked(st.v, p)
    ensures var c := LinkCell(st.v, p); c % 8 == 0 && c >= L.kernelEnd && PmRep(L, Put(m, c, w), st.g)
  {
    var f := Frame(st.v.ent[Parent(p)]);
    var c := LinkCell(st.v, p);
    assert Owned(Parent(p), st.v.ent[Parent(p)]);
    CellInFrame(st.v.ent[Parent(p)], p.idx % ENTRIES);
    assert IsUsed(st.g, f) && OwnsFrame(st.v, f);
    UsedAbove(L, st.g, f);
    UsedWritePm(L, st.g, m, Put(m, c, w), f);
  }

  lemma CellInFrame(w: int, i: nat)
    requires i < ENTRIES
    ensures var f := Frame(w); f <= f + 8 * i < f + PM_4K && (f + 8 * i) % 8 == 0
  {
    Multiples(512 * (w / 4096) + i, 0);
    assert Frame(w) == 4096 * (w / 4096);
  }

  /** Allocating a frame and linking it at `p`. */
  lemma FillStep(L: Layout, st: VmSt, m: Mem, m1: Mem, p: Pos, flag: int)
    requires VRep(L, st, m) && |st.g.free| == 3 && p !in st.v.ent && CanExtend(st.v, p, flag)
    requires p.level == 0 ==> Owned(p, flag)
    requires Parent(p) in st.v.ent && flag in {3, 7}
    requires CanAlloc(st.g, 0) && PmRep(L, m1, Alloc(st.g, 0)) && PmFrame(L, st.g, m, m1)
    requires ZeroRange(m1, AllocAddr(st.g, 0), PM_4K)
    ensures var f, m2 := AllocAddr(st.g, 0), Put(m1, LinkCell(st.v, p), AllocAddr(st.g, 0) + flag);
      var st' := VmSt(Alloc(st.g, 0), Add(st.v, p, f + flag));
      && VRep(L, st', m2) && VmKept(L, st, st', m, m2) && f % PM_4K == 0 && 0 < f && f + 7 < WORD_LIMIT
      && Frame(f + flag) == f && ZeroRange(m2, f, PM_4K)
  {
    hide PmInv, PmCore, VmInv, PmRep, VmRep, IsUsed, OwnsFrame, CanExtend, Frame, PmFrame, VmKept, Alloc, AllocAddr;
    hide CanAlloc, Shaped, Extends, HasPS, Present, Owned, StOk, ZeroRange, SameOutside;
    var f, g := AllocAddr(st.g, 0), Alloc(st.g, 0);
    var w := f + flag;
    var st1, st' := VmSt(g, st.v), VmSt(g, Add(st.v, p, w));
    StParts(L, st);
    FreshFrame(L, st);
    PlainWord(f, flag);
    PlainShape(st.v, p, flag, f);
    EnsureOk(L, st, p, flag);
    PmStepTables(L, st.g, st.v, m, m1);
    PmStepSpared(L, st.g, m, m1);
    StFrom(L, st1);
    CellWrite(L, st1, m1, p, w);
    StParts(L, st');
    AddRep(g, st.v, m1, Put(m1, LinkCell(st.v, p), w), p, w);
    ExtendsKeeps(st, st', p);
    LinkSpared(L, st, st', m, m1, p, w);
    LinkOutOf(L, st, st1, p, f);
    StillZero(m1, LinkCell(st.v, p), w, f);
  }

  /** The cell that links `p` is not in a frame that was not in use before. */
  lemma LinkOutOf(L: Layout, st: VmSt, st1: VmSt, p: Pos, f: int)
    requires StOk(L, st) && StOk(L, st1) && st1.v == st.v && Linked(st.v, p)
    requires !IsUsed(st.g, f) && IsUsed(st1.g, f) && st1.g.blocks[f] == 0
    ensures !(f <= LinkCell(st.v, p) < f + PM_4K)
  {
    hide Frame, HasPS, Shaped, TreeOk;
    var up := Parent(p);
    StParts(L, st);
    StParts(L, st1);
    CellInFrame(st.v.ent[up], p.idx % ENTRIES);
    assert Owned(up, st.v.ent[up]);
    hide PmInv, PmCore;
    BlocksApart(L, st1.g, f, Frame(st.v.ent[up]));
  }

  lemma StillZero(m: Mem, c: int, w: int, f: int)
    requires ZeroRange(m, f, PM_4K) && !(f <= c < f + PM_4K)
    ensures ZeroRange(Put(m, c, w), f, PM_4K)
  {
  }

  lemma StFrom(L: Layout, st: VmSt)
    requires PmInv(L, st.g) && VmInv(st.g, st.v)
    ensures StOk(L, st)
  {
  }

  lemma ExtendsKeeps(st: VmSt, st': VmSt, p: Pos)
    requires Extends(st, st', p)
    ensures Keeps(st, st')
  {
    hide SameOutside, IsUsed;
  }

  /** Linking `p`, after a step that left every block in use alone. */
  lemma LinkSpared(L: Layout, st: VmSt, st': VmSt, m: Mem, m1: Mem, p: Pos, w: int)
    requires Spared(L, st.g, m, m1, {}) && Keeps(st, st') && p !in st.v.ent && Parent(p) in st.v.ent && p in st'.v.ent
    requires LinkCell(st.v, p) >= L.kernelEnd
    ensures VmKept(L, st, st', m, Put(m1, LinkCell(st.v, p), w))
  {
    hide IsUsed, Frame;
    assert LinkCell(st.v, p) == LinkCell(st'.v, p) && LinkCell(st'.v, p) in NewLinks(st.v, st'.v);
    hide NewLinks;
  }

  /** Writing a direct mapping at `p`. */
  lemma DirectStep(L: Layout, st: VmSt, m: Mem, p: Pos, w: int)
    requires VRep(L, st, m) && p !in st.v.ent && CanExtend(st.v, p, 3) && !Owned(p, w) && p.space.Kernel?
    requires p.level <= 1
    requires 0 <= w < WORD_LIMIT && Present(w) && w % 8 == PG_P + PG_RW && Parent(p) in st.v.ent
    requires p.level == 0 ==> !HasPS(w)
    ensures var st', m' := VmSt(st.g, Add(st.v, p, w)), Put(m, LinkCell(st.v, p), w);
      VRep(L, st', m') && VmKept(L, st, st', m, m') && LinkCell(st.v, p) % 8 == 0
  {
    hide PmInv, PmCore, VmInv, PmRep, VmRep, IsUsed, OwnsFrame, CanExtend, Frame, VmKept, Shaped, Extends, HasPS;
    hide Present, Owned, StOk, SameOutside, Spared;
    var st' := VmSt(st.g, Add(st.v, p, w));
    StParts(L, st);
    DirectShape(st.v, p, w);
    NotOwnedNotTable(p, w);
    DirectOk(L, st, p, w);
    CellWrite(L, st, m, p, w);
    StParts(L, st');
    AddRep(st.g, st.v, m, Put(m, LinkCell(st.v, p), w), p, w);
    ExtendsKeeps(st, st', p);
    NothingSpared(L, st.g, m);
    LinkSpared(L, st, st', m, m, p, w);
  }

  lemma NothingSpared(L: Layout, g: PmState, m: Mem)
    ensures Spared(L, g, m, m, {})
  {
  }

  lemma NotOwnedNotTable(p: Pos, w: int)
    requires !Owned(p, w)
    ensures !IsTable(p, w)
  {
  }

  /** The word read at the link cell of a position on a path. */
  lemma ReadLink(v: VmState, m: Mem, p: Pos)
    requires VmRep(m, v) && Linked(v, p) && p.level <= 3 && (Parent(p) == KROOT ==> p.idx % ENTRIES != USER_SLOT)
    ensures At(m, LinkCell(v, p)) == if p in v.ent then v.ent[p] else 0
  {
    WalkEntry(m, v, Parent(p), p);
  }
}
