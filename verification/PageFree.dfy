/** The order in which `free_uvm` gives a process tree back: leaves first, every frame exactly once. */
module PageFree {
  import opened Bits
  import opened Memory
  import opened Blocks
  import opened PageTables
  import opened PageWalk

  /** The ancestor of a position at a level. */
  ghost function Ancestor(p: Pos, level: nat): Pos
    decreases level - p.level
  {
    if p.level >= level then p else Ancestor(Parent(p), level)
  }

  ghost predicate Under(q: Pos, p: Pos) {
    q.level <= p.level && Ancestor(q, p.level) == p
  }

  /** The mapped positions of the subtree at `p`, children before their table, in index order. */
  ghost function PostOrder(v: VmState, p: Pos): seq<Pos>
    decreases p.level, ENTRIES + 1
  {
    if p.level == 0 then [p] else Kids(v, p, ENTRIES) + [p]
  }

  ghost function Kids(v: VmState, p: Pos, n: nat): seq<Pos>
    requires p.level >= 1 && n <= ENTRIES
    decreases p.level, n
  {
    if n == 0 then []
    else Kids(v, p, n - 1) + if Child(p, n - 1) in v.ent then PostOrder(v, Child(p, n - 1)) else []
  }

  ghost predicate AllMapped(v: VmState, s: seq<Pos>) {
    forall q :: q in s ==> q in v.ent
  }

  ghost function Frames(v: VmState, s: seq<Pos>): seq<int>
    requires AllMapped(v, s)
  {
    seq(|s|, i requires 0 <= i < |s| => assert s[i] in s; Frame(v.ent[s[i]]))
  }

  // ---- The traversal lists exactly the subtree ----

  lemma {:induction false} AncestorSpace(q: Pos, level: nat)
    ensures Ancestor(q, level).space == q.space && (q.level <= level ==> Ancestor(q, level).level == level)
    decreases level - q.level
  {
    if q.level < level { AncestorSpace(Parent(q), level); }
  }

  lemma {:induction false} AncestorStep(q: Pos, level: nat)
    requires q.level <= level
    ensures Ancestor(q, level + 1) == Parent(Ancestor(q, level))
    decreases level - q.level
  {
    if q.level < level { AncestorStep(Parent(q), level); }
  }

  /** Below a table: the table itself or exactly one of its children. */
  lemma UnderSplit(q: Pos, p: Pos)
    requires p.level >= 1
    ensures Under(q, p) <==> q == p || (q.level < p.level && Parent(Ancestor(q, p.level - 1)) == p)
    ensures Under(q, p) && q != p ==> q.level < p.level && Under(q, Ancestor(q, p.level - 1))
  {
    if q.level < p.level {
      AncestorStep(q, p.level - 1);
      AncestorSpace(q, p.level - 1);
    }
  }

  lemma UnderChild(q: Pos, p: Pos, i: nat)
    requires p.level >= 1 && i < ENTRIES && Under(q, Child(p, i))
    ensures Under(q, p) && q != p && Ancestor(q, p.level - 1) == Child(p, i)
  {
    ChildParent(p, i);
    UnderSplit(q, p);
  }

  lemma {:induction false} PostOrderUnder(v: VmState, p: Pos, q: Pos)
    requires p in v.ent && q in PostOrder(v, p)
    ensures q in v.ent && Under(q, p)
    decreases p.level, ENTRIES + 1
  {
    if p.level > 0 && q != p { var i := KidsUnder(v, p, ENTRIES, q); }
  }

  lemma {:induction false} KidsUnder(v: VmState, p: Pos, n: nat, q: Pos) returns (i: nat)
    requires p.level >= 1 && n <= ENTRIES && q in Kids(v, p, n)
    ensures i < n && q in v.ent && Under(q, Child(p, i)) && Under(q, p) && q != p
    decreases p.level, n
  {
    if q in Kids(v, p, n - 1) {
      i := KidsUnder(v, p, n - 1, q);
    } else {
      i := n - 1;
      PostOrderUnder(v, Child(p, i), q);
      UnderChild(q, p, i);
    }
  }

  /** A mapped position below a mapped table has all positions in between mapped. */
  lemma {:induction false} AncestorMapped(v: VmState, q: Pos, level: nat)
    requires TreeOk(v) && q in v.ent && q.level <= level <= 3
    ensures Ancestor(q, level) in v.ent
    decreases level - q.level
  {
    if q.level < level {
      assert Linked(v, q);
      AncestorMapped(v, Parent(q), level);
    }
  }

  lemma {:induction false} PostOrderComplete(v: VmState, p: Pos, q: Pos)
    requires TreeOk(v) && p in v.ent && p.level <= 3 && q in v.ent && Under(q, p)
    ensures q in PostOrder(v, p)
    decreases p.level, ENTRIES + 1
  {
    if p.level > 0 && q != p {
      UnderSplit(q, p);
      var c := Ancestor(q, p.level - 1);
      AncestorMapped(v, q, p.level - 1);
      AncestorSpace(q, p.level - 1);
      ParentChild(c);
      KidsComplete(v, p, ENTRIES, q, c.idx % ENTRIES);
    }
  }

  lemma {:induction false} KidsComplete(v: VmState, p: Pos, n: nat, q: Pos, i: nat)
    requires TreeOk(v) && 1 <= p.level <= 3 && n <= ENTRIES && i < n
    requires q in v.ent && Child(p, i) in v.ent && Under(q, Child(p, i))
    ensures q in Kids(v, p, n)
    decreases p.level, n
  {
    hide TreeOk, Under, Ancestor;
    if i == n - 1 { PostOrderComplete(v, Child(p, i), q); } else { KidsComplete(v, p, n - 1, q, i); }
  }

  lemma {:induction false} PostOrderNoDup(v: VmState, p: Pos)
    requires p in v.ent
    ensures NoDup(PostOrder(v, p))
    decreases p.level, ENTRIES + 1
  {
    if p.level > 0 {
      KidsNoDup(v, p, ENTRIES);
      forall q | q in Kids(v, p, ENTRIES) ensures q != p { var _ := KidsUnder(v, p, ENTRIES, q); }
      NoDupAppend(Kids(v, p, ENTRIES), [p]);
    }
  }

  lemma {:induction false} KidsNoDup(v: VmState, p: Pos, n: nat)
    requires p.level >= 1 && n <= ENTRIES
    ensures NoDup(Kids(v, p, n))
    decreases p.level, n
  {
    if n > 0 {
      KidsNoDup(v, p, n - 1);
      var c := Child(p, n - 1);
      if c in v.ent {
        PostOrderNoDup(v, c);
        forall q | q in Kids(v, p, n - 1) && q in PostOrder(v, c) ensures false {
          OtherSubtree(v, p, n - 1, q);
        }
        NoDupAppend(Kids(v, p, n - 1), PostOrder(v, c));
      }
    }
  }

  lemma OtherSubtree(v: VmState, p: Pos, n: nat, q: Pos)
    requires p.level >= 1 && n < ENTRIES && q in Kids(v, p, n)
    ensures !Under(q, Child(p, n)) && (Child(p, n) in v.ent ==> q !in PostOrder(v, Child(p, n)))
  {
    var i := KidsUnder(v, p, n, q);
    UnderChild(q, p, i);
    ChildParent(p, i);
    ChildParent(p, n);
    if Under(q, Child(p, n)) { UnderChild(q, p, n); }
    if Child(p, n) in v.ent && q in PostOrder(v, Child(p, n)) { PostOrderUnder(v, Child(p, n), q); }
  }

  lemma NoDupAppend<T>(a: seq<T>, b: seq<T>)
    requires NoDup(a) && NoDup(b) && forall x :: x in a ==> x !in b
    ensures NoDup(a + b)
  {
    var c := a + b;
    forall i, j | 0 <= i < j < |c| ensures c[i] != c[j] {
      if i < |a| <= j { assert c[i] in a && c[j] in b; }
    }
  }

  // ---- Freeing a sequence of frames ----

  ghost function PushAll(g: PmState, fs: seq<int>): (r: PmState)
    requires |g.free| == 3
    ensures |r.free| == 3
  {
    if fs == [] then g else Push(PushAll(g, fs[..|fs| - 1]), 0, fs[|fs| - 1])
  }

  ghost function Reverse(s: seq<int>): seq<int> {
    if s == [] then [] else [s[|s| - 1]] + Reverse(s[..|s| - 1])
  }

  /** The freed frames end up in front of the 4K list, the last one freed first; nothing else changes. */
  lemma {:induction false} PushAllIs(g: PmState, fs: seq<int>)
    requires |g.free| == 3
    ensures PushAll(g, fs) == g.(free := g.free[0 := Reverse(fs) + g.free[0]])
  {
    if fs != [] {
      PushAllIs(g, fs[..|fs| - 1]);
      assert [fs[|fs| - 1]] + (Reverse(fs[..|fs| - 1]) + g.free[0]) == Reverse(fs) + g.free[0];
    } else {
      assert [] + g.free[0] == g.free[0];
    }
  }

  lemma {:induction false} ReverseElements(s: seq<int>, x: int)
    ensures x in Reverse(s) <==> x in s
  {
    if s != [] {
      ReverseElements(s[..|s| - 1], x);
      assert s == s[..|s| - 1] + [s[|s| - 1]];
    }
  }

  lemma {:induction false} PushAllUsed(g: PmState, fs: seq<int>)
    requires |g.free| == 3 && forall f :: f in fs ==> f in g.blocks && g.blocks[f] == 0
    ensures forall b :: IsUsed(PushAll(g, fs), b) <==> IsUsed(g, b) && b !in fs
  {
    PushAllIs(g, fs);
    forall b ensures IsUsed(PushAll(g, fs), b) <==> IsUsed(g, b) && b !in fs {
      ReverseElements(fs, b);
    }
  }

  lemma {:induction false} PushAllAppend(g: PmState, a: seq<int>, b: seq<int>)
    requires |g.free| == 3
    ensures PushAll(g, a + b) == PushAll(PushAll(g, a), b)
  {
    if b == [] {
      assert a + b == a;
    } else {
      assert (a + b)[..|a + b| - 1] == a + b[..|b| - 1];
      PushAllAppend(g, a, b[..|b| - 1]);
    }
  }

  lemma FramesAppend(v: VmState, a: seq<Pos>, b: seq<Pos>)
    requires AllMapped(v, a) && AllMapped(v, b)
    ensures AllMapped(v, a + b) && Frames(v, a + b) == Frames(v, a) + Frames(v, b)
  {
  }

  lemma KidsMapped(v: VmState, p: Pos, n: nat)
    requires p.level >= 1 && n <= ENTRIES
    ensures AllMapped(v, Kids(v, p, n))
  {
    forall q | q in Kids(v, p, n) ensures q in v.ent { var _ := KidsUnder(v, p, n, q); }
  }

  lemma PostOrderMapped(v: VmState, p: Pos)
    requires p in v.ent
    ensures AllMapped(v, PostOrder(v, p))
  {
    forall q | q in PostOrder(v, p) ensures q in v.ent { PostOrderUnder(v, p, q); }
  }

  // ---- The tree of one process ----

  ghost predicate IsProcessTable(v: VmState, p: Pos) {
    p in v.ent && p.space.User? && 1 <= p.level <= 3
  }

  /** Everything mapped in a process tree is a frame of it. */
  lemma UserOwned(v: VmState, p: Pos)
    requires TreeOk(v) && p in v.ent && p.space.User?
    ensures Owned(p, v.ent[p]) && p.level <= 3 && Present(v.ent[p]) && 0 < v.ent[p] < WORD_LIMIT
    ensures p.level >= 1 ==> IsTable(p, v.ent[p])
  {
    assert Shaped(v, p, v.ent[p]);
    UserNoPS(v.ent[p]);
  }

  lemma UserNoPS(w: int)
    requires w % PM_4K == 7
    ensures !HasPS(w)
  {
    var q := w / 4096;
    assert w == 4096 * q + 7;
    ModUnique(w, 128, 32 * q, 7);
    EvenTimes(16 * q);
  }

  ghost predicate SubtreeUsed(g: PmState, v: VmState, p: Pos) {
    forall q :: q in v.ent && Under(q, p) ==> IsUsed(g, Frame(v.ent[q])) && g.blocks[Frame(v.ent[q])] == 0
  }

  /** While a process tree is being freed: its shape, and frames that are 4K blocks, all different. */
  ghost predicate Freeing(g: PmState, v: VmState) {
    && |g.free| == 3 && TreeOk(v)
    && (forall q :: q in v.ent && q.space.User? ==> Frame(v.ent[q]) in g.blocks && g.blocks[Frame(v.ent[q])] == 0)
    && (forall p, q :: p in v.ent && q in v.ent && p.space.User? && q.space.User? && p != q ==>
          Frame(v.ent[p]) != Frame(v.ent[q]))
  }

  lemma FreeingFrom(g: PmState, v: VmState)
    requires VmInv(g, v) && |g.free| == 3
    ensures Freeing(g, v)
  {
    forall q | q in v.ent && q.space.User? ensures Owned(q, v.ent[q]) { UserOwned(v, q); }
    hide Owned, Frame;
  }

  ghost predicate UserOnly(s: seq<Pos>) {
    forall q :: q in s ==> q.space.User?
  }

  lemma FreedUsed(g: PmState, v: VmState, s: seq<Pos>)
    requires Freeing(g, v) && AllMapped(v, s) && UserOnly(s)
    ensures Freeing(PushAll(g, Frames(v, s)), v)
    ensures forall b :: IsUsed(PushAll(g, Frames(v, s)), b) <==> IsUsed(g, b) && b !in Frames(v, s)
    ensures PushAll(g, Frames(v, s)).blocks == g.blocks
  {
    var fs := Frames(v, s);
    forall f | f in fs ensures f in g.blocks && g.blocks[f] == 0 {
      var i :| 0 <= i < |fs| && fs[i] == f;
      assert s[i] in s;
    }
    PushAllUsed(g, fs);
    PushAllIs(g, fs);
  }

  lemma NotFreed(g: PmState, v: VmState, s: seq<Pos>, q: Pos)
    requires Freeing(g, v) && AllMapped(v, s) && UserOnly(s) && q in v.ent && q.space.User? && q !in s
    ensures Frame(v.ent[q]) !in Frames(v, s)
  {
    var fs := Frames(v, s);
    forall i | 0 <= i < |fs| ensures fs[i] != Frame(v.ent[q]) {
      assert s[i] in s;
    }
  }

  /** After the first n children of a table have been freed, the table itself and the next subtree
      are still in use. */
  lemma StillUsed(g: PmState, v: VmState, p: Pos, n: nat)
    requires Freeing(g, v) && IsProcessTable(v, p) && n <= ENTRIES && SubtreeUsed(g, v, p)
    ensures AllMapped(v, Kids(v, p, n)) && UserOnly(Kids(v, p, n))
    ensures var g' := PushAll(g, Frames(v, Kids(v, p, n)));
      && Freeing(g', v) && IsUsed(g', Frame(v.ent[p])) && g'.blocks[Frame(v.ent[p])] == 0
      && (n < ENTRIES && Child(p, n) in v.ent ==> SubtreeUsed(g', v, Child(p, n)))
  {
    var s := Kids(v, p, n);
    KidsMapped(v, p, n);
    KidsUser(v, p, n);
    FreedUsed(g, v, s);
    SelfUnder(p);
    if p in s { var _ := KidsUnder(v, p, n, p); }
    NotFreed(g, v, s, p);
    if n < ENTRIES && Child(p, n) in v.ent {
      forall q | q in v.ent && Under(q, Child(p, n))
        ensures IsUsed(PushAll(g, Frames(v, s)), Frame(v.ent[q])) && g.blocks[Frame(v.ent[q])] == 0
      {
        NextSubtree(g, v, p, n, q);
      }
    }
  }

  lemma SelfUnder(p: Pos)
    ensures Under(p, p)
  {
  }

  lemma KidsUser(v: VmState, p: Pos, n: nat)
    requires p.level >= 1 && n <= ENTRIES && p.space.User?
    ensures UserOnly(Kids(v, p, n))
  {
    forall q | q in Kids(v, p, n) ensures q.space.User? {
      var i := KidsUnder(v, p, n, q);
      AncestorSpace(q, p.level);
    }
  }

  lemma NextSubtree(g: PmState, v: VmState, p: Pos, n: nat, q: Pos)
    requires Freeing(g, v) && IsProcessTable(v, p) && n < ENTRIES && SubtreeUsed(g, v, p)
    requires Child(p, n) in v.ent && q in v.ent && Under(q, Child(p, n))
    requires AllMapped(v, Kids(v, p, n)) && UserOnly(Kids(v, p, n))
    ensures Frame(v.ent[q]) !in Frames(v, Kids(v, p, n)) && IsUsed(g, Frame(v.ent[q])) && q.space.User?
  {
    UnderChild(q, p, n);
    AncestorSpace(q, p.level);
    if q in Kids(v, p, n) { OtherSubtree(v, p, n, q); }
    NotFreed(g, v, Kids(v, p, n), q);
  }

  /** The next child, with its whole subtree, in the order of freeing. */
  lemma KidsNext(g: PmState, v: VmState, p: Pos, n: nat)
    requires Freeing(g, v) && IsProcessTable(v, p) && n < ENTRIES
    ensures AllMapped(v, Kids(v, p, n)) && AllMapped(v, Kids(v, p, n + 1))
    ensures Child(p, n) !in v.ent ==> Kids(v, p, n + 1) == Kids(v, p, n)
    ensures Child(p, n) in v.ent ==>
      && AllMapped(v, PostOrder(v, Child(p, n)))
      && PushAll(g, Frames(v, Kids(v, p, n + 1))) ==
           PushAll(PushAll(g, Frames(v, Kids(v, p, n))), Frames(v, PostOrder(v, Child(p, n))))
  {
    KidsMapped(v, p, n);
    KidsMapped(v, p, n + 1);
    if Child(p, n) in v.ent {
      PostOrderMapped(v, Child(p, n));
      FramesAppend(v, Kids(v, p, n), PostOrder(v, Child(p, n)));
      PushAllAppend(g, Frames(v, Kids(v, p, n)), Frames(v, PostOrder(v, Child(p, n))));
    }
  }

  /** A table goes after all of its children; a page alone. */
  lemma PostOrderLast(g: PmState, v: VmState, p: Pos)
    requires |g.free| == 3 && p in v.ent && p.level <= 3
    ensures AllMapped(v, PostOrder(v, p))
    ensures p.level == 0 ==> PushAll(g, Frames(v, PostOrder(v, p))) == Push(g, 0, Frame(v.ent[p]))
    ensures p.level >= 1 ==>
      && AllMapped(v, Kids(v, p, ENTRIES))
      && PushAll(g, Frames(v, PostOrder(v, p))) == Push(PushAll(g, Frames(v, Kids(v, p, ENTRIES))), 0, Frame(v.ent[p]))
  {
    PostOrderMapped(v, p);
    if p.level == 0 {
      assert Frames(v, [p]) == [Frame(v.ent[p])];
      assert PushAll(g, []) == g;
      assert [Frame(v.ent[p])][..0] == [];
    } else {
      KidsMapped(v, p, ENTRIES);
      FramesAppend(v, Kids(v, p, ENTRIES), [p]);
      var fs, f := Frames(v, Kids(v, p, ENTRIES)), Frame(v.ent[p]);
      assert Frames(v, PostOrder(v, p)) == fs + [f];
      assert (fs + [f])[..|fs + [f]| - 1] == fs;
    }
  }

  /** The positions of a process tree are those of its space. */
  lemma UnderRoot(v: VmState, id: int, q: Pos)
    requires TreeOk(v) && q in v.ent
    ensures q.space == User(id) <==> Under(q, UserRoot(id))
  {
    assert Shaped(v, q, v.ent[q]);
    if q.level <= 3 {
      AncestorSpace(q, 3);
      AncestorSlot(q);
    }
  }

  lemma {:induction false} AncestorSlot(q: Pos)
    requires q.level <= 3
    ensures Ancestor(q, 3).idx == Slot(q)
    decreases 3 - q.level
  {
    if q.level < 3 { AncestorSlot(Parent(q)); }
  }

  ghost function WithoutSpace(v: VmState, id: int): VmState {
    v.(ent := map p | p in v.ent && p.space != User(id) :: v.ent[p])
  }

  /** What `free_uvm` leaves: the frames freed in post order and the tree gone. */
  ghost function FreeUvm(st: VmSt, id: int): VmSt
    requires |st.g.free| == 3 && UserRoot(id) in st.v.ent
  {
    PostOrderMapped(st.v, UserRoot(id));
    VmSt(PushAll(st.g, Frames(st.v, PostOrder(st.v, UserRoot(id)))), WithoutSpace(st.v, id))
  }

  /** The freed frames are exactly those of the process, each of them once. */
  lemma FreesExactlyTheTree(st: VmSt, id: int)
    requires VmInv(st.g, st.v) && UserRoot(id) in st.v.ent
    ensures var s := PostOrder(st.v, UserRoot(id));
      && NoDup(s) && AllMapped(st.v, s) && NoDup(Frames(st.v, s))
      && (forall q :: q in s <==> q in st.v.ent && q.space == User(id))
      && (forall f :: f in Frames(st.v, s) <==>
            exists q :: q in st.v.ent && q.space == User(id) && Frame(st.v.ent[q]) == f)
  {
    var v, r := st.v, UserRoot(id);
    var s := PostOrder(v, r);
    PostOrderNoDup(v, r);
    PostOrderMapped(v, r);
    forall q ensures q in s <==> q in v.ent && q.space == User(id) {
      if q in s { PostOrderUnder(v, r, q); UnderRoot(v, id, q); }
      if q in v.ent && q.space == User(id) { UnderRoot(v, id, q); PostOrderComplete(v, r, q); }
    }
    var fs := Frames(v, s);
    forall i, j | 0 <= i < j < |fs| ensures fs[i] != fs[j] {
      assert s[i] in s && s[j] in s && s[i] != s[j];
      UserOwned(v, s[i]);
      UserOwned(v, s[j]);
    }
    forall f ensures f in fs <==> exists q :: q in v.ent && q.space == User(id) && Frame(v.ent[q]) == f {
      FrameListed(v, s, id, f);
    }
  }

  lemma FrameListed(v: VmState, s: seq<Pos>, id: int, f: int)
    requires AllMapped(v, s) && forall q :: q in s <==> q in v.ent && q.space == User(id)
    ensures f in Frames(v, s) <==> exists q :: q in v.ent && q.space == User(id) && Frame(v.ent[q]) == f
  {
    var fs := Frames(v, s);
    if f in fs {
      var i :| 0 <= i < |fs| && fs[i] == f;
      assert s[i] in s;
    }
    if q :| q in v.ent && q.space == User(id) && Frame(v.ent[q]) == f {
      assert q in s;
      var i :| 0 <= i < |s| && s[i] == q;
      assert fs[i] == f;
    }
  }

  lemma {:induction false} PushAllInv(L: Layout, g: PmState, fs: seq<int>)
    requires PmInv(L, g) && NoDup(fs) && forall f :: f in fs ==> IsUsed(g, f) && g.blocks[f] == 0
    ensures PmInv(L, PushAll(g, fs))
  {
    if fs != [] {
      var n := |fs| - 1;
      var rest, last := fs[..n], fs[n];
      assert forall f :: f in rest ==> f in fs;
      PushAllInv(L, g, rest);
      PushAllUsed(g, rest);
      PushAllIs(g, rest);
      assert last in fs && last !in rest;
      PushInv(L, PushAll(g, rest), 0, last);
    }
  }

  lemma WithoutSpaceTree(v: VmState, id: int)
    requires TreeOk(v) && UserRoot(id) in v.ent
    ensures TreeOk(WithoutSpace(v, id)) <==> v.active != Some(id)
  {
    var v' := WithoutSpace(v, id);
    forall p | p in v'.ent ensures Shaped(v', p, v'.ent[p]) && (!IsRoot(p) ==> Linked(v', p)) {
      assert Shaped(v, p, v.ent[p]) && (!IsRoot(p) ==> Linked(v, p));
    }
  }

  /** A frame is left to the remaining trees exactly if it was a frame and not one of the process. */
  lemma RemainingFrames(g: PmState, v: VmState, id: int, fs: seq<int>, f: int)
    requires VmInv(g, v)
    requires f in fs <==> exists q :: q in v.ent && q.space == User(id) && Frame(v.ent[q]) == f
    ensures OwnsFrame(WithoutSpace(v, id), f) <==> OwnsFrame(v, f) && f !in fs
    ensures f in fs ==> OwnsFrame(v, f)
  {
    var v' := WithoutSpace(v, id);
    if f in fs {
      var q :| q in v.ent && q.space == User(id) && Frame(v.ent[q]) == f;
      UserOwned(v, q);
      hide Owned, Frame, TreeOk;
      assert forall p :: p in v'.ent ==> p in v.ent && v'.ent[p] == v.ent[p] && p != q;
    } else if OwnsFrame(v, f) {
      var p :| p in v.ent && Owned(p, v.ent[p]) && Frame(v.ent[p]) == f;
      hide Owned, Frame, TreeOk;
      assert p in v'.ent && v'.ent[p] == v.ent[p];
    }
  }

  /** `free_uvm` leaves every other tree and everybody else's blocks exactly as they were; the page
      tables stay consistent if and only if the process was not the one linked in slot 2. */
  lemma FreeUvmOk(L: Layout, st: VmSt, id: int)
    requires StOk(L, st) && |st.g.free| == 3 && UserRoot(id) in st.v.ent
    ensures var st' := FreeUvm(st, id);
      && PmInv(L, st'.g) && SameOutside(st, st') && FramesOk(st'.g, st'.v) && st'.g.lo == st.g.lo && st'.g.hi == st.g.hi
      && (StOk(L, st') <==> st.v.active != Some(id))
  {
    var v, g := st.v, st.g;
    FreesExactlyTheTree(st, id);
    var fs := Frames(v, PostOrder(v, UserRoot(id)));
    forall f | f in fs ensures IsUsed(g, f) && g.blocks[f] == 0 {
      var q :| q in v.ent && q.space == User(id) && Frame(v.ent[q]) == f;
      UserOwned(v, q);
    }
    hide VmInv, NoDup, PmCore, IsUsed, OwnsFrame, Frame, Frames, PostOrder;
    PushAllInv(L, g, fs);
    FreedOutside(g, v, id, fs);
    StParts(L, st);
    WithoutSpaceTree(v, id);
    VmInvIs(PushAll(g, fs), WithoutSpace(v, id));
  }

  lemma VmInvIs(g: PmState, v: VmState)
    ensures VmInv(g, v) <==> TreeOk(v) && FramesOk(g, v)
  {
  }

  lemma FreedOutside(g: PmState, v: VmState, id: int, fs: seq<int>)
    requires |g.free| == 3 && VmInv(g, v) && forall f :: f in fs ==> IsUsed(g, f) && g.blocks[f] == 0
    requires forall f :: f in fs <==> exists q :: q in v.ent && q.space == User(id) && Frame(v.ent[q]) == f
    ensures SameOutside(VmSt(g, v), VmSt(PushAll(g, fs), WithoutSpace(v, id)))
    ensures FramesOk(PushAll(g, fs), WithoutSpace(v, id)) && PushAll(g, fs).lo == g.lo && PushAll(g, fs).hi == g.hi
  {
    var g', v' := PushAll(g, fs), WithoutSpace(v, id);
    PushAllIs(g, fs);
    PushAllUsed(g, fs);
    forall b ensures Outside(VmSt(g', v'), b) <==> Outside(VmSt(g, v), b) {
      RemainingFrames(g, v, id, fs, b);
    }
    forall p | p in v'.ent && Owned(p, v'.ent[p]) ensures IsUsed(g', Frame(v'.ent[p])) {
      assert OwnsFrame(v', Frame(v'.ent[p]));
      RemainingFrames(g, v, id, fs, Frame(v'.ent[p]));
    }
  }
}
