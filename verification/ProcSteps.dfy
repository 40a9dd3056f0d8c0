/** Steps of the process operations in memory, with the layers' definitions hidden. */
module ProcSteps {
  import opened Bits
  import opened Memory
  import opened Blocks
  import opened Supply
  import opened SlabSupply
  import opened PageSupply
  import opened Access
  import opened PhysAlloc
  import opened Slabs
  import opened Heap
  import opened SlabMem
  import opened SlabSteps
  import opened SlabAlloc
  import opened PageTables
  import opened PageWalk
  import opened PageMem
  import opened Vm
  import opened Procs
  import opened ProcMem
  import opened Contents
  import opened Runs
  import opened PageInit
  import opened SlabStart
  import opened Boot

  const PROC_BYTES := 304
  const PROC_PID := 8
  const PROC_KSTACK := 16
  const PROC_CONTEXT := 24
  const PROC_WCHAN := 32
  const PROC_OFILE := 48
  const KSTACK_SIZE := 0x400
  const CONTEXT_BYTES := 56
  const CONTEXT_R15 := 0
  const CONTEXT_R14 := 8
  const CONTEXT_R13 := 16
  const CONTEXT_RIP := 48
  const RFLAGS_IF := 512
  const NODE_BYTES := 24

  ghost function UpmlWord(v: VmState, p: int): int {
    if UserRoot(p) in v.ent then v.ent[UserRoot(p)] else 0
  }

  /** `struct proc` and list node of one process. */
  ghost predicate StructOk(m: Mem, q: Procs.Proc, p: int) {
    && At(m, p) == q.stat && At(m, p + PROC_PID) == q.pid % WORD_LIMIT && At(m, p + PROC_KSTACK) == q.kstack
    && At(m, q.node) == p
  }

  ghost predicate ProcsRep(m: Mem, procs: map<int, Procs.Proc>, v: VmState) {
    forall p :: p in procs ==> StructOk(m, procs[p], p) && At(m, p + PROC_UPML4) == UpmlWord(v, p)
  }

  ghost function WordAt(m: Mem, a: int, i: nat): int {
    At(m, a + 8 * i)
  }

  /** The block at `a` of n words starts with `words`, and the rest of it is zero. */
  ghost predicate Holds(m: Mem, a: int, n: nat, words: seq<int>) {
    forall i: nat :: i < n ==> WordAt(m, a, i) == if i < |words| then words[i] else 0
  }

  lemma ZeroFewer(m: Mem, a: int, n: nat, k: nat)
    requires ZeroRange(m, a, n) && k <= n
    ensures ZeroRange(m, a, k)
  {
  }

  lemma HoldsNothing(m: Mem, a: int, n: nat)
    requires ZeroRange(m, a, 8 * n)
    ensures Holds(m, a, n, [])
  {
  }

  lemma HoldsNext(m: Mem, a: int, n: nat, words: seq<int>, w: int)
    requires Holds(m, a, n, words) && |words| < n
    ensures Holds(Put(m, a + 8 * |words|, w), a, n, words + [w])
  {
    forall i: nat | i < n
      ensures WordAt(Put(m, a + 8 * |words|, w), a, i) == if i < |words| + 1 then (words + [w])[i] else 0
    {
      assert WordAt(m, a, i) == if i < |words| then words[i] else 0;
    }
  }

  lemma HoldsKept(m: Mem, m': Mem, a: int, n: nat, words: seq<int>)
    requires Holds(m, a, n, words) && forall x :: a <= x < a + 8 * n ==> At(m', x) == At(m, x)
    ensures Holds(m', a, n, words)
  {
    forall i: nat | i < n ensures WordAt(m', a, i) == WordAt(m, a, i) {}
  }

  lemma Sizes()
    ensures ClassSize(PROC_CLASS) == 512 && ClassSize(STACK_CLASS) == 1024 && ClassSize(NODE_CLASS) == 64
    ensures SizeToClass(PROC_BYTES) == Done(PROC_CLASS) && SizeToClass(KSTACK_SIZE) == Done(STACK_CLASS)
    ensures SizeToClass(NODE_BYTES) == Done(NODE_CLASS)
  {
    PowTable();
  }

  /** A heap allocation, seen from the three layers together. */
  lemma KmallocStage(L: Layout, h0: HeapState, m0: Mem, e: set<int>, h: HeapState, h': HeapState, v: VmState, m: Mem,
                     m': Mem, a: int, k: nat)
    requires CoreRep(L, h, v, m) && Grows(h0, h) && OldKept(L, h0, m0, m, e) && k < CLASSES
    requires OnlyAdds(h, h', a, k) && Rep(L, h', m') && Kept(L, h, m, m')
    ensures CoreRep(L, h', v, m') && Grows(h0, h') && OldKept(L, h0, m0, m', e) && OldKept(L, h, m, m', {})
    ensures ClientOf(h', a, k) && NotYet(h0, a) && a % 8 == 0 && 0 < a < WORD_LIMIT
    ensures forall b, j :: ClientOf(h, b, j) ==> ClientOf(h', b, j) && b != a
  {
    hide CoreRep, Grows, OldKept, Rep, HeapInv, SameForeign;
    HeapStepRep(L, h, h', v, m, m', a, k);
    OldTrans(L, h0, h, m0, m, m', e, {}, e);
    GrowsTrans(h0, h, h');
    RepHeapInv(L, h', m');
    OccWord(L, h', a);
    OldNotClient(h0, h, a);
  }

  lemma OldNotClient(h0: HeapState, h: HeapState, a: int)
    requires Grows(h0, h) && !IsClient(h.s, a)
    ensures NotYet(h0, a)
  {
    hide Foreign;
  }

  lemma StructStage(L: Layout, h0: HeapState, m0: Mem, e: set<int>, h: HeapState, h': HeapState, v: VmState, m: Mem,
                    m1: Mem, p: int, pid: Word)
    requires CoreRep(L, h, v, m) && Grows(h0, h) && OldKept(L, h0, m0, m, e)
    requires OnlyAdds(h, h', p, PROC_CLASS) && Rep(L, h', m1) && Kept(L, h, m, m1) && ZeroRange(m1, p, 512)
    ensures var m2 := Put(Put(m1, p, SET), p + PROC_PID, pid);
      && CoreRep(L, h', v, m2) && Grows(h0, h') && OldKept(L, h0, m0, m2, e) && Holds(m2, p, 64, [SET, pid])
    ensures NotYet(h0, p) && ClientOf(h', p, PROC_CLASS) && p % 8 == 0 && (p + PROC_PID) % 8 == 0 && 0 < p < WORD_LIMIT
  {
    hide CoreRep, Rep, Kept, OldKept, Grows, ClientOf, OnlyAdds, ClassSize, Holds, NotYet;
    var m2 := Put(Put(m1, p, SET), p + PROC_PID, pid);
    KmallocStage(L, h0, m0, e, h, h', v, m, m1, p, PROC_CLASS);
    FieldAligned(p);
    Sizes();
    HoldsNothing(m1, p, 64);
    HoldsNext(m1, p, 64, [], SET);
    assert [] + [SET] == [SET] && p + 8 * |[SET]| == p + PROC_PID && [SET] + [pid] == [SET, pid];
    HoldsNext(Put(m1, p, SET), p, 64, [SET], pid);
    BlockWrite(L, h0, m0, e, h', v, m1, m2, p, PROC_CLASS);
  }

  lemma BlockKept(L: Layout, h: HeapState, m: Mem, m': Mem, e: set<int>, a: int, k: nat)
    requires OldKept(L, h, m, m', e) && ClientOf(h, a, k)
    ensures forall x :: a <= x < a + ClassSize(k) ==> At(m', x) == At(m, x)
  {
    hide ClientOf, ClassSize;
  }

  ghost function ContextOf(kstack: int): int {
    kstack + KSTACK_SIZE - CONTEXT_BYTES
  }

  ghost function StackWord(i: nat, sysret: int): int {
    if i == 127 then sysret else if i == 123 then RFLAGS_IF else 0
  }

  /** The new kernel stack is empty but for `rip` and `r13` of the context at its top. */
  ghost predicate StackHolds(m: Mem, kstack: int, sysret: int) {
    forall i: nat :: i < 128 ==> WordAt(m, kstack, i) == StackWord(i, sysret)
  }

  ghost function StackMem(m: Mem, kstack: int, sysret: int): Mem {
    Put(Put(m, ContextOf(kstack) + CONTEXT_RIP, sysret), ContextOf(kstack) + CONTEXT_R13, RFLAGS_IF)
  }

  lemma StackFilled(m: Mem, kstack: int, sysret: int)
    requires ZeroRange(m, kstack, 1024)
    ensures StackHolds(StackMem(m, kstack, sysret), kstack, sysret)
    ensures OnlyIn(m, StackMem(m, kstack, sysret), kstack, 1024)
  {
    forall i: nat | i < 128 ensures WordAt(StackMem(m, kstack, sysret), kstack, i) == StackWord(i, sysret) {}
  }

  lemma StackKept(m: Mem, m': Mem, kstack: int, sysret: int)
    requires StackHolds(m, kstack, sysret) && forall x :: kstack <= x < kstack + 1024 ==> At(m', x) == At(m, x)
    ensures StackHolds(m', kstack, sysret)
  {
    forall i: nat | i < 128 ensures WordAt(m', kstack, i) == WordAt(m, kstack, i) {}
  }

  ghost function StackFields(m: Mem, p: int, kstack: int): Mem {
    Put(Put(m, p + PROC_KSTACK, kstack), p + PROC_CONTEXT, ContextOf(kstack))
  }

  lemma StackFieldsHold(m: Mem, p: int, pid: int, kstack: int)
    requires Holds(m, p, 64, [SET, pid])
    ensures Holds(StackFields(m, p, kstack), p, 64, [SET, pid, kstack, ContextOf(kstack)])
    ensures OnlyIn(m, StackFields(m, p, kstack), p, 512)
  {
    HoldsNext(m, p, 64, [SET, pid], kstack);
    assert [SET, pid] + [kstack] == [SET, pid, kstack] && p + 8 * |[SET, pid]| == p + PROC_KSTACK;
    HoldsNext(Put(m, p + PROC_KSTACK, kstack), p, 64, [SET, pid, kstack], ContextOf(kstack));
    assert [SET, pid, kstack] + [ContextOf(kstack)] == [SET, pid, kstack, ContextOf(kstack)];
    assert p + 8 * |[SET, pid, kstack]| == p + PROC_CONTEXT;
  }

  lemma StackStage(L: Layout, h0: HeapState, m0: Mem, e: set<int>, h: HeapState, h': HeapState, v: VmState, m: Mem,
                   m1: Mem, p: int, pid: int, kstack: int, sysret: Word)
    requires CoreRep(L, h, v, m) && Grows(h0, h) && OldKept(L, h0, m0, m, e)
    requires ClientOf(h, p, PROC_CLASS) && NotYet(h0, p) && p % 8 == 0 && Holds(m, p, 64, [SET, pid])
    requires OnlyAdds(h, h', kstack, STACK_CLASS) && Rep(L, h', m1) && Kept(L, h, m, m1) && ZeroRange(m1, kstack, 1024)
    ensures var m4 := Put(StackMem(StackFields(m1, p, kstack), kstack, sysret), p + PROC_WCHAN, 0);
      && CoreRep(L, h', v, m4) && Grows(h0, h') && OldKept(L, h0, m0, m4, e)
      && Holds(m4, p, 64, [SET, pid, kstack, ContextOf(kstack), 0]) && StackHolds(m4, kstack, sysret)
    ensures ClientOf(h', p, PROC_CLASS) && ClientOf(h', kstack, STACK_CLASS) && NotYet(h0, kstack) && 0 < kstack
    ensures ContextOf(kstack) < WORD_LIMIT && kstack % 8 == 0
    ensures (p + PROC_KSTACK) % 8 == 0 && (p + PROC_CONTEXT) % 8 == 0 && (p + PROC_WCHAN) % 8 == 0
    ensures (ContextOf(kstack) + CONTEXT_RIP) % 8 == 0 && (ContextOf(kstack) + CONTEXT_R13) % 8 == 0
  {
    hide CoreRep, Rep, Kept, OldKept, Grows, ClientOf, OnlyAdds, ClassSize, Holds, StackHolds, StackMem, StackFields;
    hide OnlyIn, ZeroRange;
    KmallocStage(L, h0, m0, e, h, h', v, m, m1, kstack, STACK_CLASS);
    Sizes();
    FieldAligned(p);
    FieldAligned(kstack);
    BlockEnd(L, h', v, m1, kstack, STACK_CLASS);
    BlockKept(L, h, m, m1, {}, p, PROC_CLASS);
    HoldsKept(m, m1, p, 64, [SET, pid]);
    var m2 := StackFields(m1, p, kstack);
    StackFieldsHold(m1, p, pid, kstack);
    BlockWrite(L, h0, m0, e, h', v, m1, m2, p, PROC_CLASS);
    StackAndWchan(L, h0, m0, e, h', v, m1, m2, p, pid, kstack, sysret);
  }

  lemma StackAndWchan(L: Layout, h0: HeapState, m0: Mem, e: set<int>, h: HeapState, v: VmState, m1: Mem, m2: Mem,
                      p: int, pid: int, kstack: int, sysret: Word)
    requires CoreRep(L, h, v, m2) && Grows(h0, h) && OldKept(L, h0, m0, m2, e)
    requires ClientOf(h, p, PROC_CLASS) && NotYet(h0, p) && ClientOf(h, kstack, STACK_CLASS) && NotYet(h0, kstack)
    requires p != kstack
    requires Holds(m2, p, 64, [SET, pid, kstack, ContextOf(kstack)]) && ZeroRange(m1, kstack, 1024)
    requires forall b, j, x :: ClientOf(h, b, j) && b != p && b <= x < b + ClassSize(j) ==> At(m2, x) == At(m1, x)
    ensures var m4 := Put(StackMem(m2, kstack, sysret), p + PROC_WCHAN, 0);
      && CoreRep(L, h, v, m4) && OldKept(L, h0, m0, m4, e)
      && Holds(m4, p, 64, [SET, pid, kstack, ContextOf(kstack), 0]) && StackHolds(m4, kstack, sysret)
  {
    hide CoreRep, OldKept, Grows, ClientOf, ClassSize, Holds, StackHolds, StackMem, OnlyIn, NotYet;
    Sizes();
    var words := [SET, pid, kstack, ContextOf(kstack)];
    var m3 := StackMem(m2, kstack, sysret);
    StackFilled(m2, kstack, sysret);
    BlockWrite(L, h0, m0, e, h, v, m2, m3, kstack, STACK_CLASS);
    HoldsKept(m2, m3, p, 64, words);
    var m4 := Put(m3, p + PROC_WCHAN, 0);
    HoldsNext(m3, p, 64, words, 0);
    assert p + 8 * |words| == p + PROC_WCHAN && words + [0] == [SET, pid, kstack, ContextOf(kstack), 0];
    OneWord(m3, p, PROC_WCHAN, 0, 512);
    BlockWrite(L, h0, m0, e, h, v, m3, m4, p, PROC_CLASS);
    StackKept(m3, m4, kstack, sysret);
  }

  lemma RootFlags(page: Word)
    requires page % PM_4K == 0
    ensures Or(Or(Or(page, PG_P), PG_RW), PG_US) == page + 7
  {
    OrAssoc(page, 1, 2);
    FlagWords();
    OrAssoc(page, 3, 4);
    FrameOrFlag(page, 7);
    hide Or;
  }

  ghost function RootFields(m: Mem, p: int, upml: int, stdio: int): Mem {
    Put(Put(Put(m, p + PROC_UPML4, upml), p + PROC_OFILE, stdio), p + PROC_OFILE + 8, stdio)
  }

  lemma RootFieldsHold(m: Mem, p: int, pid: int, kstack: int, upml: int, stdio: int)
    requires Holds(m, p, 64, [SET, pid, kstack, ContextOf(kstack), 0])
    ensures Holds(RootFields(m, p, upml, stdio), p, 64, [SET, pid, kstack, ContextOf(kstack), 0, upml, stdio, stdio])
    ensures OnlyIn(m, RootFields(m, p, upml, stdio), p, 512)
  {
    var w5 := [SET, pid, kstack, ContextOf(kstack), 0];
    var w6, w7 := w5 + [upml], w5 + [upml] + [stdio];
    HoldsNext(m, p, 64, w5, upml);
    HoldsNext(Put(m, p + PROC_UPML4, upml), p, 64, w6, stdio);
    HoldsNext(Put(Put(m, p + PROC_UPML4, upml), p + PROC_OFILE, stdio), p, 64, w7, stdio);
    assert w7 + [stdio] == [SET, pid, kstack, ContextOf(kstack), 0, upml, stdio, stdio];
  }

  lemma RootStage(L: Layout, h0: HeapState, m0: Mem, e: set<int>, h: HeapState, v: VmState, m: Mem, m1: Mem,
                  p: int, kstack: int, pid: int, sysret: int, stdio: Word)
    requires CoreRep(L, h, v, m) && Grows(h0, h) && OldKept(L, h0, m0, m, e) && HeapInv(L, h)
    requires ClientOf(h, p, PROC_CLASS) && NotYet(h0, p) && p % 8 == 0 && UserRoot(p) !in v.ent
    requires ClientOf(h, kstack, STACK_CLASS) && p != kstack && StackHolds(m, kstack, sysret)
    requires Holds(m, p, 64, [SET, pid, kstack, ContextOf(kstack), 0])
    requires |h.g.free| == 3 && CanAlloc(h.g, 0)
    requires PmRep(L, m1, Alloc(h.g, 0)) && PmFrame(L, h.g, m, m1) && ZeroRange(m1, AllocAddr(h.g, 0), PM_4K)
    ensures AddRoot(L, h, v, p).Done?
    ensures var st, f := AddRoot(L, h, v, p).value, AllocAddr(h.g, 0);
      var h', m2 := HeapState(st.g, h.s), RootFields(m1, p, f + 7, stdio);
      && st == VmSt(Alloc(h.g, 0), Add(v, UserRoot(p), f + 7)) && f % PM_4K == 0 && 0 < f && f + 7 < WORD_LIMIT
      && CoreRep(L, h', st.v, m2) && Grows(h0, h') && OldKept(L, h0, m0, m2, e) && SameClients(h, h')
      && Holds(m2, p, 64, [SET, pid, kstack, ContextOf(kstack), 0, f + 7, stdio, stdio])
      && StackHolds(m2, kstack, sysret)
    ensures (p + PROC_UPML4) % 8 == 0 && (p + PROC_OFILE) % 8 == 0 && (p + PROC_OFILE + 8) % 8 == 0
  {
    hide PmInv, PmRep, VRep, CoreRep, Rep, HeapInv, OldKept, Grows, ClientOf, ClassSize, ZeroRange, Holds, NotYet;
    hide StackHolds, AddRoot, Alloc, AllocAddr, CanAlloc, PmFrame, RootFields, OnlyIn, StOk;
    RootStep(L, h, v, m, m1, p);
    var st, f := AddRoot(L, h, v, p).value, AllocAddr(h.g, 0);
    var h', m2 := HeapState(st.g, h.s), RootFields(m1, p, f + 7, stdio);
    Sizes();
    FieldAligned(p);
    OldTrans(L, h0, h, m0, m, m1, e, {}, e);
    GrowsTrans(h0, h, h');
    BlockKept(L, h, m, m1, {}, p, PROC_CLASS);
    BlockKept(L, h, m, m1, {}, kstack, STACK_CLASS);
    HoldsKept(m, m1, p, 64, [SET, pid, kstack, ContextOf(kstack), 0]);
    StackKept(m, m1, kstack, sysret);
    RootFieldsHold(m1, p, pid, kstack, f + 7, stdio);
    BlockWrite(L, h0, m0, e, h', st.v, m1, m2, p, PROC_CLASS);
    StackKept(m1, m2, kstack, sysret);
  }

  lemma NodeStage(L: Layout, h0: HeapState, m0: Mem, e: set<int>, h: HeapState, h': HeapState, v: VmState, m: Mem,
                  m1: Mem, p: int, kstack: int, words: seq<int>, sysret: int, node: int)
    requires CoreRep(L, h, v, m) && Grows(h0, h) && OldKept(L, h0, m0, m, e)
    requires ClientOf(h, p, PROC_CLASS) && ClientOf(h, kstack, STACK_CLASS)
    requires Holds(m, p, 64, words) && StackHolds(m, kstack, sysret)
    requires OnlyAdds(h, h', node, NODE_CLASS) && Rep(L, h', m1) && Kept(L, h, m, m1)
    ensures var m2 := Put(m1, node, p);
      && CoreRep(L, h', v, m2) && Grows(h0, h') && OldKept(L, h0, m0, m2, e)
      && Holds(m2, p, 64, words) && StackHolds(m2, kstack, sysret) && At(m2, node) == p
    ensures node % 8 == 0
  {
    hide CoreRep, Rep, Kept, OldKept, Grows, ClientOf, OnlyAdds, ClassSize, Holds, StackHolds, OnlyIn, NotYet;
    KmallocStage(L, h0, m0, e, h, h', v, m, m1, node, NODE_CLASS);
    Sizes();
    BlockKept(L, h, m, m1, {}, p, PROC_CLASS);
    BlockKept(L, h, m, m1, {}, kstack, STACK_CLASS);
    HoldsKept(m, m1, p, 64, words);
    StackKept(m, m1, kstack, sysret);
    OneWord(m1, node, 0, p, 64);
    var m2 := Put(m1, node, p);
    BlockWrite(L, h0, m0, e, h', v, m1, m2, node, NODE_CLASS);
    HoldsKept(m1, m2, p, 64, words);
    StackKept(m1, m2, kstack, sysret);
  }

  /** What `palloc` leaves in the blocks of the new process; all other words of them are zero. */
  ghost predicate NewProcess(m: Mem, p: int, q: Procs.Proc, upml: int, sysret: int, stdio: int) {
    && Holds(m, p, 64, [SET, q.pid % WORD_LIMIT, q.kstack, ContextOf(q.kstack), 0, upml, stdio, stdio])
    && StackHolds(m, q.kstack, sysret)
  }

  lemma PallocFirst(L: Layout, y: Sys)
    requires SysInv(L, y)
    ensures HeapInv(L, y.h)
    ensures var ra := Acquire(L, y.h, PROC_CLASS);
      && (ra.Panic? ==> Procs.Palloc(L, y).Panic?)
      && (ra.Done? ==>
            var rb := Acquire(L, ra.value.h, STACK_CLASS);
            && (rb.Panic? ==> Procs.Palloc(L, y).Panic?)
            && (rb.Done? ==> Procs.Palloc(L, y) == PallocRest(L, y, ra.value, rb.value)))
  {
    SysCore(L, y);
    hide SysInv, HeapInv, Acquire, PallocRest, OnlyAdds;
  }

  lemma PallocLast(L: Layout, y: Sys, a: Grab, b: Grab)
    requires HeapInv(L, b.h)
    ensures var r := AddRoot(L, b.h, y.v, a.addr);
      && (r.Panic? ==> PallocRest(L, y, a, b).Panic?)
      && (r.Done? ==>
            var rn := Acquire(L, HeapState(r.value.g, b.h.s), NODE_CLASS);
            && (rn.Panic? ==> PallocRest(L, y, a, b).Panic?)
            && (rn.Done? ==>
                  var y' := Register(y, rn.value.h, r.value.v, a.addr, b.addr, rn.value.addr);
                  PallocRest(L, y, a, b) == Done(Spawned(y', a.addr))))
  {
    hide HeapInv, Acquire, AddRoot, OnlyAdds, Register;
  }

  lemma FirstBlock(L: Layout, y: Sys, a: Grab)
    requires SysInv(L, y) && HeapInv(L, y.h) && Acquire(L, y.h, PROC_CLASS) == Done(a)
    ensures a.addr !in y.procs && UserRoot(a.addr) !in y.v.ent
  {
    hide Core, HeapInv, Acquire;
    NewAddress(y, a);
  }

  lemma OtherBlock(h: HeapState, b: Grab, k: nat, p: int)
    requires ClientOf(h, p, k) && OnlyAdds(h, b.h, b.addr, STACK_CLASS)
    ensures p != b.addr
  {
    hide SameForeign;
  }

  lemma SameClient(h: HeapState, h': HeapState, a: int, k: nat)
    requires SameClients(h, h') && ClientOf(h, a, k)
    ensures ClientOf(h', a, k)
  {
    hide ClientOf;
  }

  lemma NextPid(n: nat)
    ensures n > 0 ==> n % WORD_LIMIT == ((n - 1) % WORD_LIMIT + 1) % WORD_LIMIT
  {
  }

  lemma NewStructOk(m: Mem, p: int, q: Procs.Proc, words: seq<int>)
    requires Holds(m, p, 64, words) && |words| == 8 && At(m, q.node) == p
    requires words[0] == q.stat && words[1] == q.pid % WORD_LIMIT && words[2] == q.kstack
    ensures StructOk(m, q, p) && At(m, p + PROC_UPML4) == words[5]
  {
    assert WordAt(m, p, 0) == words[0] && WordAt(m, p, 1) == words[1] && WordAt(m, p, 2) == words[2]
      && WordAt(m, p, 5) == words[5];
  }

  /** The structures of the older processes are as they were. */
  lemma NewRep(L: Layout, y: Sys, m0: Mem, m: Mem, v: VmState, p: int, q: Procs.Proc, sysret: int, stdio: int,
               words: seq<int>)
    requires SysInv(L, y) && ProcsRep(m0, y.procs, y.v) && OldKept(L, y.h, m0, m, {}) && p !in y.procs
    requires exists w :: v == Add(y.v, UserRoot(p), w)
    requires words == [SET, q.pid % WORD_LIMIT, q.kstack, ContextOf(q.kstack), 0, v.ent[UserRoot(p)], stdio, stdio]
    requires Holds(m, p, 64, words) && StackHolds(m, q.kstack, sysret) && At(m, q.node) == p && q.stat == SET
    ensures ProcsRep(m, y.procs[p := q], v) && NewProcess(m, p, q, v.ent[UserRoot(p)], sysret, stdio)
  {
    hide Core, OldKept, StackHolds;
    Sizes();
    NewStructOk(m, p, q, words);
    hide Holds, ClientOf;
    forall x | x in y.procs ensures StructOk(m, y.procs[x], x) && At(m, x + PROC_UPML4) == UpmlWord(v, x) {
      assert StructOk(m0, y.procs[x], x);
      BlockKept(L, y.h, m0, m, {}, x, PROC_CLASS);
      BlockKept(L, y.h, m0, m, {}, y.procs[x].node, NODE_CLASS);
    }
  }

  lemma WalkSafe(L: Layout, st: VmSt, m: Mem, va: nat)
    requires VRep(L, st, m) && Walkable(st.v, va)
    ensures PmInv(L, st.g)
    ensures Walk(L, st, va, false).Done? ==> SameOutside(st, Walk(L, st, va, false).value)
  {
    hide StOk, Walk, Walkable, SameOutside;
    VRepParts(L, st, m);
    WalkOk(L, st, va, false);
  }

  /** The words of one process as the code reads them. */
  lemma ProcFacts(L: Layout, y: Sys, m: Mem, p: int)
    requires SysInv(L, y) && ProcsRep(m, y.procs, y.v) && p in y.procs
    ensures p % 8 == 0 && (p + PROC_KSTACK) % 8 == 0 && 0 < p < WORD_LIMIT
    ensures At(m, p) == y.procs[p].stat && At(m, p + PROC_KSTACK) == y.procs[p].kstack && BlocksOk(y)
  {
    assert StructOk(m, y.procs[p], p);
    SysCore(L, y);
    OccWord(L, y.h, p);
    FieldAligned(p);
  }

  lemma ProcRoot(y: Sys, m: Mem, p: int)
    requires ProcsRep(m, y.procs, y.v) && p in y.procs && UserRoot(p) in y.v.ent
    ensures y.v.ent[UserRoot(p)] == At(m, p + PROC_UPML4)
  {
  }

  /** Storing a status. */
  lemma StatStore(L: Layout, y: Sys, m: Mem, p: int, stat: int)
    requires CoreRep(L, y.h, y.v, m) && BlocksOk(y) && ProcsRep(m, y.procs, y.v) && p in y.procs
    ensures var y', m' := SetStat(y, p, stat), Put(m, p, stat);
      && CoreRep(L, y'.h, y'.v, m') && BlocksOk(y') && ProcsRep(m', y'.procs, y'.v)
      && ForeignKept(y.h, m, m', {})
  {
    hide CoreRep, OnlyIn, ClientOf;
    Sizes();
    var y', m' := SetStat(y, p, stat), Put(m, p, stat);
    OneWord(m, p, 0, stat, 512);
    BlockWriteRep(L, y.h, y.v, m, m', p, PROC_CLASS);
    forall x | x in y'.procs ensures StructOk(m', y'.procs[x], x) && At(m', x + PROC_UPML4) == UpmlWord(y'.v, x) {
      assert StructOk(m, y.procs[x], x);
      ClassesDiffer(y.h, y.procs[x].node, NODE_CLASS, p, PROC_CLASS);
    }
  }

  lemma ClassesDiffer(h: HeapState, a: int, j: nat, b: int, k: nat)
    requires ClientOf(h, a, j) && ClientOf(h, b, k) && j != k
    ensures a != b
  {
  }

  /** A step that keeps the clients and the roots keeps the process structures. */
  lemma ProcsKept(L: Layout, y: Sys, m: Mem, m': Mem, e: set<int>, v': VmState)
    requires BlocksOk(y) && ProcsRep(m, y.procs, y.v) && OldKept(L, y.h, m, m', e)
    requires forall p :: p in y.procs ==> UpmlWord(v', p) == UpmlWord(y.v, p)
    ensures ProcsRep(m', y.procs, v')
  {
    hide OldKept, ClientOf, UpmlWord;
    Sizes();
    forall x | x in y.procs ensures StructOk(m', y.procs[x], x) && At(m', x + PROC_UPML4) == UpmlWord(v', x) {
      assert StructOk(m, y.procs[x], x);
      BlockKept(L, y.h, m, m', e, x, PROC_CLASS);
      BlockKept(L, y.h, m, m', e, y.procs[x].node, NODE_CLASS);
    }
  }

  lemma SlotInTrees(L: Layout, st: VmSt)
    requires StOk(L, st)
    ensures InTrees(st, {SlotCell(st.v)})
  {
    hide OwnsFrame, HasPS, PmInv, Shaped, Frame;
    StParts(L, st);
    RootTable(st.v);
    PlainFrame(st.v.pgdir);
    forall b | Outside(st, b) ensures b + Size(st.g.blocks[b]) <= st.v.pgdir || st.v.pgdir + PM_4K <= b {
      KernelFrame(L, st, st, b);
    }
  }

  lemma PlainFrame(f: int)
    requires f % PM_4K == 0
    ensures Frame(f) == f
  {
  }

  /** Linking process `p` in slot 2. */
  lemma SwitchRep(L: Layout, y: Sys, m: Mem, m': Mem, p: int)
    requires CoreRep(L, y.h, y.v, m) && BlocksOk(y) && ProcsRep(m, y.procs, y.v) && UserRoot(p) in y.v.ent
    requires VRep(L, VmSt(y.h.g, y.v.(active := Some(p))), m') && Spared(L, y.h.g, m, m', {SlotCell(y.v)})
    ensures var v' := y.v.(active := Some(p));
      CoreRep(L, y.h, v', m') && ProcsRep(m', y.procs, v') && OldKept(L, y.h, m, m', {SlotCell(y.v)})
  {
    hide CoreRep, VRep, Spared, InTrees, OldKept, SameOutside, ProcsRep, BlocksOk, StOk;
    var st, e := VmSt(y.h.g, y.v.(active := Some(p))), {SlotCell(y.v)};
    SwitchOutside(VmSt(y.h.g, y.v), p);
    RepParts(L, y.h, y.v, m);
    VRepParts(L, VmSt(y.h.g, y.v), m);
    SlotInTrees(L, VmSt(y.h.g, y.v));
    TreeStepRep(L, y.h, y.v, st, m, m', e);
    ProcsKept(L, y, m, m', e, st.v);
  }

  lemma BeforeSwitch(L: Layout, y: Sys, m: Mem, next: int, prev: int)
    requires SysInv(L, y) && CoreRep(L, y.h, y.v, m) && ProcsRep(m, y.procs, y.v)
    requires next in y.procs && UserRoot(next) in y.v.ent && prev in y.procs && next != 0 && prev != 0
    ensures next % 8 == 0 && prev % 8 == 0 && At(m, next) == y.procs[next].stat && At(m, prev) == y.procs[prev].stat
    ensures var r := DispatchStep(y, next, prev); r.Done? ==>
      && SysInv(L, r.value) && (forall p :: p in r.value.procs ==> (r.value.procs[p].stat == RUN <==> p == next))
      && var z, m2 := SetStat(SetStat(y, prev, READY), next, RUN), Put(Put(m, prev, READY), next, RUN);
      && CoreRep(L, z.h, z.v, m2) && BlocksOk(z) && ProcsRep(m2, z.procs, z.v) && ForeignKept(y.h, m, m2, {})
  {
    hide CoreRep, ProcsRep, SysInv, BlocksOk, ForeignKept;
    ProcFacts(L, y, m, next);
    ProcFacts(L, y, m, prev);
    DispatchOk(L, y, next, prev);
    StatStore(L, y, m, prev, READY);
    StatStore(L, SetStat(y, prev, READY), Put(m, prev, READY), next, RUN);
    ForeignTrans(y.h, m, Put(m, prev, READY), Put(Put(m, prev, READY), next, RUN), {});
  }

  lemma AfterSwitch(L: Layout, y: Sys, m: Mem, next: int)
    requires SysInv(L, y) && ProcsRep(m, y.procs, y.v) && next in y.procs
    requires forall p :: p in y.procs ==> (y.procs[p].stat == RUN <==> p == next)
    ensures forall p :: p in y.procs ==> (At(m, p) == RUN <==> p == next)
    ensures (next + PROC_KSTACK) % 8 == 0 && At(m, next + PROC_KSTACK) == y.procs[next].kstack
  {
    hide SysInv;
    ProcFacts(L, y, m, next);
    forall p | p in y.procs ensures At(m, p) == y.procs[p].stat { assert StructOk(m, y.procs[p], p); }
  }

  // ---- Steps of uinit ----

  lemma BootPanics(L: Layout, y: Sys)
    requires SysInv(L, y)
    ensures Core(L, y.h, y.v) && HeapInv(L, y.h)
    ensures Procs.Palloc(L, y).Panic? ==> BootStep(L, y).Panic?
  {
    hide SysInv, Core, HeapInv, Procs.Palloc, TouchStep;
    SysCore(L, y);
  }

  ghost function LinkedSt(y: Sys, p: int): VmSt {
    VmSt(y.h.g, y.v.(active := Some(p)))
  }

  /** What remains of `uinit` once the process exists. */
  lemma BootRest(L: Layout, y0: Sys, y: Sys, m: Mem, p: int, sysret: int, stdio: int)
    requires SysInv(L, y0) && HeapInv(L, y0.h) && Procs.Palloc(L, y0) == Done(Spawned(y, p)) && y0.cur.None?
    requires ProcsRep(m, y.procs, y.v) && UserRoot(p) in y.v.ent && p in y.procs
    requires NewProcess(m, p, y.procs[p], y.v.ent[UserRoot(p)], sysret, stdio)
    ensures PmInv(L, y.h.g) && p > 0 && BlocksOk(y) && At(m, p + PROC_CONTEXT) == ContextOf(y.procs[p].kstack)
    ensures StackHolds(m, y.procs[p].kstack, sysret)
    ensures Walkable(LinkedSt(y, p).v, USER_ADDR_START)
    ensures var w := Walk(L, LinkedSt(y, p), USER_ADDR_START, false);
      && (w.Panic? ==> BootStep(L, y0).Panic?)
      && (w.Done? ==>
            var y' := Sys(HeapState(w.value.g, y.h.s), w.value.v, SetStat(y, p, RUN).procs, Some(p), y.nextpid);
            BootStep(L, y0) == Done(y') && SysInv(L, y') && Lookup(y'.v, USER_ADDR_START).Some?)
  {
    hide SysInv, HeapInv, Walk, Procs.Palloc, NewProcess, ProcsRep, Lookup, Walkable;
    PallocOk(L, y0);
    BootOk(L, y0);
    SwitchOk(L, y, p);
    SysCore(L, y);
    CoreSt(L, y.h, y.v);
    ProcFacts(L, y, m, p);
    ContextWord(m, p, y.procs[p], y.v.ent[UserRoot(p)], sysret, stdio);
    UserWalkable(SwitchStep(y, p), USER_ADDR_START);
  }

  ghost function FirstWord(i: nat, sysret: int): int {
    if i == 121 then USER_ADDR_START else if i == 122 then USER_ADDR_START + PM_4K else StackWord(i, sysret)
  }

  /** The kernel stack of the first process: its context returns to `sysret` with interrupts enabled, and
      from there enters user code at its start (r15), with a stack one page above (r14). */
  ghost predicate StartsAt(m: Mem, kstack: int, sysret: int) {
    forall i: nat :: i < 128 ==> WordAt(m, kstack, i) == FirstWord(i, sysret)
  }

  lemma StackStarts(m: Mem, kstack: int, sysret: int)
    requires StackHolds(m, kstack, sysret)
    ensures var c := ContextOf(kstack);
      StartsAt(Put(Put(m, c + CONTEXT_R15, USER_ADDR_START), c + CONTEXT_R14, USER_ADDR_START + PM_4K), kstack, sysret)
  {
    var c := ContextOf(kstack);
    var m' := Put(Put(m, c + CONTEXT_R15, USER_ADDR_START), c + CONTEXT_R14, USER_ADDR_START + PM_4K);
    forall i: nat | i < 128 ensures WordAt(m', kstack, i) == FirstWord(i, sysret) {
      assert WordAt(m, kstack, i) == StackWord(i, sysret);
    }
  }

  /** A status change, or a step that keeps the clients, keeps the kernel stack. */
  lemma StatStack(L: Layout, y: Sys, m: Mem, p: int, stat: int, sysret: int)
    requires CoreRep(L, y.h, y.v, m) && BlocksOk(y) && p in y.procs && StackHolds(m, y.procs[p].kstack, sysret)
    ensures StackHolds(Put(m, p, stat), y.procs[p].kstack, sysret)
  {
    hide CoreRep, OnlyIn, ClientOf, StackHolds;
    Sizes();
    OneWord(m, p, 0, stat, 512);
    BlockWriteRep(L, y.h, y.v, m, Put(m, p, stat), p, PROC_CLASS);
    ClassesDiffer(y.h, p, PROC_CLASS, y.procs[p].kstack, STACK_CLASS);
    StackKept(m, Put(m, p, stat), y.procs[p].kstack, sysret);
  }

  lemma OldStack(L: Layout, y: Sys, m: Mem, m': Mem, e: set<int>, p: int, sysret: int)
    requires BlocksOk(y) && p in y.procs && OldKept(L, y.h, m, m', e) && StackHolds(m, y.procs[p].kstack, sysret)
    ensures StackHolds(m', y.procs[p].kstack, sysret)
  {
    hide OldKept, ClientOf, StackHolds;
    Sizes();
    BlockKept(L, y.h, m, m', e, y.procs[p].kstack, STACK_CLASS);
    StackKept(m, m', y.procs[p].kstack, sysret);
  }

  lemma ContextWord(m: Mem, p: int, q: Procs.Proc, upml: int, sysret: int, stdio: int)
    requires NewProcess(m, p, q, upml, sysret, stdio)
    ensures At(m, p + PROC_CONTEXT) == ContextOf(q.kstack) && StackHolds(m, q.kstack, sysret)
  {
    assert WordAt(m, p, 3) == ContextOf(q.kstack);
  }

  lemma ContextKept(L: Layout, y: Sys, m: Mem, m': Mem, e: set<int>, p: int)
    requires BlocksOk(y) && p in y.procs && OldKept(L, y.h, m, m', e)
    ensures At(m', p + PROC_CONTEXT) == At(m, p + PROC_CONTEXT)
  {
    hide OldKept, ClientOf;
    BlockKept(L, y.h, m, m', e, p, PROC_CLASS);
    Sizes();
  }

  lemma BlocksHere(y: Sys, p: int, stat: int)
    requires BlocksOk(y) && p in y.procs
    ensures BlocksOk(SwitchStep(SetStat(y, p, stat), p))
  {
  }

  lemma StartWords(L: Layout, y: Sys, m: Mem, p: int)
    requires CoreRep(L, y.h, y.v, m) && BlocksOk(y) && ProcsRep(m, y.procs, y.v) && p in y.procs
    ensures p % 8 == 0 && (p + PROC_KSTACK) % 8 == 0 && (p + PROC_CONTEXT) % 8 == 0
    ensures At(m, p + PROC_KSTACK) == y.procs[p].kstack
  {
    assert StructOk(m, y.procs[p], p);
    RepParts(L, y.h, y.v, m);
    OccWord(L, y.h, p);
    FieldAligned(p);
  }

  /** A page fault keeps the process structures. */
  lemma FaultKept(L: Layout, y: Sys, m: Mem, st: VmSt, m': Mem, va: nat)
    requires CoreRep(L, y.h, y.v, m) && BlocksOk(y) && ProcsRep(m, y.procs, y.v) && PmInv(L, y.h.g)
    requires Walkable(y.v, va) && Walk(L, VmSt(y.h.g, y.v), va, false) == Done(st)
    requires OldKept(L, y.h, m, m', NewLinks(y.v, st.v))
    ensures ProcsRep(m', y.procs, st.v) && BlocksOk(WithSt(y, st))
  {
    hide CoreRep, OldKept, ClientOf, ProcsRep, StOk, Walk, UpmlWord, Walkable, TreeOk, PmInv, PmRep, VRep, Rep;
    hide HeapInv, Core, OnPath, BlocksOk, Mapped, LargeWord, VmInv, FramesOk, PmCore, NewLinks;
    RepParts(L, y.h, y.v, m);
    CoreSt(L, y.h, y.v);
    StParts(L, VmSt(y.h.g, y.v));
    WalkOk(L, VmSt(y.h.g, y.v), va, false);
    SameRoots(VmSt(y.h.g, y.v), st, va);
    ProcsKept(L, y, m, m', NewLinks(y.v, st.v), st.v);
    SameHeapBlocks(y, st);
  }

  lemma SameHeapBlocks(y: Sys, st: VmSt)
    requires BlocksOk(y)
    ensures BlocksOk(WithSt(y, st))
  {
  }

  /** A walk adds no root of a process. */
  lemma SameRoots(st: VmSt, st': VmSt, va: nat)
    requires OnPath(st, st', va) && TreeOk(st.v)
    ensures forall p :: UpmlWord(st'.v, p) == UpmlWord(st.v, p)
  {
    hide SameOutside, Idx, IsUsed;
    forall p | UserRoot(p) in st'.v.ent ensures UserRoot(p) in st.v.ent {
      assert UserRoot(p) !in st.v.ent ==> UserRoot(p) == PathPos(st.v, va, 3);
    }
  }

  /** Setting the first context of process `p`. */
  lemma StartContext(L: Layout, y: Sys, m: Mem, p: int)
    requires CoreRep(L, y.h, y.v, m) && BlocksOk(y) && ProcsRep(m, y.procs, y.v) && p in y.procs
    ensures var c := ContextOf(y.procs[p].kstack);
      var m' := Put(Put(m, c + CONTEXT_R15, USER_ADDR_START), c + CONTEXT_R14, USER_ADDR_START + PM_4K);
      && CoreRep(L, y.h, y.v, m') && ProcsRep(m', y.procs, y.v) && (c + CONTEXT_R15) % 8 == 0
      && (c + CONTEXT_R14) % 8 == 0
      && At(m', p + PROC_CONTEXT) == At(m, p + PROC_CONTEXT)
  {
    hide CoreRep, ClientOf, PmInv, PmRep, Rep, VRep, Core, HeapInv, OnlyIn;
    var k := y.procs[p].kstack;
    var c := ContextOf(k);
    var m' := Put(Put(m, c + CONTEXT_R15, USER_ADDR_START), c + CONTEXT_R14, USER_ADDR_START + PM_4K);
    Sizes();
    RepParts(L, y.h, y.v, m);
    OccAligned(L, y.h, k);
    FieldAligned(k);
    TwoWords(m, k, 968, USER_ADDR_START, 976, USER_ADDR_START + PM_4K);
    BlockWriteRep(L, y.h, y.v, m, m', k, STACK_CLASS);
    ClassesDiffer(y.h, p, PROC_CLASS, k, STACK_CLASS);
    forall x | x in y.procs ensures StructOk(m', y.procs[x], x) && At(m', x + PROC_UPML4) == UpmlWord(y.v, x) {
      assert StructOk(m, y.procs[x], x);
      ClassesDiffer(y.h, x, PROC_CLASS, k, STACK_CLASS);
      ClassesDiffer(y.h, y.procs[x].node, NODE_CLASS, k, STACK_CLASS);
    }
  }

  lemma TwoWords(m: Mem, a: int, i: nat, w: int, j: nat, u: int)
    requires i < 1024 && j < 1024
    ensures OnlyIn(m, Put(Put(m, a + i, w), a + j, u), a, 1024)
  {
  }

  lemma OccAligned(L: Layout, h: HeapState, a: int)
    requires HeapInv(L, h) && ClientOf(h, a, STACK_CLASS)
    ensures a % 8 == 0 && (ContextOf(a) + CONTEXT_R14) % 8 == 0
  {
    hide HeapInv;
    OccWord(L, h, a);
    hide ClientOf;
  }

  // ---- Steps of mm_init ----

  lemma EnoughMemory(L: Layout, g: PmState)
    requires PmInv(L, g) && |g.free| == 3 && forall k :: 0 <= k < 3 ==> |g.free[k]| == Greedy(g.hi - g.lo, k)
    requires g.lo <= g.hi
    ensures MmStart(L, g).Done? <==> (g.hi - g.lo) / PM_4K >= START_FRAMES
  {
    hide PmInv, MmStart, Greedy, FreeFrames, FewSmall;
    GreedyFrames(g);
    StartSupply(L, g);
  }

  lemma MmStartIs(L: Layout, g: PmState)
    requires PmInv(L, g)
    ensures VmInit(L, g).Panic? ==> MmStart(L, g).Panic?
  {
    hide PmInv, VmInit, InitPrefix, StOk;
  }

  lemma MmStartRest(L: Layout, g: PmState, st: VmSt)
    requires PmInv(L, g) && VmInit(L, g) == Done(st) && PmInv(L, st.g)
    ensures InitPrefix(L, st.g, CLASSES).Panic? ==> MmStart(L, g).Panic?
    ensures InitPrefix(L, st.g, CLASSES).Done? ==>
      MmStart(L, g) == Done(Sys(InitPrefix(L, st.g, CLASSES).value, st.v, map[], None, 0))
  {
    hide PmInv, VmInit, InitPrefix, StOk;
  }

  lemma MmStartLayers(L: Layout, g: PmState, st: VmSt, h: HeapState, m: Mem, m': Mem)
    requires PmInv(L, g) && VmInit(L, g) == Done(st) && PmInv(L, st.g) && InitPrefix(L, st.g, CLASSES) == Done(h)
    requires VRep(L, st, m) && StartKept(L, st.g, m, m') && Rep(L, h, m')
    ensures var y := Sys(h, st.v, map[], None, 0);
      && SysInv(L, y) && CoreRep(L, h, st.v, m') && MmStart(L, g) == Done(y)
      && (forall va: nat :: va < LOW_LIMIT ==> Translate(m', st.v.pgdir, va) == Some(va))
  {
    hide PmInv, PmRep, VmInit, InitPrefix, StOk, VmRep, SlabRep, StartKept, HeapInv, Core, Translate, Lookup, MmStart;
    hide Quiescent, IsClient;
    MmStartRest(L, g, st);
    MmStartOk(L, g);
    var y := Sys(h, st.v, map[], None, 0);
    SysCore(L, y);
    StParts(L, st);
    TablesThroughStart(st, m, m', L);
    RepParts(L, h, st.v, m');
    CoreSt(L, h, st.v);
    StParts(L, VmSt(h.g, st.v));
    forall va: nat | va < LOW_LIMIT ensures Translate(m', st.v.pgdir, va) == Some(va) {
      TranslateIsLookup(h.g, st.v, m', va);
      UserFlag(va);
    }
  }

  lemma TablesThroughStart(st: VmSt, m: Mem, m': Mem, L: Layout)
    requires FramesOk(st.g, st.v) && VmRep(m, st.v) && StartKept(L, st.g, m, m')
    ensures VmRep(m', st.v)
  {
    forall p, i: nat | p in st.v.ent && IsTable(p, st.v.ent[p]) && i < ENTRIES ensures EntryOk(m', st.v, p, i) {
      assert EntryOk(m, st.v, p, i);
      CellInFrame(st.v.ent[p], i);
      assert IsUsed(st.g, Frame(st.v.ent[p]));
    }
  }

  // ---- Nothing older changes ----

  lemma StatOld(L: Layout, h0: HeapState, m0: Mem, e: set<int>, y: Sys, m: Mem, p: int, stat: int)
    requires CoreRep(L, y.h, y.v, m) && BlocksOk(y) && p in y.procs && NotYet(h0, p)
    requires Grows(h0, y.h) && OldKept(L, h0, m0, m, e)
    ensures OldKept(L, h0, m0, Put(m, p, stat), e)
  {
    hide CoreRep, OldKept, Grows, ClientOf, OnlyIn;
    Sizes();
    OneWord(m, p, 0, stat, 512);
    BlockWrite(L, h0, m0, e, y.h, y.v, m, Put(m, p, stat), p, PROC_CLASS);
  }

  lemma FaultOld(L: Layout, h0: HeapState, m0: Mem, e: set<int>, y: Sys, m: Mem, st: VmSt, m': Mem)
    requires Grows(h0, y.h) && Grows(y.h, HeapState(st.g, y.h.s))
    requires OldKept(L, h0, m0, m, e) && OldKept(L, y.h, m, m', NewLinks(y.v, st.v))
    ensures OldKept(L, h0, m0, m', e + NewLinks(y.v, st.v)) && Grows(h0, HeapState(st.g, y.h.s))
  {
    hide OldKept, Grows, NewLinks;
    OldTrans(L, h0, y.h, m0, m, m', e, NewLinks(y.v, st.v), e + NewLinks(y.v, st.v));
    GrowsTrans(h0, y.h, HeapState(st.g, y.h.s));
  }

  /** Linking the process in slot 2 writes one old cell. */
  lemma SwitchOld(L: Layout, h0: HeapState, m0: Mem, e: set<int>, y: Sys, m: Mem, m': Mem)
    requires Grows(h0, y.h) && OldKept(L, h0, m0, m, e) && OldKept(L, y.h, m, m', {SlotCell(y.v)}) && SlotCell(y.v) in e
    ensures OldKept(L, h0, m0, m', e)
  {
    hide OldKept, Grows;
    OldTrans(L, h0, y.h, m0, m, m', e, {SlotCell(y.v)}, e);
  }

  lemma ContextOld(L: Layout, h0: HeapState, m0: Mem, e: set<int>, y: Sys, m: Mem, p: int)
    requires CoreRep(L, y.h, y.v, m) && BlocksOk(y) && p in y.procs && NotYet(h0, y.procs[p].kstack)
    requires Grows(h0, y.h) && OldKept(L, h0, m0, m, e)
    ensures var c := ContextOf(y.procs[p].kstack);
      OldKept(L, h0, m0, Put(Put(m, c + CONTEXT_R15, USER_ADDR_START), c + CONTEXT_R14, USER_ADDR_START + PM_4K), e)
  {
    hide CoreRep, OldKept, Grows, ClientOf, OnlyIn;
    Sizes();
    var k := y.procs[p].kstack;
    var c := ContextOf(k);
    TwoWords(m, k, 968, USER_ADDR_START, 976, USER_ADDR_START + PM_4K);
    BlockWrite(L, h0, m0, e, y.h, y.v, m,
      Put(Put(m, c + CONTEXT_R15, USER_ADDR_START), c + CONTEXT_R14, USER_ADDR_START + PM_4K), k, STACK_CLASS);
  }

  lemma OneWord(m: Mem, a: int, off: nat, w: int, n: nat)
    requires off < n
    ensures OnlyIn(m, Put(m, a + off, w), a, n)
  {
  }

  lemma BlockEnd(L: Layout, h: HeapState, v: VmState, m: Mem, a: int, k: nat)
    requires CoreRep(L, h, v, m) && ClientOf(h, a, k)
    ensures a + ClassSize(k) < WORD_LIMIT
  {
    hide PmRep, SlabRep, VmRep, StOk, FramesForeign;
    Parts(L, h);
    OccPlace(L, h.g, h.s, a);
    BlockBelow(L, h.g, h.s.slabs[h.s.occ[a].hdr].page);
  }

  lemma FieldAligned(p: int)
    requires p % 8 == 0
    ensures (p + PROC_PID) % 8 == 0 && (p + PROC_KSTACK) % 8 == 0 && (p + PROC_CONTEXT) % 8 == 0
    ensures (p + PROC_WCHAN) % 8 == 0
    ensures (p + PROC_UPML4) % 8 == 0 && (p + PROC_OFILE) % 8 == 0 && (p + PROC_OFILE + 8) % 8 == 0
    ensures (p + KSTACK_SIZE - CONTEXT_BYTES) % 8 == 0 && (p + KSTACK_SIZE - CONTEXT_BYTES + CONTEXT_RIP) % 8 == 0
    ensures (p + KSTACK_SIZE - CONTEXT_BYTES + CONTEXT_R13) % 8 == 0
  {
  }
}
