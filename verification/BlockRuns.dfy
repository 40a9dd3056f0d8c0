/** Every run of `pmalloc` and `pmfree`: conservation of the carved interval. Pure. */
module BlockRuns {
  import opened Memory
  import opened Blocks

  datatype PmCall = Take(level: nat) | Give(block: int)

  /** The allocator and the set of blocks its callers hold. */
  datatype PmRun = PmRun(g: PmState, held: set<int>)

  ghost predicate Holds(r: PmRun) {
    forall b :: IsUsed(r.g, b) <==> b in r.held
  }

  /** One call: taking panics when nothing large enough is free, giving back is for blocks held. */
  ghost function Step(L: Layout, r: PmRun, c: PmCall): Outcome<PmRun>
    requires PmInv(L, r.g) && Holds(r)
  {
    match c
    case Take(k) =>
      if k < 3 && CanAlloc(r.g, k) then Done(PmRun(Alloc(r.g, k), r.held + {AllocAddr(r.g, k)})) else Panic
    case Give(b) =>
      if b in r.held then Done(PmRun(Push(r.g, r.g.blocks[b], b), r.held - {b})) else Panic
  }

  lemma StepOk(L: Layout, r: PmRun, c: PmCall)
    requires PmInv(L, r.g) && Holds(r)
    ensures var n := Step(L, r, c); n.Done? ==>
      && PmInv(L, n.value.g) && Holds(n.value) && n.value.g.lo == r.g.lo && n.value.g.hi == r.g.hi
      && (forall b :: b in r.held && b in n.value.held ==> n.value.g.blocks[b] == r.g.blocks[b])
  {
    match c
    case Take(k) => if k < 3 && CanAlloc(r.g, k) { AllocInv(L, r.g, k); }
    case Give(b) => if b in r.held { PushInv(L, r.g, r.g.blocks[b], b); }
  }

  ghost predicate Run(L: Layout, r: PmRun, calls: seq<PmCall>, r': PmRun)
    requires PmInv(L, r.g) && Holds(r)
    decreases |calls|
  {
    if calls == [] then r' == r
    else Step(L, r, calls[0]).Done? && (StepOk(L, r, calls[0]); Run(L, Step(L, r, calls[0]).value, calls[1..], r'))
  }

  /** The block is on the free list of its level. */
  ghost predicate IsListed(g: PmState, b: int) {
    b in g.blocks && g.blocks[b] < |g.free| && b in g.free[g.blocks[b]]
  }

  /** After any run, through every split, each address of the carved interval lies in exactly one
      block, and each block is either on the free list of its size, once, or held by a caller. */
  lemma {:induction false} Conservation(L: Layout, r: PmRun, calls: seq<PmCall>, r': PmRun)
    requires PmInv(L, r.g) && Holds(r) && Run(L, r, calls, r')
    ensures PmInv(L, r'.g) && Holds(r') && Tiled(r'.g.blocks, r.g.lo, r.g.hi)
    ensures forall b :: b in r'.g.blocks ==> (IsListed(r'.g, b) <==> b !in r'.held)
    decreases |calls|
  {
    hide Step;
    if calls != [] {
      hide PmInv, Holds, Tiled, IsListed;
      StepOk(L, r, calls[0]);
      Conservation(L, Step(L, r, calls[0]).value, calls[1..], r');
    }
  }
}
