/** How much memory the free lists hold, and what `pmalloc` takes from it. */
module Supply {
  import opened Blocks

  /** Free memory counted in 4K frames, whole or still inside larger blocks. */
  ghost function FreeFrames(g: PmState): nat
    requires |g.free| == 3
  {
    |g.free[0]| + PIECES * |g.free[1]| + PIECES * PIECES * |g.free[2]|
  }

  /** Free memory counted in 512K blocks, whole or still inside 64M blocks. */
  ghost function Units(g: PmState): nat
    requires |g.free| == 3
  {
    |g.free[1]| + PIECES * |g.free[2]|
  }

  /** Fewer 4K blocks than one 512K block breaks into. */
  ghost predicate FewSmall(g: PmState)
    requires |g.free| == 3
  {
    |g.free[0]| < PIECES
  }

  /** A 4K block can be had exactly when a frame is free, and costs exactly one frame; it breaks up a
      512K unit exactly when the list of 4K blocks is empty. */
  lemma AllocFrame(g: PmState)
    requires |g.free| == 3
    ensures CanAlloc(g, 0) <==> FreeFrames(g) > 0
    ensures CanAlloc(g, 0) ==> var g' := Alloc(g, 0);
      && |g'.free| == 3 && FreeFrames(g') == FreeFrames(g) - 1
      && Units(g') == Units(g) - (if g.free[0] == [] then 1 else 0)
      && |g'.free[0]| == (if g.free[0] == [] then PIECES else |g.free[0]|) - 1 && (FewSmall(g) ==> FewSmall(g'))
  {
    RefillUnits(g);
    assert Refill(g, 0) == g || g.free[0] == [];
    if g.free[0] == [] && Refill(g, 1).free[1] != [] {
      assert |Refill(g, 0).free[0]| == PIECES;
    }
  }

  /** A 512K block can be had exactly when a unit is left, and costs exactly one unit. */
  lemma AllocUnit(g: PmState)
    requires |g.free| == 3
    ensures CanAlloc(g, 1) <==> Units(g) > 0
    ensures CanAlloc(g, 1) ==> var g' := Alloc(g, 1);
      && |g'.free| == 3 && Units(g') == Units(g) - 1 && g'.free[0] == g.free[0]
      && FreeFrames(g') == FreeFrames(g) - PIECES
  {
    RefillUnits(g);
  }

  lemma RefillUnits(g: PmState)
    requires |g.free| == 3
    ensures var r := Refill(g, 1);
      && |r.free| == 3 && Units(r) == Units(g) && r.free[0] == g.free[0] && (r.free[1] != [] <==> Units(g) > 0)
  {
    assert Refill(g, 2) == g;
    if g.free[1] == [] && g.free[2] != [] {
      assert |Refill(g, 1).free[1]| == PIECES;
    }
  }
}
