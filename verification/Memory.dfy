/** The machine's physical memory and the outcome of a kernel routine that may panic. */
module Memory {
  import opened Bits

  datatype Option<+T> = None | Some(value: T)

  /** `panic` prints and spins for ever, so a routine either panics or is done with a value. */
  datatype Outcome<+T> = Panic | Done(value: T) {
    predicate IsFailure() {
      Panic?
    }

    function PropagateFailure<U>(): Outcome<U>
      requires Panic?
    {
      Panic
    }

    function Extract(): T
      requires Done?
    {
      value
    }
  }

  /** Cell `a` holds the 64-bit word that starts at byte address `a`; a cell never written holds 0.
      Load and Store accept only multiples of 8, so cells that are ever accessed do not overlap. */
  type Mem = map<int, int>

  function At(m: Mem, a: int): int {
    if a in m then m[a] else 0
  }

  function Put(m: Mem, a: int, v: int): (m': Mem)
    ensures forall x {:trigger At(m', x)} :: At(m', x) == if x == a then v else At(m, x)
  {
    m[a := v]
  }

  ghost predicate ZeroRange(m: Mem, a: int, n: int) {
    forall x :: a <= x < a + n ==> At(m, x) == 0
  }

  class Ram {
    var mem: Mem

    constructor (initial: Mem)
      ensures mem == initial
    {
      mem := initial;
    }

    method Load(a: int) returns (v: int)
      requires a % 8 == 0
      ensures v == At(mem, a)
    {
      v := At(mem, a);
    }

    method Store(a: int, v: Word)
      requires a % 8 == 0
      modifies this
      ensures mem == Put(old(mem), a, v)
    {
      mem := Put(mem, a, v);
    }

    method Memset(a: int, count: nat)
      modifies this
      ensures forall x :: At(mem, x) == if a <= x < a + count then 0 else At(old(mem), x)
    {
      for i := 0 to count
        invariant forall x :: At(mem, x) == if a <= x < a + i then 0 else At(old(mem), x)
      {
        mem := Put(mem, a + i, 0);
      }
    }
  }
}
