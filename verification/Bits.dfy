/** The bitwise operators of C on 64-bit unsigned words, defined digit by digit on the naturals.
    A word is read as the set of its one-bits; the lemmas say what each operator the kernel uses
    does to that set, or which arithmetic it amounts to on page-aligned addresses. */
module Bits {

  function Pow2(n: nat): (r: nat)
    ensures r >= 1
  {
    if n == 0 then 1 else 2 * Pow2(n - 1)
  }

  const WORD_LIMIT := 0x1_0000_0000_0000_0000
  const WORD_MAX := 0xFFFF_FFFF_FFFF_FFFF

  type Word = w: int | 0 <= w < WORD_LIMIT

  /** `a & b` */
  function And(a: nat, b: nat): (r: nat)
    ensures r <= a
  {
    if a == 0 || b == 0 then 0
    else (if a % 2 == 1 && b % 2 == 1 then 1 else 0) + 2 * And(a / 2, b / 2)
  }

  /** `a | b` */
  function Or(a: nat, b: nat): nat {
    if a == 0 then b
    else if b == 0 then a
    else (if a % 2 == 1 || b % 2 == 1 then 1 else 0) + 2 * Or(a / 2, b / 2)
  }

  /** `~a` on 64 bits */
  function Not(a: Word): Word {
    WORD_MAX - a
  }

  /** `a >> n` */
  function Shr(a: nat, n: nat): nat {
    if n == 0 then a else Shr(a / 2, n - 1)
  }

  predicate Bit(w: nat, i: nat) {
    if i == 0 then w % 2 == 1 else Bit(w / 2, i - 1)
  }

  ghost function SetOf(w: nat): set<nat> {
    set i: nat | i < 64 && Bit(w, i)
  }

  lemma {:induction false} AndBit(a: nat, b: nat, i: nat)
    ensures Bit(And(a, b), i) <==> Bit(a, i) && Bit(b, i)
  {
    if a == 0 || b == 0 {
      ZeroBit(i);
    } else if i > 0 {
      AndBit(a / 2, b / 2, i - 1);
      assert And(a, b) / 2 == And(a / 2, b / 2);
    }
  }

  lemma {:induction false} OrBit(a: nat, b: nat, i: nat)
    ensures Bit(Or(a, b), i) <==> Bit(a, i) || Bit(b, i)
  {
    if a == 0 || b == 0 {
      ZeroBit(i);
    } else {
      OrHalf(a, b);
      if i > 0 { OrBit(a / 2, b / 2, i - 1); }
    }
  }

  lemma {:induction false} ZeroBit(i: nat)
    ensures !Bit(0, i)
  {
    if i > 0 { ZeroBit(i - 1); }
  }

  lemma {:induction false} PowBit(j: nat, i: nat)
    ensures Bit(Pow2(j), i) <==> i == j
  {
    if j == 0 {
      if i > 0 { ZeroBit(i - 1); }
    } else if i > 0 {
      PowBit(j - 1, i - 1);
      assert Pow2(j) / 2 == Pow2(j - 1);
    }
  }

  lemma {:induction false} ComplementBit(n: nat, w: nat, i: nat)
    requires w < Pow2(n)
    ensures Bit(Pow2(n) - 1 - w, i) <==> i < n && !Bit(w, i)
  {
    if n == 0 {
      ZeroBit(i);
    } else if i > 0 {
      ComplementBit(n - 1, w / 2, i - 1);
      assert (Pow2(n) - 1 - w) / 2 == Pow2(n - 1) - 1 - w / 2;
    }
  }

  /** A bit above the width of the word is zero. */
  lemma {:induction false} HighBit(n: nat, w: nat, i: nat)
    requires w < Pow2(n) && n <= i
    ensures !Bit(w, i)
  {
    if n == 0 { ZeroBit(i); } else { HighBit(n - 1, w / 2, i - 1); }
  }

  /** Words with the same bits are equal. */
  lemma {:induction false} Extensional(n: nat, a: nat, b: nat)
    requires a < Pow2(n) && b < Pow2(n)
    requires forall i: nat :: i < n ==> (Bit(a, i) <==> Bit(b, i))
    ensures a == b
  {
    if n > 0 {
      forall i: nat | i < n - 1 ensures Bit(a / 2, i) <==> Bit(b / 2, i) {
        assert Bit(a, i + 1) <==> Bit(b, i + 1);
      }
      Extensional(n - 1, a / 2, b / 2);
      assert Bit(a, 0) <==> Bit(b, 0);
    }
  }

  lemma {:induction false} OrBound(n: nat, a: nat, b: nat)
    requires a < Pow2(n) && b < Pow2(n)
    ensures Or(a, b) < Pow2(n)
  {
    if a != 0 && b != 0 && n > 0 { OrBound(n - 1, a / 2, b / 2); }
  }

  lemma {:induction false} PowMono(i: nat, n: nat)
    requires i < n
    ensures Pow2(i) < Pow2(n)
  {
    if i < n - 1 { PowMono(i, n - 1); }
  }

  lemma Pow64()
    ensures Pow2(64) == WORD_LIMIT
  {
    assert Pow2(8) == 256;
    PowSum(8, 8);
    assert Pow2(16) == 256 * 256;
    PowSum(16, 16);
    assert Pow2(32) == 0x1_0000 * 0x1_0000;
    PowSum(32, 32);
  }

  lemma {:induction false} PowSum(a: nat, b: nat)
    ensures Pow2(a + b) == Pow2(a) * Pow2(b)
  {
    if b > 0 {
      PowSum(a, b - 1);
      assert Pow2(a + b) == 2 * Pow2(a + (b - 1));
      TwiceProduct(Pow2(a), Pow2(b - 1));
    }
  }

  lemma TwiceProduct(x: int, y: int)
    ensures 2 * (x * y) == x * (2 * y)
  {
  }

  // ---- What the kernel's bitmap operations do to the set of occupied slots ----

  /** `w | (1ULL << j)` */
  lemma SetBit(w: Word, j: nat)
    requires j < 64
    ensures Pow2(j) < WORD_LIMIT && Or(w, Pow2(j)) < WORD_LIMIT
    ensures SetOf(Or(w, Pow2(j))) == SetOf(w) + {j}
  {
    Pow64();
    PowMono(j, 64);
    OrBound(64, w, Pow2(j));
    forall i: nat | i < 64 ensures Bit(Or(w, Pow2(j)), i) <==> Bit(w, i) || i == j {
      OrBit(w, Pow2(j), i);
      PowBit(j, i);
    }
  }

  /** `w & ~(1ULL << j)` */
  lemma ClearBit(w: Word, j: nat)
    requires j < 64
    ensures Pow2(j) < WORD_LIMIT && And(w, Not(Pow2(j))) < WORD_LIMIT
    ensures SetOf(And(w, Not(Pow2(j)))) == SetOf(w) - {j}
  {
    Pow64();
    PowMono(j, 64);
    forall i: nat | i < 64 ensures Bit(And(w, Not(Pow2(j))), i) <==> Bit(w, i) && i != j {
      AndBit(w, Not(Pow2(j)), i);
      ComplementBit(64, Pow2(j), i);
      PowBit(j, i);
    }
  }

  /** `(w & (1ULL << j)) == 0` */
  lemma TestBit(w: nat, j: nat)
    ensures And(w, Pow2(j)) == 0 <==> !Bit(w, j)
  {
    if And(w, Pow2(j)) == 0 {
      AndBit(w, Pow2(j), j);
      PowBit(j, j);
      ZeroBit(j);
    } else if !Bit(w, j) {
      PowMono(j, j + 1);
      AndComm(w, Pow2(j));
      forall i: nat | i < j + 1 ensures Bit(And(w, Pow2(j)), i) <==> Bit(0, i) {
        AndBit(w, Pow2(j), i);
        PowBit(j, i);
        ZeroBit(i);
      }
      Extensional(j + 1, And(w, Pow2(j)), 0);
    }
  }

  lemma {:induction false} AndComm(a: nat, b: nat)
    ensures And(a, b) == And(b, a)
  {
    if a != 0 && b != 0 { AndComm(a / 2, b / 2); }
  }

  /** A word is its set of bits. */
  lemma WordIsSet(a: Word, b: Word)
    ensures SetOf(a) == SetOf(b) <==> a == b
  {
    if SetOf(a) == SetOf(b) {
      Pow64();
      forall i: nat | i < 64 ensures Bit(a, i) <==> Bit(b, i) {
        assert i in SetOf(a) <==> i in SetOf(b);
      }
      Extensional(64, a, b);
    }
  }

  lemma SpecialWords()
    ensures SetOf(0) == {} && SetOf(1) == {0} && SetOf(3) == {0, 1}
    ensures forall i: nat :: i < 64 ==> i in SetOf(WORD_MAX)
  {
    forall i: nat | i < 64 ensures !Bit(0, i) && (Bit(1, i) <==> i == 0) && Bit(WORD_MAX, i) && (Bit(3, i) <==> i < 2) {
      ZeroBit(i);
      PowBit(0, i);
      Pow64();
      ComplementBit(64, 0, i);
      if i > 0 { PowBit(0, i - 1); }
    }
  }

  // ---- Page-table words ----

  lemma {:induction false} OrDisjoint(n: nat, a: nat, f: nat)
    requires f < Pow2(n) && a % Pow2(n) == 0
    ensures Or(a, f) == a + f
  {
    if a != 0 && f != 0 && n > 0 {
      HalfMod(a, n);
      OrDisjoint(n - 1, a / 2, f / 2);
    }
  }

  lemma {:induction false} HalfMod(a: nat, n: nat)
    requires n > 0
    ensures a % Pow2(n) == 2 * ((a / 2) % Pow2(n - 1)) + a % 2
  {
    var p := Pow2(n - 1);
    var t, u := (a / 2) / p, (a / 2) % p;
    assert a / 2 == t * p + u;
    assert a == t * Pow2(n) + (2 * u + a % 2) by {
      assert a == 2 * (t * p + u) + a % 2;
      assert 2 * (t * p) == t * (2 * p);
    }
    ModUnique(a, Pow2(n), t, 2 * u + a % 2);
  }

  lemma ModUnique(a: int, d: int, q: int, r: int)
    requires d > 0 && a == q * d + r && 0 <= r < d
    ensures a / d == q && a % d == r
  {
    var q0 := a / d;
    assert a == q0 * d + a % d;
    if q0 < q {
      ScaleMono(d, q - q0);
    } else if q < q0 {
      ScaleMono(d, q0 - q);
    }
  }

  lemma ScaleMono(d: int, n: int)
    requires d > 0 && n >= 1
    ensures n * d >= d
  {
  }

  /** The low n bits of a word. */
  ghost function Low(w: nat, n: nat): nat {
    if n == 0 then 0 else w % 2 + 2 * Low(w / 2, n - 1)
  }

  lemma {:induction false} LowIsMod(w: nat, n: nat)
    ensures Low(w, n) == w % Pow2(n)
  {
    if n > 0 {
      LowIsMod(w / 2, n - 1);
      HalfMod(w, n);
    }
  }

  lemma {:induction false} LowMask(w: nat, n: nat)
    ensures And(w, Pow2(n) - 1) == Low(w, n)
  {
    if n > 0 {
      LowMask(w / 2, n - 1);
      AndOdd(w, Pow2(n - 1) - 1);
    }
  }

  /** 2^m - 2^n: ones from bit n up to bit m. */
  ghost function HighMask(m: nat, n: nat): nat
    requires n <= m
  {
    if n > 0 then 2 * HighMask(m - 1, n - 1) else if m > 0 then 2 * HighMask(m - 1, 0) + 1 else 0
  }

  lemma {:induction false} HighMaskIs(m: nat, n: nat)
    requires n <= m
    ensures HighMask(m, n) == Pow2(m) - Pow2(n)
  {
    if n > 0 { HighMaskIs(m - 1, n - 1); } else if m > 0 { HighMaskIs(m - 1, 0); }
  }

  lemma {:induction false} AndHighMask(m: nat, n: nat, w: nat)
    requires n <= m && w < Pow2(m)
    ensures And(w, HighMask(m, n)) == w - Low(w, n)
  {
    if n > 0 {
      AndHighMask(m - 1, n - 1, w / 2);
      AndEven(w, HighMask(m - 1, n - 1));
    } else if m > 0 {
      AndHighMask(m - 1, 0, w / 2);
      AndOdd(w, HighMask(m - 1, 0));
    }
  }

  /** `w & ~BIT64_MASK(n)` clears the low n bits. */
  lemma AndHigh(m: nat, n: nat, w: nat)
    requires n <= m && w < Pow2(m)
    ensures Pow2(m) >= Pow2(n)
    ensures And(w, Pow2(m) - Pow2(n)) == w - w % Pow2(n)
  {
    HighMaskIs(m, n);
    AndHighMask(m, n, w);
    LowIsMod(w, n);
  }

  lemma AndEven(w: nat, a: nat)
    ensures And(w, 2 * a) == 2 * And(w / 2, a)
  {
    assert 2 * a % 2 == 0 && 2 * a / 2 == a;
    if a == 0 || w == 0 {
      AndZero(w / 2, a);
    }
  }

  lemma AndZero(a: nat, b: nat)
    requires a == 0 || b == 0
    ensures And(a, b) == 0
  {
  }

  lemma AndOdd(w: nat, a: nat)
    ensures And(w, 2 * a + 1) == w % 2 + 2 * And(w / 2, a)
  {
  }

  /** `w & BIT64_MASK(n)` keeps the low n bits. */
  lemma AndLow(n: nat, w: nat)
    ensures And(w, Pow2(n) - 1) == w % Pow2(n)
  {
    LowMask(w, n);
    LowIsMod(w, n);
  }

  lemma {:induction false} OrComm(a: nat, b: nat)
    ensures Or(a, b) == Or(b, a)
  {
    if a != 0 && b != 0 { OrComm(a / 2, b / 2); }
  }

  lemma {:induction false} OrAssoc(a: nat, b: nat, c: nat)
    ensures Or(Or(a, b), c) == Or(a, Or(b, c))
  {
    if a != 0 && b != 0 && c != 0 {
      OrAssoc(a / 2, b / 2, c / 2);
      OrHalf(a, b);
      OrHalf(b, c);
      OrHalf(Or(a, b), c);
      OrHalf(a, Or(b, c));
      OrNonzero(a, b);
      OrNonzero(b, c);
    }
  }

  lemma OrHalf(a: nat, b: nat)
    ensures Or(a, b) / 2 == Or(a / 2, b / 2) && (Or(a, b) % 2 == 1 <==> a % 2 == 1 || b % 2 == 1)
  {
  }

  lemma OrNonzero(a: nat, b: nat)
    requires a != 0 && b != 0
    ensures Or(a, b) != 0
  {
    if Or(a, b) == 0 { OrZero(a, b); }
  }

  lemma {:induction false} OrZero(a: nat, b: nat)
    requires Or(a, b) == 0
    ensures a == 0 && b == 0
  {
    if a != 0 && b != 0 { OrZero(a / 2, b / 2); }
  }

  /** `w & 1`, `w & 0x80`, `w & ~0xFFF`, `page | flag`: what the kernel does to page-table words. */
  lemma PageWordOps(w: Word)
    ensures And(w, 1) == w % 2
    ensures And(w, 128) != 0 <==> (w / 128) % 2 == 1
    ensures And(w, Not(0xFFF)) == w - w % 4096
    ensures And(w, Not(0x1F_FFFF)) == w - w % 0x20_0000
  {
    Pow64();
    AndLow(1, w);
    Powers();
    AndHigh(64, 12, w);
    AndHigh(64, 21, w);
    TestBit(w, 7);
    BitSeven(w);
  }

  lemma Powers()
    ensures Pow2(1) == 2 && Pow2(7) == 128 && Pow2(9) == 512 && Pow2(12) == 4096 && Pow2(21) == 0x20_0000
  {
    PowSum(8, 4);
    PowSum(12, 9);
    assert Pow2(8) == 256 && Pow2(4) == 16 && Pow2(9) == 512;
  }

  lemma BitSeven(w: nat)
    ensures Bit(w, 7) <==> (w / 128) % 2 == 1
  {
    BitIs(w, 7);
    Powers();
  }

  lemma {:induction false} BitIs(w: nat, i: nat)
    ensures Bit(w, i) <==> (w / Pow2(i)) % 2 == 1
  {
    if i > 0 {
      BitIs(w / 2, i - 1);
      DivTwice(w, 2, Pow2(i - 1));
    }
  }

  lemma DivTwice(a: nat, b: nat, c: nat)
    requires b > 0 && c > 0
    ensures b * c > 0 && (a / b) / c == a / (b * c)
  {
    var q, r1, r2 := (a / b) / c, a % b, (a / b) % c;
    assert a == b * (a / b) + r1 && a / b == c * q + r2;
    assert a == q * (b * c) + (b * r2 + r1) by {
      assert b * (c * q + r2) == q * (b * c) + b * r2;
    }
    assert b * r2 + r1 < b * c by { ScaleMono(b, c - r2); assert b * r2 + b * (c - r2) == b * c; }
    ModUnique(a, b * c, q, b * r2 + r1);
  }

  lemma FrameOrFlag(f: Word, flag: nat)
    requires f % 4096 == 0 && flag < 4096
    ensures Or(f, flag) == f + flag
  {
    Powers();
    OrDisjoint(12, f, flag);
  }

  lemma LargeOrFlag(f: Word, flag: nat)
    requires f % 0x20_0000 == 0 && flag == 3
    ensures Or(Or(f, flag), 128) == f + flag + 128
  {
    Powers();
    OrAssoc(f, flag, 128);
    assert Or(3, 128) == 131 by {
      OrComm(3, 128);
      OrDisjoint(7, 128, 3);
    }
    OrDisjoint(21, f, 131);
  }

  lemma FlagWords()
    ensures Or(1, 2) == 3 && Or(3, 4) == 7
  {
  }

  lemma {:induction false} ShrIs(a: nat, n: nat)
    ensures Shr(a, n) == a / Pow2(n)
  {
    if n > 0 {
      ShrIs(a / 2, n - 1);
      DivTwice(a, 2, Pow2(n - 1));
    }
  }

  lemma {:induction false} ShrMore(a: nat, n: nat, k: nat)
    ensures Shr(a, n + k) == Shr(Shr(a, n), k)
  {
    if n > 0 { ShrMore(a / 2, n - 1, k); }
  }

  /** `w & 0x1FF` */
  lemma NineBits(w: nat)
    ensures And(w, 0x1FF) == w % 512
  {
    Powers();
    AndLow(9, w);
  }
}
