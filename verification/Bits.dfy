/** The bitwise operators of JavaScript on the numbers that 32-bit patterns denote. */
module Bits {
  type Word = n: nat | n < 0x1_0000_0000

  function Pow2(n: nat): (p: nat)
    ensures p > 0
  {
    if n == 0 then 1 else 2 * Pow2(n - 1)
  }

  lemma Pow2Of32()
    ensures Pow2(32) == 0x1_0000_0000
  {
    assert Pow2(8) == 0x100;
    assert Pow2(16) == 0x1_0000;
    assert Pow2(24) == 0x100_0000;
  }

  function XorBits(a: nat, b: nat): nat
    decreases a + b
  {
    if a == 0 && b == 0 then 0 else 2 * XorBits(a / 2, b / 2) + if a % 2 == b % 2 then 0 else 1
  }

  lemma {:induction false} XorBelow(a: nat, b: nat, bits: nat)
    requires a < Pow2(bits) && b < Pow2(bits)
    ensures XorBits(a, b) < Pow2(bits)
  {
    if bits > 0 {
      XorBelow(a / 2, b / 2, bits - 1);
    }
  }

  lemma {:induction false} XorCancels(a: nat, b: nat)
    ensures XorBits(XorBits(a, b), b) == a
    decreases a + b
  {
    if a != 0 || b != 0 {
      XorCancels(a / 2, b / 2);
      var x := XorBits(a, b);
      assert x / 2 == XorBits(a / 2, b / 2) && x % 2 == if a % 2 == b % 2 then 0 else 1;
    }
  }

  lemma {:induction false} XorCommutes(a: nat, b: nat)
    ensures XorBits(a, b) == XorBits(b, a)
    decreases a + b
  {
    if a != 0 || b != 0 {
      XorCommutes(a / 2, b / 2);
    }
  }

  function Xor(a: Word, b: Word): Word {
    Pow2Of32();
    XorBelow(a, b, 32);
    XorBits(a, b)
  }

  function AndBits(a: nat, b: nat): nat {
    if a == 0 || b == 0 then 0 else 2 * AndBits(a / 2, b / 2) + if a % 2 == 1 && b % 2 == 1 then 1 else 0
  }

  lemma {:induction false} AndBelow(a: nat, b: nat)
    ensures AndBits(a, b) <= a
  {
    if a != 0 && b != 0 {
      AndBelow(a / 2, b / 2);
    }
  }

  /** A 32-bit pattern read as a signed number. */
  function Signed(w: Word): int {
    if w >= 0x8000_0000 then w - 0x1_0000_0000 else w
  }

  /** The 32-bit pattern of a number. */
  function Pattern(n: int): Word {
    n % 0x1_0000_0000
  }

  lemma PatternIs(w: Word)
    ensures Pattern(w) == w
  {
  }

  function AndWord(a: Word, b: Word): Word {
    AndBelow(a, b);
    AndBits(a, b)
  }

  /** The operator `&`: both operands become 32-bit patterns and the result is signed. */
  function And(a: int, b: int): int {
    Signed(AndWord(Pattern(a), Pattern(b)))
  }

  /** The operator `<<` for shifts below 32: the result is signed. */
  function ShiftLeft(a: int, n: nat): int
    requires n < 32
  {
    Signed(Pattern(a * Pow2(n)))
  }

  // ---------------------------------------------------------------- quotients

  lemma MulMonotone(a: int, b: int, d: int)
    requires a <= b && d >= 0
    ensures a * d <= b * d
  {
  }

  lemma MulSmall(k: int, d: int)
    requires -d < k * d < d
    ensures k == 0
  {
    if k >= 1 {
      MulMonotone(1, k, d);
    } else if k <= -1 {
      MulMonotone(k, -1, d);
    }
  }

  lemma DivUnique(a: int, d: int, q: int, t: int)
    requires 0 <= t < d && a == q * d + t
    ensures a / d == q && a % d == t
  {
    var x, y := a / d, a % d;
    assert (x - q) * d == x * d - q * d == t - y;
    MulSmall(x - q, d);
  }
}
