/** Membership in an IPv4 prefix by 32-bit masking (cidr.js), and why it is comparison of the leading bits. */
module Cidr {
  import opened Options
  import opened Bits
  import opened Patterns
  import opened Policy

  /** What the numeric conversion makes of the dotted parts of a text: nothing where a part is not an integer. */
  type Parts = seq<Option<int>>

  predicate IsOctet(part: Option<int>) {
    part.Some? && 0 <= part.value <= 255
  }

  function IpToInt(parts: Parts): (r: Option<Word>)
    ensures r.Some? <==> |parts| == 4 && forall i :: 0 <= i < |parts| ==> IsOctet(parts[i])
  {
    if |parts| != 4 || exists i :: 0 <= i < |parts| && !IsOctet(parts[i]) then None
    else Some(Quad(parts[0].value, parts[1].value, parts[2].value, parts[3].value))
  }

  /** `>>>`: the pattern read as an unsigned number. */
  function Mask(prefix: nat): Word
    requires 1 <= prefix <= 32
  {
    Pattern(ShiftLeft(0xffff_ffff, 32 - prefix))
  }

  /** The prefix is what the number after the slash parses to, if it does. */
  function IpInCidr(ip: Parts, range: Parts, prefix: Option<int>): bool {
    if prefix.None? || prefix.value < 0 || prefix.value > 32 then false
    else
      var a, r := IpToInt(ip), IpToInt(range);
      if a.None? || r.None? then false
      else if prefix.value == 0 then true
      else And(a.value, Mask(prefix.value)) == And(r.value, Mask(prefix.value))
  }

  // ---------------------------------------------------------------- the dotted form

  function PartsOf(addr: Word): Parts {
    [Some(addr / 0x100_0000), Some(addr / 0x1_0000 % 0x100), Some(addr / 0x100 % 0x100), Some(addr % 0x100)]
  }

  /** Every address is what its dotted form parses to. */
  lemma PartsInverse(addr: Word)
    ensures IpToInt(PartsOf(addr)) == Some(addr)
  {
    var p := PartsOf(addr);
    forall i | 0 <= i < |p| ensures IsOctet(p[i]) {
    }
    var a, b := addr / 0x100, addr / 0x1_0000;
    assert addr == a * 0x100 + addr % 0x100;
    assert a == b * 0x100 + a % 0x100;
    assert b == addr / 0x100_0000 * 0x100 + b % 0x100;
  }

  // ---------------------------------------------------------------- masking

  lemma {:induction false} AndOnes(a: nat, n: nat)
    requires a < Pow2(n)
    ensures AndBits(a, Pow2(n) - 1) == a
    decreases n
  {
    if n > 0 && a > 0 {
      var m := Pow2(n) - 1;
      assert m / 2 == Pow2(n - 1) - 1 && m % 2 == 1;
      AndOnes(a / 2, n - 1);
    }
  }

  lemma HalfDiv(a: nat, p: nat)
    requires p > 0
    ensures a / 2 / p == a / (2 * p)
  {
    var q, r := a / 2 / p, a / 2 % p;
    assert a == 2 * (q * p + r) + a % 2 == q * (2 * p) + (2 * r + a % 2);
    DivUnique(a, 2 * p, q, 2 * r + a % 2);
  }

  lemma AndMaskStep(a: nat, big: nat, p: nat)
    requires 0 < p <= big && AndBits(a / 2, big - p) == a / 2 / p * p
    ensures AndBits(a, 2 * (big - p)) == a / (2 * p) * (2 * p)
  {
    HalfDiv(a, p);
    AndEven(a, big - p);
    TwiceProduct(a / (2 * p), p);
  }

  /** Ones above the lowest k bits keep exactly the bits above them. */
  lemma {:induction false} AndMask(a: nat, n: nat, k: nat)
    requires a < Pow2(n) && k <= n
    ensures Pow2(k) <= Pow2(n) && AndBits(a, Pow2(n) - Pow2(k)) == a / Pow2(k) * Pow2(k)
    decreases n
  {
    if k == 0 {
      AndOnes(a, n);
    } else {
      AndMask(a / 2, n - 1, k - 1);
      AndMaskStep(a, Pow2(n - 1), Pow2(k - 1));
    }
  }

  lemma AndEven(a: nat, m: nat)
    ensures AndBits(a, 2 * m) == 2 * AndBits(a / 2, m)
  {
    assert 2 * m / 2 == m && 2 * m % 2 == 0;
  }

  lemma TwiceProduct(q: nat, h: nat)
    ensures q * (2 * h) == 2 * (q * h)
  {
  }

  lemma ProductsEqual(x: nat, y: nat, p: nat)
    requires p > 0
    ensures x * p == y * p <==> x == y
  {
    if x * p == y * p {
      assert (x - y) * p == x * p - y * p;
      MulSmall(x - y, p);
    }
  }

  lemma MaskIs(prefix: nat)
    requires 1 <= prefix <= 32
    ensures Pow2(32 - prefix) <= 0x1_0000_0000 && Mask(prefix) == 0x1_0000_0000 - Pow2(32 - prefix)
  {
    var p := Pow2(32 - prefix);
    Pow2Of32();
    AndMask(0, 32, 32 - prefix);
    assert 0xffff_ffff * p == (p - 1) * 0x1_0000_0000 + (0x1_0000_0000 - p);
    DivUnique(0xffff_ffff * p, 0x1_0000_0000, p - 1, 0x1_0000_0000 - p);
  }

  lemma MaskedBits(a: nat, b: nat, n: nat, k: nat)
    requires a < Pow2(n) && b < Pow2(n) && k <= n
    ensures Pow2(k) <= Pow2(n)
    ensures AndBits(a, Pow2(n) - Pow2(k)) == AndBits(b, Pow2(n) - Pow2(k)) <==> a / Pow2(k) == b / Pow2(k)
  {
    AndMask(a, n, k);
    AndMask(b, n, k);
    ProductsEqual(a / Pow2(k), b / Pow2(k), Pow2(k));
  }

  lemma AndOfWords(a: Word, b: Word, m: Word)
    ensures And(a, m) == And(b, m) <==> AndBits(a, m) == AndBits(b, m)
  {
    PatternIs(a);
    PatternIs(b);
    PatternIs(m);
    assert And(a, m) == Signed(AndWord(a, m)) && And(b, m) == Signed(AndWord(b, m));
  }

  /** The signed masks of two addresses agree exactly when their leading bits do. */
  lemma MaskedAlike(a: Word, b: Word, prefix: nat)
    requires 1 <= prefix <= 32
    ensures And(a, Mask(prefix)) == And(b, Mask(prefix)) <==> InPrefix(a, b, prefix)
  {
    Pow2Of32();
    MaskIs(prefix);
    MaskedBits(a, b, 32, 32 - prefix);
    AndOfWords(a, b, Mask(prefix));
  }

  /** The test answers yes exactly for well-formed operands that agree in the bits the prefix counts
      (section 3.1 of RFC 4632), the empty prefix included. */
  lemma IpInCidrIff(ip: Parts, range: Parts, prefix: Option<int>)
    ensures IpInCidr(ip, range, prefix)
            <==> prefix.Some? && 0 <= prefix.value <= 32 && IpToInt(ip).Some? && IpToInt(range).Some?
                 && InPrefix(IpToInt(ip).value, IpToInt(range).value, prefix.value)
  {
    if prefix.Some? && 0 <= prefix.value <= 32 && IpToInt(ip).Some? && IpToInt(range).Some? {
      var a, b := IpToInt(ip).value, IpToInt(range).value;
      if prefix.value == 0 {
        Pow2Of32();
        assert a / 0x1_0000_0000 == 0 && b / 0x1_0000_0000 == 0;
      } else {
        MaskedAlike(a, b, prefix.value);
      }
    }
  }
}
