/** mark-allocator.js: the FNV-1a hash behind the tc class ids, in the 32-bit arithmetic of the source.
    A key is its sequence of 16-bit code units. */
module MarkAllocator {
  import opened Options
  import opened Bits
  import opened Text

  const OFFSET_BASIS: Word := 2166136261
  const PRIME: nat := 16777619
  /** The inverse of the prime modulo 2^32. */
  const INVERSE: nat := 0x359C_449B

  type Unit = n: nat | n < 0x1_0000

  /** The low 32 bits of a product. */
  function Multiply(a: Word, b: nat): Word {
    Pattern(a * b)
  }

  function Step(h: Word, unit: Unit): Word {
    Multiply(Xor(h, unit), PRIME)
  }

  function Unstep(h: Word, unit: Unit): Word {
    Xor(Multiply(h, INVERSE), unit)
  }

  function Fold(h: Word, units: seq<Unit>): Word
    decreases |units|
  {
    if units == [] then h else Fold(Step(h, units[0]), units[1..])
  }

  function Abs(x: int): nat {
    if x < 0 then -x else x
  }

  /** The hash variable after the loop. Until the loop runs it holds the unsigned offset basis. */
  function Hash(units: seq<Unit>): int {
    if units == [] then OFFSET_BASIS else Signed(Fold(OFFSET_BASIS, units))
  }

  /** The id of a key lies in the requested range for every key, the smallest 32-bit hash included. */
  function StableId(units: seq<Unit>, min: nat, max: nat): (id: nat)
    requires min <= max
    ensures min <= id <= max
  {
    min + Abs(Hash(units)) % (max - min + 1)
  }

  lemma PatternOfSigned(w: Word)
    ensures Pattern(Signed(w)) == w
  {
  }

  method ComputeStableId(units: seq<Unit>, min: nat, max: nat) returns (id: nat)
    requires min <= max
    ensures id == StableId(units, min, max)
  {
    var hash: int := OFFSET_BASIS;
    ghost var w: Word := OFFSET_BASIS;
    PatternIs(OFFSET_BASIS);
    for i := 0 to |units|
      invariant Pattern(hash) == w && hash == if i == 0 then OFFSET_BASIS else Signed(w)
      invariant Fold(OFFSET_BASIS, units) == Fold(w, units[i..])
    {
      assert units[i..][1..] == units[i + 1..];
      w := Step(w, units[i]);
      hash := Signed(Multiply(Xor(Pattern(hash), units[i]), PRIME));
      PatternOfSigned(w);
    }
    id := min + Abs(hash) % (max - min + 1);
  }

  // ---------------------------------------------------------------- the hash loses nothing it need not lose

  lemma Residue(n: int, x: Word)
    ensures (n * 0x1_0000_0000 + x) % 0x1_0000_0000 == x
  {
  }

  /** Multiplying by two numbers whose product is one more than a multiple of 2^32 changes nothing. */
  lemma MultiplyTwice(x: Word, a: nat, b: nat, k: nat)
    requires a * b == k * 0x1_0000_0000 + 1
    ensures Multiply(Multiply(x, a), b) == x
  {
    var m := 0x1_0000_0000;
    var q, r := x * a / m, x * a % m;
    assert r == x * a - q * m;
    assert r * b == (x * k - q * b) * m + x by {
      assert r * b == x * (a * b) - q * b * m;
    }
    Residue(x * k - q * b, x);
  }

  lemma MultiplyInverse(x: Word)
    ensures Multiply(Multiply(x, PRIME), INVERSE) == x
    ensures Multiply(Multiply(x, INVERSE), PRIME) == x
  {
    assert PRIME * INVERSE == 3513497 * 0x1_0000_0000 + 1;
    MultiplyTwice(x, PRIME, INVERSE, 3513497);
    MultiplyTwice(x, INVERSE, PRIME, 3513497);
  }

  /** Each step is a bijection on 32-bit states. */
  lemma StepBijective(h: Word, unit: Unit)
    ensures Unstep(Step(h, unit), unit) == h
    ensures Step(Unstep(h, unit), unit) == h
  {
    MultiplyInverse(Xor(h, unit));
    XorCancels(h, unit);
    XorCancels(Multiply(h, INVERSE), unit);
    MultiplyInverse(h);
  }

  lemma StepInjective(h: Word, a: Unit, b: Unit)
    requires Step(h, a) == Step(h, b)
    ensures a == b
  {
    MultiplyInverse(Xor(h, a));
    MultiplyInverse(Xor(h, b));
    XorCommutes(h, a);
    XorCommutes(h, b);
    XorCancels(a, h);
    XorCancels(b, h);
  }

  lemma {:induction false} FoldInjective(g: Word, h: Word, units: seq<Unit>)
    requires Fold(g, units) == Fold(h, units)
    ensures g == h
    decreases |units|
  {
    if units != [] {
      FoldInjective(Step(g, units[0]), Step(h, units[0]), units[1..]);
      StepBijective(g, units[0]);
      StepBijective(h, units[0]);
    }
  }

  lemma {:induction false} FoldApart(h: Word, a: seq<Unit>, i: nat, unit: Unit)
    requires i < |a| && a[i] != unit
    ensures Fold(h, a) != Fold(h, a[i := unit])
    decreases i
  {
    var b := a[i := unit];
    if i == 0 {
      assert b[1..] == a[1..];
      if Fold(h, a) == Fold(h, b) {
        FoldInjective(Step(h, a[0]), Step(h, unit), a[1..]);
        StepInjective(h, a[0], unit);
      }
    } else {
      assert b[1..] == a[1..][i - 1 := unit];
      FoldApart(Step(h, a[0]), a[1..], i - 1, unit);
    }
  }

  lemma SignedInjective(a: Word, b: Word)
    requires Signed(a) == Signed(b)
    ensures a == b
  {
  }

  /** Keys of equal length that differ in exactly one code unit never share the hash, the signed number the source then
      reduces to the range. */
  lemma OneUnitApart(a: seq<Unit>, i: nat, unit: Unit)
    requires i < |a| && a[i] != unit
    ensures Hash(a) != Hash(a[i := unit])
  {
    FoldApart(OFFSET_BASIS, a, i, unit);
    if Hash(a) == Hash(a[i := unit]) {
      SignedInjective(Fold(OFFSET_BASIS, a), Fold(OFFSET_BASIS, a[i := unit]));
    }
  }

  // ---------------------------------------------------------------- which id it is

  lemma {:induction false} FoldLast(h: Word, units: seq<Unit>, u: Unit)
    ensures Fold(h, units + [u]) == Step(Fold(h, units), u)
    decreases |units|
  {
    if units == [] {
      assert units + [u] == [u] && [u][1..] == [];
      assert Fold(h, [u]) == Fold(Step(h, u), []);
    } else {
      assert (units + [u])[0] == units[0] && (units + [u])[1..] == units[1..] + [u];
      FoldLast(Step(h, units[0]), units[1..], u);
    }
  }

  /** The hash is 32-bit FNV-1a: from the published offset basis, each unit is xored in and the state is multiplied by the
      published prime modulo 2^32. */
  lemma HashMeans(units: seq<Unit>, u: Unit)
    ensures Pattern(Hash([])) == 0x811c_9dc5
    ensures Pattern(Hash(units + [u])) == XorBits(Pattern(Hash(units)), u) * 0x0100_0193 % 0x1_0000_0000
  {
    PatternIs(OFFSET_BASIS);
    PatternIs(Fold(OFFSET_BASIS, units));
    FoldLast(OFFSET_BASIS, units, u);
    PatternOfSigned(Fold(OFFSET_BASIS, units));
    PatternOfSigned(Fold(OFFSET_BASIS, units + [u]));
  }

  /** The id is the one number of the range that differs from `min` plus the size of the hash by a multiple of the length
      of the range. */
  lemma StableIdMeans(units: seq<Unit>, min: nat, max: nat, id: nat)
    requires min <= max
    ensures id == StableId(units, min, max)
            <==> min <= id <= max && (min + Size(Hash(units)) - id) % (max - min + 1) == 0
  {
    if min <= id <= max {
      OneResidue(Abs(Hash(units)), max - min + 1, id - min);
    }
  }

  /** The distance from zero. */
  function Size(x: int): (n: nat)
    ensures n == x || n == -x
  {
    Abs(x)
  }

  lemma OneResidue(h: nat, n: nat, r: nat)
    requires r < n
    ensures r == h % n <==> (h - r) % n == 0
  {
    var k := (h - r) / n;
    if (h - r) % n == 0 {
      assert h == k * n + r;
      DivUnique(h, n, k, r);
    }
    if r == h % n {
      assert h - r == h / n * n + 0;
      DivUnique(h - r, n, h / n, 0);
    }
  }

  // ---------------------------------------------------------------- bandwidth class ids

  datatype Direction = Download | Upload

  function Suffix(d: Direction): string {
    if d.Download? then "dl" else "ul"
  }

  function ClassKey(deviceId: string, category: Option<string>, d: Direction): string {
    if category.Some? then deviceId + ":" + (category.value + ":" + Suffix(d)) else deviceId + ":" + Suffix(d)
  }

  /** The code units of one character: a surrogate pair outside the basic plane. */
  function UnitsOf(c: char): seq<Unit> {
    var n := c as int;
    if n < 0x1_0000 then [n]
    else [0xD800 + (n - 0x1_0000) / 0x400, 0xDC00 + (n - 0x1_0000) % 0x400]
  }

  function Units(s: string): seq<Unit> {
    if s == "" then [] else UnitsOf(s[0]) + Units(s[1..])
  }

  /** The minor number of a bandwidth class. It is never that of the root, throttle or default class. */
  function BandwidthClassId(deviceId: string, category: Option<string>, d: Direction): (minor: nat)
    ensures 0x100 <= minor <= 0x7fff
  {
    StableId(Units(ClassKey(deviceId, category, d)), 0x100, 0x7fff)
  }

  /** The one minor number from 0x100 to 0x7fff that the hash of the key leads to. */
  lemma ClassIdMeans(deviceId: string, category: Option<string>, d: Direction, minor: nat)
    ensures minor == BandwidthClassId(deviceId, category, d)
            <==> && 0x100 <= minor <= 0x7fff
                 && (0x100 + Size(Hash(Units(ClassKey(deviceId, category, d)))) - minor) % 0x7f00 == 0
  {
    StableIdMeans(Units(ClassKey(deviceId, category, d)), 0x100, 0x7fff, minor);
  }

  predicate NoColon(s: string) {
    Lacks(s, ':')
  }

  lemma SuffixInjective(d: Direction, e: Direction)
    requires Suffix(d) == Suffix(e)
    ensures d == e
  {
    assert Suffix(d)[0] == Suffix(e)[0];
  }

  lemma RestHasColon(category: Option<string>, d: Direction)
    ensures var rest := if category.Some? then category.value + ":" + Suffix(d) else Suffix(d);
            NoColon(rest) <==> category.None?
  {
    if category.Some? {
      HasSeparator(category.value, ':', Suffix(d));
    }
  }

  /** Distinct limits get distinct keys as long as ids and categories hold no colon. */
  lemma ClassKeyInjective(i: string, c: Option<string>, d: Direction, j: string, e: Option<string>, f: Direction)
    requires NoColon(i) && NoColon(j) && (c.Some? ==> NoColon(c.value)) && (e.Some? ==> NoColon(e.value))
    requires ClassKey(i, c, d) == ClassKey(j, e, f)
    ensures i == j && c == e && d == f
  {
    var x := if c.Some? then c.value + ":" + Suffix(d) else Suffix(d);
    var y := if e.Some? then e.value + ":" + Suffix(f) else Suffix(f);
    assert ClassKey(i, c, d) == i + ":" + x && ClassKey(j, e, f) == j + ":" + y;
    SplitUnique(i, x, j, y, ':');
    RestHasColon(c, d);
    RestHasColon(e, f);
    if c.Some? {
      SplitUnique(c.value, Suffix(d), e.value, Suffix(f), ':');
    }
    SuffixInjective(d, f);
  }

  /** The key of a limit, taken apart at its colons: the device, the category if there is one, and the direction. */
  lemma ClassKeyReads(deviceId: string, category: Option<string>, d: Direction)
    requires NoColon(deviceId) && (category.Some? ==> NoColon(category.value))
    ensures var way := if d == Download then "dl" else "ul";
            Pieces(ClassKey(deviceId, category, d), ':')
            == if category.Some? then [deviceId, category.value, way] else [deviceId, way]
  {
    var way := Suffix(d);
    if category.Some? {
      GlueTwo(category.value, [way], ':');
      GlueTwo(deviceId, [category.value, way], ':');
      assert [category.value] + [way] == [category.value, way];
      assert [deviceId] + [category.value, way] == [deviceId, category.value, way];
      PiecesOfGlue([deviceId, category.value, way], ':');
    } else {
      GlueTwo(deviceId, [way], ':');
      assert [deviceId] + [way] == [deviceId, way];
      PiecesOfGlue([deviceId, way], ':');
    }
  }
}
