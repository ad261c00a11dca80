/** Facts about strings that several modules need: unique splitting at a separator, and decimal numerals. */
module Text {
  predicate Lacks(s: string, c: char) {
    forall i :: 0 <= i < |s| ==> s[i] != c
  }

  /** The length of the text before the first `c`. */
  function Before(s: string, c: char): (n: nat)
    ensures n <= |s|
    ensures n == |s| <==> Lacks(s, c)
    ensures n < |s| ==> s[n] == c
    ensures Lacks(s[..n], c)
  {
    if s == "" then 0 else if s[0] == c then 0 else 1 + Before(s[1..], c)
  }

  lemma {:induction false} BeforeSeparator(a: string, c: char, x: string)
    requires Lacks(a, c)
    ensures Before(a + [c] + x, c) == |a|
  {
    if a != "" {
      assert (a + [c] + x)[1..] == a[1..] + [c] + x;
      BeforeSeparator(a[1..], c, x);
    }
  }

  /** A text splits at its first separator in one way only. */
  lemma SplitUnique(a: string, x: string, b: string, y: string, c: char)
    requires Lacks(a, c) && Lacks(b, c) && a + [c] + x == b + [c] + y
    ensures a == b && x == y
  {
    BeforeSeparator(a, c, x);
    BeforeSeparator(b, c, y);
    var s := a + [c] + x;
    assert s[..|a|] == a && s[..|b|] == b;
    assert s[|a| + 1..] == x && s[|b| + 1..] == y;
  }

  lemma HasSeparator(a: string, c: char, x: string)
    ensures !Lacks(a + [c] + x, c)
  {
    assert (a + [c] + x)[|a|] == c;
  }

  lemma LacksConcat(a: string, b: string, c: char)
    ensures Lacks(a + b, c) <==> Lacks(a, c) && Lacks(b, c)
  {
    if Lacks(a + b, c) {
      forall i | 0 <= i < |a| ensures a[i] != c { assert (a + b)[i] == a[i]; }
      forall i | 0 <= i < |b| ensures b[i] != c { assert (a + b)[|a| + i] == b[i]; }
    }
  }

  // ---------------------------------------------------------------- pieces

  /** The pieces between separators. */
  function Pieces(s: string, c: char): (r: seq<string>)
    ensures r != []
    decreases |s|
  {
    var n := Before(s, c);
    if n == |s| then [s] else [s[..n]] + Pieces(s[n + 1..], c)
  }

  lemma PiecesFirst(a: string, c: char, rest: string)
    requires Lacks(a, c)
    ensures Pieces(a + [c] + rest, c) == [a] + Pieces(rest, c)
  {
    var s := a + [c] + rest;
    BeforeSeparator(a, c, rest);
    assert s[..|a|] == a && s[|a| + 1..] == rest;
  }

  /** The pieces with a separator between each two. */
  function Glue(ps: seq<string>, c: char): string
    requires ps != []
  {
    if |ps| == 1 then ps[0] else ps[0] + [c] + Glue(ps[1..], c)
  }

  lemma {:induction false} PiecesOfGlue(ps: seq<string>, c: char)
    requires ps != [] && forall p :: p in ps ==> Lacks(p, c)
    ensures Pieces(Glue(ps, c), c) == ps
  {
    assert ps[0] in ps;
    if |ps| == 1 {
      assert ps == [ps[0]];
    } else {
      PiecesFirst(ps[0], c, Glue(ps[1..], c));
      PiecesOfGlue(ps[1..], c);
      assert ps == [ps[0]] + ps[1..];
    }
  }

  lemma GlueTwo(a: string, rest: seq<string>, c: char)
    requires rest != []
    ensures Glue([a] + rest, c) == a + [c] + Glue(rest, c)
  {
    assert ([a] + rest)[1..] == rest;
  }

  // ---------------------------------------------------------------- numerals

  function Digit(d: nat): (c: char)
    requires d < 10
    ensures '0' <= c <= '9'
  {
    '0' + d as char
  }

  function Decimal(n: nat): (s: string)
    ensures s != "" && forall i :: 0 <= i < |s| ==> '0' <= s[i] <= '9'
  {
    if n < 10 then [Digit(n)] else Decimal(n / 10) + [Digit(n % 10)]
  }

  function Value(s: string): int {
    if s == "" then 0 else Value(s[..|s| - 1]) * 10 + (s[|s| - 1] as int - '0' as int)
  }

  lemma {:induction false} ValueOfDecimal(n: nat)
    ensures Value(Decimal(n)) == n
  {
    var s := Decimal(n);
    if n < 10 {
      assert s[..0] == "";
    } else {
      ValueOfDecimal(n / 10);
      assert s[..|s| - 1] == Decimal(n / 10);
    }
  }

  lemma DecimalInjective(m: nat, n: nat)
    requires Decimal(m) == Decimal(n)
    ensures m == n
  {
    ValueOfDecimal(m);
    ValueOfDecimal(n);
  }
}
