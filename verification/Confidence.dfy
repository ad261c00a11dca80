/** How the VPN detector combines independent signals into one score (vpn-detector.js), over the reals. */
module Confidence {
  /** What one more signal makes of the chance that all before it are false alarms. */
  function AfterSignal(miss: real, w: nat): real {
    miss * (1.0 - w as real / 100.0)
  }

  /** The chance that every signal is a false alarm. */
  function Miss(weights: seq<nat>): real {
    if weights == [] then 1.0 else AfterSignal(Miss(weights[..|weights| - 1]), weights[|weights| - 1])
  }

  function Score(weights: seq<nat>): int {
    if weights == [] then 0 else ((1.0 - Miss(weights)) * 100.0 + 0.5).Floor
  }

  predicate Percentages(weights: seq<nat>) {
    forall w :: w in weights ==> w <= 100
  }

  lemma Scale(a: real, b: real)
    requires 0.0 <= a && 0.0 <= b <= 1.0
    ensures 0.0 <= a * b <= a
  {
    assert a * (1.0 - b) >= 0.0;
  }

  lemma Turned(x: real, y: real)
    ensures x * y == y * x
  {
  }

  lemma SignalShrinks(miss: real, w: nat)
    requires w <= 100 && 0.0 <= miss
    ensures 0.0 <= AfterSignal(miss, w) <= miss
  {
    Scale(miss, 1.0 - w as real / 100.0);
  }

  /** What came before a signal only makes its own chance smaller. */
  lemma SignalBounds(miss: real, w: nat)
    requires w <= 100 && 0.0 <= miss <= 1.0
    ensures 0.0 <= AfterSignal(miss, w) <= 1.0 - w as real / 100.0
  {
    var c := 1.0 - w as real / 100.0;
    Scale(c, miss);
    Turned(c, miss);
    assert AfterSignal(miss, w) == miss * c;
  }

  lemma Factors(m: real, x: real, y: real)
    ensures (m * x) * y == (m * y) * x
  {
  }

  lemma SignalsSwap(miss: real, v: nat, w: nat)
    ensures AfterSignal(AfterSignal(miss, v), w) == AfterSignal(AfterSignal(miss, w), v)
  {
    Factors(miss, 1.0 - v as real / 100.0, 1.0 - w as real / 100.0);
  }

  lemma MissLast(front: seq<nat>, w: nat)
    ensures Miss(front + [w]) == AfterSignal(Miss(front), w)
  {
    assert (front + [w])[..|front|] == front;
  }

  lemma {:induction false} MissBounds(weights: seq<nat>)
    requires Percentages(weights)
    ensures 0.0 <= Miss(weights) <= 1.0
  {
    if weights != [] {
      var front, w := weights[..|weights| - 1], weights[|weights| - 1];
      assert weights == front + [w] && w in weights && forall x :: x in front ==> x in weights;
      MissBounds(front);
      SignalShrinks(Miss(front), w);
    }
  }

  lemma MissOne(w: nat)
    ensures Miss([w]) == 1.0 - w as real / 100.0
  {
    assert [w][..0] == [];
  }

  lemma MissSwap(front: seq<nat>, v: nat, w: nat)
    ensures Miss(front + [v] + [w]) == Miss(front + [w] + [v])
  {
    MissLast(front, v);
    MissLast(front, w);
    MissLast(front + [v], w);
    MissLast(front + [w], v);
    SignalsSwap(Miss(front), v, w);
  }

  lemma MissAppend(a: seq<nat>, b: seq<nat>, w: nat)
    requires Miss(a) == Miss(b)
    ensures Miss(a + [w]) == Miss(b + [w])
  {
    MissLast(a, w);
    MissLast(b, w);
  }

  /** Taking a signal out and putting it back at the end does not change the product. */
  lemma {:induction false} MissMove(a: seq<nat>, w: nat, b: seq<nat>)
    ensures Miss(a + [w] + b) == Miss(a + b + [w])
    decreases |b|
  {
    if b == [] {
      assert a + [w] + b == a + b + [w];
    } else {
      var front, v := b[..|b| - 1], b[|b| - 1];
      assert a + [w] + b == a + [w] + front + [v] && a + b == a + front + [v];
      MissMove(a, w, front);
      MissAppend(a + [w] + front, a + front + [w], v);
      MissSwap(a + front, w, v);
    }
  }

  /** The order in which the signals were found does not matter. */
  lemma {:induction false} OrderIrrelevant(a: seq<nat>, b: seq<nat>)
    requires multiset(a) == multiset(b)
    ensures Score(a) == Score(b)
  {
    MissOrder(a, b);
    assert a == [] <==> b == [] by {
      assert |multiset(a)| == |a| && |multiset(b)| == |b|;
    }
  }

  lemma {:induction false} MissOrder(a: seq<nat>, b: seq<nat>)
    requires multiset(a) == multiset(b)
    ensures Miss(a) == Miss(b)
    decreases |a|
  {
    assert |multiset(a)| == |a| && |multiset(b)| == |b|;
    if a != [] {
      var front, w := a[..|a| - 1], a[|a| - 1];
      assert a == front + [w] && w in multiset(b);
      var l, r := Without(b, w);
      Cancel(multiset(front), multiset(l + r), w);
      MissOrder(front, l + r);
      MissWith(front, l, w, r);
    }
  }

  lemma MissWith(front: seq<nat>, l: seq<nat>, w: nat, r: seq<nat>)
    requires Miss(front) == Miss(l + r)
    ensures Miss(front + [w]) == Miss(l + [w] + r)
  {
    MissMove(l, w, r);
    MissAppend(front, l + r, w);
  }

  lemma Cancel(x: multiset<nat>, y: multiset<nat>, w: nat)
    requires x + multiset{w} == y + multiset{w}
    ensures x == y
  {
    assert x == (x + multiset{w}) - multiset{w};
    assert y == (y + multiset{w}) - multiset{w};
  }

  lemma Without(b: seq<nat>, w: nat) returns (l: seq<nat>, r: seq<nat>)
    requires w in b
    ensures b == l + [w] + r && multiset(b) == multiset(l + r) + multiset{w}
  {
    var i :| 0 <= i < |b| && b[i] == w;
    l, r := b[..i], b[i + 1..];
    assert b == l + [w] + r;
  }

  lemma ScoreMonotone(a: seq<nat>, b: seq<nat>)
    requires b != [] && 0.0 <= Miss(b) <= Miss(a) <= 1.0
    ensures 0 <= Score(a) <= Score(b) <= 100
  {
    var x, y := (1.0 - Miss(a)) * 100.0 + 0.5, (1.0 - Miss(b)) * 100.0 + 0.5;
    assert 0.5 <= x <= y <= 100.5;
  }

  /** One more signal never lowers the score, and the score stays a percentage. */
  lemma MoreIsNotLess(weights: seq<nat>, w: nat)
    requires Percentages(weights) && w <= 100
    ensures 0 <= Score(weights) <= Score(weights + [w]) <= 100
  {
    MissBounds(weights);
    MissLast(weights, w);
    SignalShrinks(Miss(weights), w);
    ScoreMonotone(weights, weights + [w]);
  }

  lemma MissAtMostEach(a: seq<nat>, w: nat, b: seq<nat>)
    requires Percentages(a + b) && w <= 100
    ensures 0.0 <= Miss(a + [w] + b) <= Miss([w])
  {
    MissMove(a, w, b);
    MissBounds(a + b);
    MissLast(a + b, w);
    MissOne(w);
    SignalBounds(Miss(a + b), w);
  }

  /** Two independent signals: the chance that both are false alarms is the product of theirs, and the score is what is
      missing from it to a hundred, rounded to the nearest number. */
  lemma TwoSignals(v: nat, w: nat)
    requires v <= 100 && w <= 100
    ensures Score([v, w]) == (10050 - (100 - v) * (100 - w)) / 100
  {
    var p := (100 - v) * (100 - w);
    assert [v, w] == [v] + [w];
    MissLast([v], w);
    MissOne(v);
    HundredthsMultiply(100 - v, 100 - w);
    assert 1.0 - v as real / 100.0 == (100 - v) as real / 100.0 && 1.0 - w as real / 100.0 == (100 - w) as real / 100.0;
    assert Miss([v, w]) == p as real / 10000.0;
    FloorOf(p);
  }

  lemma HundredthsMultiply(x: int, y: int)
    ensures x as real / 100.0 * (y as real / 100.0) == (x * y) as real / 10000.0
  {
    assert (x * y) as real == x as real * y as real;
  }

  lemma FloorOf(p: int)
    ensures ((1.0 - p as real / 10000.0) * 100.0 + 0.5).Floor == (10050 - p) / 100
  {
    assert (1.0 - p as real / 10000.0) * 100.0 + 0.5 == (10050 - p) as real / 100.0;
    FloorOfQuotient(10050 - p);
  }

  lemma FloorOfQuotient(n: int)
    ensures (n as real / 100.0).Floor == n / 100
  {
    var q := n / 100;
    assert 100 * q <= n < 100 * q + 100;
    assert q as real <= n as real / 100.0 < q as real + 1.0;
  }

  lemma ScoreOne(w: nat)
    requires w <= 100
    ensures Score([w]) == w
  {
    MissOne(w);
  }

  /** A lone signal scores its own weight, and any set of signals at least that of its strongest. */
  lemma AtLeastEach(weights: seq<nat>, i: nat)
    requires Percentages(weights) && i < |weights|
    ensures weights[i] <= Score(weights)
    ensures |weights| == 1 ==> Score(weights) == weights[i]
  {
    var a, w, b := weights[..i], weights[i], weights[i + 1..];
    assert weights == a + [w] + b && w in weights;
    assert forall x :: x in a + b ==> x in weights;
    MissAtMostEach(a, w, b);
    MissOne(w);
    ScoreOne(w);
    ScoreMonotone([w], weights);
    if |weights| == 1 { assert weights == [w]; }
  }

  /** The comment in the source says the score never reaches 100 by several signals; rounded, it does as soon as the
      chance of a miss is half a per cent or less, three signals of weight 90 being one way. */
  lemma HundredIff(weights: seq<nat>)
    requires weights != [] && Percentages(weights)
    ensures Score(weights) == 100 <==> Miss(weights) <= 0.005
    ensures Score([90, 90, 90]) == 100
  {
    MissBounds(weights);
    var m := Miss([90, 90, 90]);
    assert [90, 90, 90][..2] == [90, 90] && [90, 90][..1] == [90] && [90][..0] == [];
    assert Miss([90]) == 0.1 && Miss([90, 90]) == 0.01 && m == 0.001;
  }
}
