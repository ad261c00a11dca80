/** The window of recent connections to one destination and the regular-interval verdict on it (doh-detector.js). */
module DohWindow {
  import opened Options

  const MIN_OBSERVATIONS: nat := 4

  const MAX_HISTORY: nat := 8

  const MIN_INTERVAL_MS: real := 2000.0

  const MAX_INTERVAL_MS: real := 120000.0

  /** The square of the largest coefficient of variation, 0.2: without square roots the test reads
      variance <= 0.04 * mean * mean, the mean being positive. */
  const MAX_SQUARED_VARIATION: real := 0.04

  function Last<T>(list: seq<T>, n: nat): seq<T> {
    if |list| <= n then list else list[|list| - n..]
  }

  function Recorded(list: seq<int>, now: int): seq<int> {
    Last(list + [now], MAX_HISTORY)
  }

  method Record(before: seq<int>, now: int) returns (list: seq<int>)
    ensures list == Recorded(before, now)
  {
    list := before + [now];
    while |list| > MAX_HISTORY
      invariant Last(list, MAX_HISTORY) == Recorded(before, now)
    {
      list := list[1..];
    }
  }

  function RecordAll(times: seq<int>): seq<int> {
    if times == [] then [] else Recorded(RecordAll(times[..|times| - 1]), times[|times| - 1])
  }

  /** After any run of observations the window holds exactly the last eight, in order. */
  lemma {:induction false} WindowIsLast(times: seq<int>)
    ensures RecordAll(times) == Last(times, 8)
  {
    if times != [] {
      var front := times[..|times| - 1];
      WindowIsLast(front);
      assert times == front + [times[|times| - 1]];
    }
  }

  // ---------------------------------------------------------------- the verdict

  function Intervals(list: seq<int>): (r: seq<int>)
    requires list != []
    ensures |r| == |list| - 1
  {
    seq(|list| - 1, i requires 0 <= i < |list| - 1 => list[i + 1] - list[i])
  }

  function Sum(xs: seq<int>): int {
    if xs == [] then 0 else Sum(xs[..|xs| - 1]) + xs[|xs| - 1]
  }

  function SquaredErrors(xs: seq<int>, mean: real): real {
    if xs == [] then 0.0
    else
      var d := xs[|xs| - 1] as real - mean;
      SquaredErrors(xs[..|xs| - 1], mean) + d * d
  }

  function Mean(xs: seq<int>): real
    requires xs != []
  {
    Sum(xs) as real / |xs| as real
  }

  function Variance(xs: seq<int>): real
    requires xs != []
  {
    SquaredErrors(xs, Mean(xs)) / |xs| as real
  }

  predicate Regular(xs: seq<int>)
    requires xs != []
  {
    MIN_INTERVAL_MS <= Mean(xs) <= MAX_INTERVAL_MS && Variance(xs) <= MAX_SQUARED_VARIATION * (Mean(xs) * Mean(xs))
  }

  /** The mean interval of a window that looks like a metronome. */
  function Verdict(list: seq<int>): Option<real> {
    if |list| < MIN_OBSERVATIONS || !Regular(Intervals(list)) then None else Some(Mean(Intervals(list)))
  }

  method IntervalsOf(list: seq<int>) returns (intervals: seq<int>)
    requires list != []
    ensures intervals == Intervals(list)
  {
    intervals := [];
    var i := 1;
    while i < |list|
      invariant 1 <= i <= |list| && |intervals| == i - 1
      invariant forall k :: 0 <= k < i - 1 ==> intervals[k] == list[k + 1] - list[k]
    {
      intervals := intervals + [list[i] - list[i - 1]];
      i := i + 1;
    }
  }

  method SumOf(xs: seq<int>) returns (sum: int)
    ensures sum == Sum(xs)
  {
    sum := 0;
    var i := 0;
    while i < |xs|
      invariant 0 <= i <= |xs| && sum == Sum(xs[..i])
    {
      assert xs[..i + 1][..i] == xs[..i];
      sum := sum + xs[i];
      i := i + 1;
    }
    assert xs[..|xs|] == xs;
  }

  method SquaredErrorsOf(xs: seq<int>, mean: real) returns (errors: real)
    ensures errors == SquaredErrors(xs, mean)
  {
    errors := 0.0;
    var i := 0;
    while i < |xs|
      invariant 0 <= i <= |xs| && errors == SquaredErrors(xs[..i], mean)
    {
      assert xs[..i + 1][..i] == xs[..i];
      var d := xs[i] as real - mean;
      errors := errors + d * d;
      i := i + 1;
    }
    assert xs[..|xs|] == xs;
  }

  method DetectInterval(list: seq<int>) returns (mean: Option<real>)
    ensures mean == Verdict(list)
  {
    if |list| < MIN_OBSERVATIONS { return None; }
    var intervals := IntervalsOf(list);
    var sum := SumOf(intervals);
    var m := sum as real / |intervals| as real;
    if m < MIN_INTERVAL_MS || m > MAX_INTERVAL_MS { return None; }
    var errors := SquaredErrorsOf(intervals, m);
    if errors / |intervals| as real > MAX_SQUARED_VARIATION * (m * m) { return None; }
    return Some(m);
  }

  // ---------------------------------------------------------------- what the verdict depends on

  lemma {:induction false} SumTelescopes(list: seq<int>)
    requires list != []
    ensures Sum(Intervals(list)) == list[|list| - 1] - list[0]
  {
    if |list| > 1 {
      var front := list[..|list| - 1];
      SumTelescopes(front);
      assert Intervals(list)[..|list| - 2] == Intervals(front);
    }
  }

  /** Only the two ends of the window count for the mean. */
  lemma MeanTelescopes(list: seq<int>)
    requires |list| >= 2
    ensures Mean(Intervals(list)) == (list[|list| - 1] - list[0]) as real / (|list| - 1) as real
  {
    SumTelescopes(list);
  }

  function Shifted(list: seq<int>, delta: int): (r: seq<int>)
    ensures |r| == |list|
  {
    seq(|list|, i requires 0 <= i < |list| => list[i] + delta)
  }

  /** The verdict looks at distances in time only. */
  lemma ShiftInvariant(list: seq<int>, delta: int)
    ensures Verdict(Shifted(list, delta)) == Verdict(list)
  {
    if list != [] {
      assert Intervals(Shifted(list, delta)) == Intervals(list);
    }
  }

  predicate Periodic(list: seq<int>, period: int) {
    forall i :: 0 <= i < |list| - 1 ==> list[i + 1] - list[i] == period
  }

  lemma {:induction false} ConstantSums(xs: seq<int>, x: int)
    requires forall i :: 0 <= i < |xs| ==> xs[i] == x
    ensures Sum(xs) == x * |xs| && SquaredErrors(xs, x as real) == 0.0
  {
    if xs != [] {
      ConstantSums(xs[..|xs| - 1], x);
    }
  }

  lemma LastPeriodic(list: seq<int>, period: int, n: nat)
    requires Periodic(list, period)
    ensures Periodic(Last(list, n), period)
  {
    if |list| > n {
      var at := |list| - n;
      forall i | 0 <= i < n - 1 ensures list[at..][i + 1] - list[at..][i] == period {
        assert list[at + i + 1] - list[at + i] == period;
      }
    }
  }

  lemma Square(d: real)
    ensures d * d >= 0.0
  {
  }

  lemma QuotientOfProduct(x: int, n: nat)
    requires n > 0
    ensures (x * n) as real / n as real == x as real
  {
    assert (x * n) as real == x as real * n as real;
  }

  lemma PeriodicVerdict(list: seq<int>, period: int)
    requires |list| >= MIN_OBSERVATIONS && Periodic(list, period) && 2000 <= period <= 120000
    ensures Verdict(list) == Some(period as real)
  {
    var xs := Intervals(list);
    ConstantSums(xs, period);
    QuotientOfProduct(period, |xs|);
    Square(Mean(xs));
  }

  /** Any strictly periodic run of four or more connections, of any length, is flagged with its period. */
  lemma PeriodicFlagged(times: seq<int>, period: int)
    requires |times| >= MIN_OBSERVATIONS && Periodic(times, period) && 2000 <= period <= 120000
    ensures Verdict(RecordAll(times)) == Some(period as real)
  {
    WindowIsLast(times);
    LastPeriodic(times, period, MAX_HISTORY);
    PeriodicVerdict(Last(times, MAX_HISTORY), period);
  }

  /** A strictly periodic run is flagged exactly when it has four connections or more and its period lies between two
      seconds and two minutes, the bounds included. */
  lemma PeriodicFlaggedIff(times: seq<int>, period: int)
    requires Periodic(times, period)
    ensures Verdict(RecordAll(times)) == if |times| >= 4 && 2000 <= period <= 120000 then Some(period as real) else None
  {
    WindowIsLast(times);
    LastPeriodic(times, period, MAX_HISTORY);
    var list := Last(times, MAX_HISTORY);
    if |times| >= 4 {
      if 2000 <= period <= 120000 {
        PeriodicVerdict(list, period);
      } else {
        PeriodicMean(list, period);
        OutOfBounds(Intervals(list));
      }
    }
  }

  lemma PeriodicMean(list: seq<int>, period: int)
    requires |list| >= 2 && Periodic(list, period)
    ensures Mean(Intervals(list)) == period as real
  {
    ConstantSums(Intervals(list), period);
    QuotientOfProduct(period, |Intervals(list)|);
  }

  lemma OutOfBounds(xs: seq<int>)
    requires xs != [] && (Mean(xs) < 2000.0 || Mean(xs) > 120000.0)
    ensures !Regular(xs)
  {
  }

  /** Five connections whose intervals are shorter and longer by turns, by `d` around `m`. */
  function Swinging(m: int, d: int): seq<int> {
    [0, m - d, 2 * m, 3 * m - d, 4 * m]
  }

  lemma SwingingSums(m: int, d: int)
    ensures var xs := Intervals(Swinging(m, d));
            Sum(xs) == 4 * m && SquaredErrors(xs, m as real) == 4.0 * (d as real * d as real)
  {
    var xs := Intervals(Swinging(m, d));
    assert xs == [m - d, m + d, m - d, m + d];
    assert xs[..3] == [m - d, m + d, m - d] && xs[..2] == [m - d, m + d] && xs[..1] == [m - d] && xs[..0] == [];
    assert xs[..3][..2] == xs[..2] && xs[..2][..1] == xs[..1] && xs[..1][..0] == xs[..0];
    FourSums(xs, m - d, m + d, m as real);
    SameSquares(m, d);
  }

  lemma FourSums(xs: seq<int>, a: int, b: int, mean: real)
    requires xs == [a, b, a, b]
    ensures Sum(xs) == 2 * a + 2 * b
    ensures SquaredErrors(xs, mean) == Squared(a as real - mean) + Squared(b as real - mean) + Squared(a as real - mean) + Squared(b as real - mean)
  {
    assert xs[..3] == [a, b, a] && xs[..3][..2] == [a, b] && [a, b][..1] == [a] && [a][..0] == [];
    assert Sum([a]) == a && SquaredErrors([a], mean) == Squared(a as real - mean);
    assert Sum([a, b]) == a + b && SquaredErrors([a, b], mean) == Squared(a as real - mean) + Squared(b as real - mean);
    assert Sum([a, b, a]) == 2 * a + b;
    assert SquaredErrors([a, b, a], mean) == Squared(a as real - mean) + Squared(b as real - mean) + Squared(a as real - mean);
  }

  function Squared(x: real): real {
    x * x
  }

  lemma SameSquares(m: int, d: int)
    ensures Squared((m - d) as real - m as real) == d as real * d as real == Squared((m + d) as real - m as real)
  {
    assert (m - d) as real - m as real == -(d as real);
    assert (m + d) as real - m as real == d as real;
    MinusSquared(d as real);
  }

  lemma MinusSquared(x: real)
    ensures (-x) * (-x) == x * x
  {
  }

  /** The most a flagged window may vary, met exactly: swinging intervals are flagged if and only if they leave their mean
      by at most a fifth of it. */
  lemma SwingingFlaggedIff(m: int, d: nat)
    requires 2000 <= m <= 120000
    ensures Verdict(Swinging(m, d)).Some? <==> 5 * d <= m
  {
    var xs := Intervals(Swinging(m, d));
    SwingingSums(m, d);
    assert Mean(xs) == m as real;
    assert Variance(xs) == d as real * d as real;
    FifthIff(m as real, d as real);
  }

  lemma FifthIff(m: real, d: real)
    requires m > 0.0 && d >= 0.0
    ensures d * d <= 0.04 * (m * m) <==> 5.0 * d <= m
  {
    var f := 0.2 * m;
    Scaled(m);
    if d <= f {
      SquareMonotone(f, d);
    } else {
      SquareStrict(d, f);
    }
  }

  lemma Scaled(m: real)
    ensures (0.2 * m) * (0.2 * m) == 0.04 * (m * m)
  {
  }

  lemma SquareStrict(a: real, b: real)
    requires 0.0 < b < a
    ensures b * b < a * a
  {
    assert b * b < a * b < a * a;
  }

  lemma {:induction false} ErrorsBoundEach(xs: seq<int>, mean: real, i: nat)
    requires i < |xs|
    ensures (xs[i] as real - mean) * (xs[i] as real - mean) <= SquaredErrors(xs, mean)
    ensures SquaredErrors(xs, mean) >= 0.0
  {
    var front := xs[..|xs| - 1];
    Square(xs[|xs| - 1] as real - mean);
    if i < |front| {
      ErrorsBoundEach(front, mean, i);
      assert front[i] == xs[i];
    } else if front != [] {
      ErrorsBoundEach(front, mean, 0);
    }
  }

  lemma SquareMonotone(a: real, b: real)
    requires 0.0 <= b <= a
    ensures b * b <= a * a
  {
    assert b * b <= a * b <= a * a;
  }

  lemma Closer(e: real, x: real)
    requires x > 0.0 && e <= 0.28 * x
    ensures e < 0.36 * x
  {
  }

  lemma RootBound(d: real, m: real, x: real)
    requires m > 0.0 && x == m * m && d * d <= 0.28 * x
    ensures -0.6 * m < d < 0.6 * m
  {
    var k := 0.6 * m;
    assert x > 0.0;
    Closer(d * d, x);
    assert k * k == 0.36 * x;
    if d >= k {
      SquareMonotone(d, k);
    } else if d <= -k {
      assert (-d) * (-d) == d * d;
      SquareMonotone(-d, k);
    }
  }

  lemma TotalBound(errors: real, q: real, n: nat)
    requires 0 < n <= 7 && q >= 0.0 && errors / n as real <= q
    ensures errors <= 7.0 * q
  {
    var v, r := errors / n as real, n as real;
    assert errors == v * r <= q * r <= q * 7.0;
  }

  lemma RegularBounds(xs: seq<int>)
    requires xs != [] && Regular(xs)
    ensures Mean(xs) > 0.0
    ensures SquaredErrors(xs, Mean(xs)) / |xs| as real <= MAX_SQUARED_VARIATION * (Mean(xs) * Mean(xs))
  {
  }

  lemma ScaledTotal(errors: real, x: real, n: nat)
    requires 0 < n <= 7 && x >= 0.0 && errors / n as real <= MAX_SQUARED_VARIATION * x
    ensures errors <= 0.28 * x
  {
    TotalBound(errors, MAX_SQUARED_VARIATION * x, n);
  }

  lemma RegularEach(xs: seq<int>, i: nat)
    requires 0 < |xs| <= 7 && Regular(xs) && i < |xs|
    ensures 0.4 * Mean(xs) < xs[i] as real < 1.6 * Mean(xs)
  {
    var m := Mean(xs);
    var x := m * m;
    RegularBounds(xs);
    Square(m);
    ErrorsBoundEach(xs, m, i);
    ScaledTotal(SquaredErrors(xs, m), x, |xs|);
    RootBound(xs[i] as real - m, m, x);
  }

  /** A flagged window of the recorder is a metronome in the plain sense: every single interval is within
      sixty per cent of the mean, so no two connections coincide and time never runs backwards in it. */
  lemma FlaggedIsRegular(times: seq<int>, i: nat)
    requires Verdict(RecordAll(times)).Some? && i < |RecordAll(times)| - 1
    ensures var list, mean := RecordAll(times), Verdict(RecordAll(times)).value;
            0.4 * mean < (list[i + 1] - list[i]) as real < 1.6 * mean
  {
    WindowIsLast(times);
    RegularEach(Intervals(RecordAll(times)), i);
  }
}
