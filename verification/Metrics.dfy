/** metrics.js: per-cycle counters that flushing resets, against cumulative totals that only grow. */
module Metrics {
  /** The counter names of connection-killer.js, and the others. */
  datatype Name = Attempts | Killed | Failed | Retries | ProtectedSkipped | OtherName(name: string)

  type Counters = map<Name, nat>

  function Count(c: Counters, name: Name): nat {
    if name in c then c[name] else 0
  }

  class Metrics {
    var counters: Counters
    var totals: Counters
    /** What flushing has handed out so far. */
    ghost var flushed: Name -> nat

    /** Every event is in exactly one flush or still waiting for the next. */
    ghost predicate Valid()
      reads this
    {
      forall n :: Count(totals, n) == flushed(n) + Count(counters, n)
    }

    constructor ()
      ensures Valid() && counters == map[] && totals == map[]
    {
      counters, totals, flushed := map[], map[], n => 0;
    }

    method Inc(name: Name, amount: nat := 1)
      requires Valid()
      modifies this
      ensures Valid() && flushed == old(flushed)
      ensures counters == old(counters)[name := Count(old(counters), name) + amount]
      ensures totals == old(totals)[name := Count(old(totals), name) + amount]
    {
      counters := counters[name := Count(counters, name) + amount];
      totals := totals[name := Count(totals, name) + amount];
    }

    method Flush() returns (snapshot: Counters)
      requires Valid()
      modifies this
      ensures Valid() && snapshot == old(counters) && counters == map[] && totals == old(totals)
      ensures forall n :: flushed(n) == old(flushed)(n) + Count(snapshot, n)
    {
      snapshot := counters;
      counters := map[];
      ghost var before := flushed;
      flushed := n => before(n) + Count(snapshot, n);
    }
  }
}
