/** What the shaping cycle leaves: each interface is shaped in full or not at all, and a fully shaped interface puts
    every packet into the class its policy names. */
module QosMeaning {
  import opened Tc
  import opened QosScript

  // ---------------------------------------------------------------- all or nothing

  /** A tree limits can be hung into. */
  predicate Ready(root: Root) {
    root.Htb? && ROOT_CLASS in root.classes
  }

  function Times(ifaces: seq<string>, iface: string, filters: seq<Filter>): seq<Filter> {
    if ifaces == [] then []
    else (if ifaces[0] == iface then filters else []) + Times(ifaces[1..], iface, filters)
  }

  /** Every bandwidth filter asked for on an interface, in order. */
  function Requested(es: seq<Entry>, iface: string): seq<Filter> {
    if es == [] then [] else Times(es[0].ifaces, iface, es[0].filters) + Requested(es[1..], iface)
  }

  /** At most the root of one interface changed. */
  predicate OnlyOn(before: Links, after: Links, iface: string) {
    after == before || after == before[iface := RootOf(after, iface)]
  }

  /** A filter for a tree gets there unless its call is made to fail. */
  lemma FilterAdded(links: Links, iface: string, f: Filter, clock: nat, faults: set<nat>)
    requires RootOf(links, iface).Htb?
    ensures var o := RunCommand(links, AddFilter(iface, false, f), clock, faults);
            var r, s := RootOf(links, iface), RootOf(o.links, iface);
            && o.clock == clock + 1 && (o.ok <==> clock !in faults) && (!o.ok ==> o.links == links)
            && s.Htb? && s.classes == r.classes && s.v6 == r.v6 && s.v4 == (if o.ok then r.v4 + [f] else r.v4)
            && OnlyOn(links, o.links, iface)
  {
  }

  /** Adding filters to a tree: `n` of them get there. */
  lemma {:induction false} FilterBody(links: Links, iface: string, filters: seq<Filter>, clock: nat,
                                      faults: set<nat>) returns (n: nat)
    requires RootOf(links, iface).Htb?
    ensures var o := RunBody(links, FilterCommands(iface, filters), clock, faults);
            var r, s := RootOf(links, iface), RootOf(o.links, iface);
            && n <= |filters| && (o.ok <==> n == |filters|)
            && s.Htb? && s.classes == r.classes && s.v6 == r.v6 && s.v4 == r.v4 + filters[..n]
            && OnlyOn(links, o.links, iface)
            && (o.ok || exists k :: clock <= k < clock + |filters| && k in faults)
    decreases |filters|
  {
    var cmds := FilterCommands(iface, filters);
    var r := RootOf(links, iface);
    n := 0;
    if filters != [] {
      var first := RunCommand(links, cmds[0], clock, faults);
      FilterAdded(links, iface, filters[0], clock, faults);
      assert cmds[1..] == FilterCommands(iface, filters[1..]);
      if first.ok {
        var m := FilterBody(first.links, iface, filters[1..], first.clock, faults);
        n := m + 1;
        assert (r.v4 + [filters[0]]) + filters[1..][..m] == r.v4 + filters[..n];
      }
    }
    if n == 0 {
      assert r.v4 + filters[..0] == r.v4;
    }
  }

  /** The body of a group: on a ready interface `n` of its filters get there; without a tree it fails at once. */
  lemma GroupBody(links: Links, e: Entry, iface: string, clock: nat, faults: set<nat>) returns (n: nat)
    ensures var o := RunBody(links, Group(e, iface).body, clock, faults);
            var r, s := RootOf(links, iface), RootOf(o.links, iface);
            && (!r.Htb? ==> !o.ok && o.links == links)
            && (Ready(r) ==>
                  && n <= |e.filters| && (o.ok ==> n == |e.filters|) && (!o.ok && e.filters != [] ==> n < |e.filters|)
                  && Ready(s) && s.v6 == r.v6 && s.v4 == r.v4 + e.filters[..n]
                  && (o.ok ==> s.classes == r.classes[e.minor := EntryClass(e)])
                  && (o.ok || exists k :: clock <= k <= clock + |e.filters| && k in faults))
    ensures var o := RunBody(links, Group(e, iface).body, clock, faults); OnlyOn(links, o.links, iface)
  {
    var cls := ReplaceClass(iface, e.minor, EntryClass(e));
    var body := Group(e, iface).body;
    assert body[0] == cls && body[1..] == FilterCommands(iface, e.filters);
    var first := RunCommand(links, cls, clock, faults);
    n := 0;
    if first.ok {
      n := FilterBody(first.links, iface, e.filters, first.clock, faults);
    } else if Ready(RootOf(links, iface)) {
      assert RootOf(links, iface).v4 == RootOf(links, iface).v4 + e.filters[..0];
    }
  }

  /** No removal of a tree was itself made to fail. */
  predicate DeletionsHold(links: Links, steps: seq<Step>, clock: nat, faults: set<nat>)
    decreases |steps|
  {
    steps == [] ||
    (var first := RunStep(links, steps[0], clock, faults);
     && (steps[0].Guarded? ==>
           var body := RunBody(links, steps[0].body, clock, faults);
           !body.ok ==> body.clock !in faults)
     && (first.ok ==> DeletionsHold(first.links, steps[1..], first.clock, faults)))
  }

  /** The body of some guarded step of this interface failed. */
  predicate FailedOn(links: Links, steps: seq<Step>, clock: nat, faults: set<nat>, iface: string)
    decreases |steps|
  {
    steps != [] &&
    (var first := RunStep(links, steps[0], clock, faults);
     || (steps[0].Guarded? && steps[0].iface == iface && !RunBody(links, steps[0].body, clock, faults).ok)
     || (first.ok && FailedOn(first.links, steps[1..], first.clock, faults, iface)))
  }

  /** One group: the interface keeps everything and gains the group's filters, or it loses its tree; no other
      interface changes. */
  lemma GroupAllOrNothing(links: Links, e: Entry, iface: string, clock: nat, faults: set<nat>)
    ensures var body := RunBody(links, Group(e, iface).body, clock, faults);
            var o := RunStep(links, Group(e, iface), clock, faults);
            var r, s := RootOf(links, iface), RootOf(o.links, iface);
            && o.ok
            && OnlyOn(links, o.links, iface)
            && (r.NoQdisc? ==> s.NoQdisc? && !body.ok)
            && (Ready(r) && body.ok ==> Ready(s) && s.v4 == r.v4 + e.filters && s.v6 == r.v6
                                        && s.classes == r.classes[e.minor := EntryClass(e)])
            && (Ready(r) && !body.ok && body.clock !in faults ==> s.NoQdisc?)
  {
    var n := GroupBody(links, e, iface, clock, faults);
    assert e.filters[..|e.filters|] == e.filters;
  }

  /** For one group on a ready interface: it ends all or nothing exactly when its body completed, its tree could be
      removed, or it had no filter to lose. */
  lemma GroupAtomicIff(links: Links, e: Entry, iface: string, clock: nat, faults: set<nat>)
    requires Ready(RootOf(links, iface))
    ensures var body := RunBody(links, Group(e, iface).body, clock, faults);
            var r, s := RootOf(links, iface), RootOf(RunStep(links, Group(e, iface), clock, faults).links, iface);
            s.NoQdisc? || (s.Htb? && s.v4 == r.v4 + e.filters)
            <==> body.ok || body.clock !in faults || e.filters == []
  {
    var n := GroupBody(links, e, iface, clock, faults);
    var r := RootOf(links, iface);
    assert n == |e.filters| ==> e.filters[..n] == e.filters;
    assert |r.v4 + e.filters[..n]| == |r.v4| + n;
  }

  /** What a run of guarded groups makes of one interface. */
  ghost predicate Whole(links: Links, steps: seq<Step>, clock: nat, faults: set<nat>, iface: string,
                        filters: seq<Filter>) {
    var o := RunSteps(links, steps, clock, faults);
    var r, s := RootOf(links, iface), RootOf(o.links, iface);
    && o.ok
    && (r.NoQdisc? ==> s.NoQdisc?)
    && (Ready(r) ==>
          if FailedOn(links, steps, clock, faults, iface) then s.NoQdisc?
          else Ready(s) && s.v4 == r.v4 + filters && s.v6 == r.v6)
  }

  lemma WholeConcat(links: Links, a: seq<Step>, b: seq<Step>, clock: nat, faults: set<nat>, iface: string,
                    fa: seq<Filter>, fb: seq<Filter>)
    requires Whole(links, a, clock, faults, iface, fa)
    requires var o := RunSteps(links, a, clock, faults); Whole(o.links, b, o.clock, faults, iface, fb)
    ensures Whole(links, a + b, clock, faults, iface, fa + fb)
  {
    RunStepsConcat(links, a, b, clock, faults);
    FailedConcat(links, a, b, clock, faults, iface);
    var r := RootOf(links, iface);
    if Ready(r) {
      Joined(r.v4, fa, fb);
    }
  }

  lemma Joined(a: seq<Filter>, b: seq<Filter>, c: seq<Filter>)
    ensures (a + b) + c == a + (b + c)
  {
  }

  lemma {:induction false} FailedConcat(links: Links, a: seq<Step>, b: seq<Step>, clock: nat, faults: set<nat>,
                                        iface: string)
    requires RunSteps(links, a, clock, faults).ok
    ensures var o := RunSteps(links, a, clock, faults);
            FailedOn(links, a + b, clock, faults, iface)
            <==> FailedOn(links, a, clock, faults, iface) || FailedOn(o.links, b, o.clock, faults, iface)
    decreases |a|
  {
    if a == [] {
      assert a + b == b;
    } else {
      assert (a + b)[0] == a[0] && (a + b)[1..] == a[1..] + b;
      var first := RunStep(links, a[0], clock, faults);
      FailedConcat(first.links, a[1..], b, first.clock, faults, iface);
    }
  }

  lemma {:induction false} DeletionsConcat(links: Links, a: seq<Step>, b: seq<Step>, clock: nat, faults: set<nat>)
    requires DeletionsHold(links, a + b, clock, faults)
    ensures DeletionsHold(links, a, clock, faults)
    ensures var o := RunSteps(links, a, clock, faults); o.ok ==> DeletionsHold(o.links, b, o.clock, faults)
    decreases |a|
  {
    if a == [] {
      assert a + b == b;
    } else {
      assert (a + b)[0] == a[0] && (a + b)[1..] == a[1..] + b;
      var first := RunStep(links, a[0], clock, faults);
      if first.ok {
        DeletionsConcat(first.links, a[1..], b, first.clock, faults);
      }
    }
  }

  lemma GroupWhole(links: Links, e: Entry, i: string, clock: nat, faults: set<nat>, iface: string)
    requires DeletionsHold(links, [Group(e, i)], clock, faults)
    requires RootOf(links, iface).NoQdisc? || Ready(RootOf(links, iface))
    ensures Whole(links, [Group(e, i)], clock, faults, iface, if i == iface then e.filters else [])
    ensures RunSteps(links, [Group(e, i)], clock, faults) == RunStep(links, Group(e, i), clock, faults)
  {
    var g := [Group(e, i)];
    assert g[1..] == [];
    GroupAllOrNothing(links, e, i, clock, faults);
    var first := RunStep(links, g[0], clock, faults);
    assert FailedOn(links, g, clock, faults, iface) <==> i == iface && !RunBody(links, g[0].body, clock, faults).ok;
    var r := RootOf(links, iface);
    assert r.Htb? ==> r.v4 + [] == r.v4;
  }

  lemma {:induction false} EntryWhole(links: Links, e: Entry, ifaces: seq<string>, clock: nat, faults: set<nat>,
                                      iface: string)
    requires DeletionsHold(links, EntrySteps(e, ifaces), clock, faults)
    requires RootOf(links, iface).NoQdisc? || Ready(RootOf(links, iface))
    ensures Whole(links, EntrySteps(e, ifaces), clock, faults, iface, Times(ifaces, iface, e.filters))
    decreases |ifaces|
  {
    if ifaces == [] {
      assert RootOf(links, iface).Htb? ==> RootOf(links, iface).v4 + [] == RootOf(links, iface).v4;
    } else {
      var g, rest := [Group(e, ifaces[0])], EntrySteps(e, ifaces[1..]);
      DeletionsConcat(links, g, rest, clock, faults);
      GroupWhole(links, e, ifaces[0], clock, faults, iface);
      var o := RunSteps(links, g, clock, faults);
      EntryWhole(o.links, e, ifaces[1..], o.clock, faults, iface);
      WholeConcat(links, g, rest, clock, faults, iface,
                  if ifaces[0] == iface then e.filters else [], Times(ifaces[1..], iface, e.filters));
    }
  }

  /** Whatever class or filter calls of the bandwidth stage fail, an interface ends with every filter requested for
      it or with no tree at all: the latter exactly when a call for that very interface failed. */
  lemma {:induction false} BandwidthAllOrNothing(links: Links, es: seq<Entry>, clock: nat, faults: set<nat>,
                                                 iface: string)
    requires DeletionsHold(links, BandwidthSteps(es), clock, faults)
    requires RootOf(links, iface).NoQdisc? || Ready(RootOf(links, iface))
    ensures Whole(links, BandwidthSteps(es), clock, faults, iface, Requested(es, iface))
    decreases |es|
  {
    if es == [] {
      assert RootOf(links, iface).Htb? ==> RootOf(links, iface).v4 + [] == RootOf(links, iface).v4;
    } else {
      var first := EntrySteps(es[0], es[0].ifaces);
      DeletionsConcat(links, first, BandwidthSteps(es[1..]), clock, faults);
      EntryWhole(links, es[0], es[0].ifaces, clock, faults, iface);
      var o := RunSteps(links, first, clock, faults);
      BandwidthAllOrNothing(o.links, es[1..], o.clock, faults, iface);
      WholeConcat(links, first, BandwidthSteps(es[1..]), clock, faults, iface,
                  Times(es[0].ifaces, iface, es[0].filters), Requested(es[1..], iface));
    }
  }
}
