/** What a shaping cycle leaves under any pattern of failing calls, as long as its first two stages complete: the
    filters of this cycle, and those of an earlier one only where clearing them failed. */
module QosFailures {
  import opened Options
  import opened Policy
  import opened Tc
  import opened QosScript
  import opened QosMeaning
  import opened QosClassify

  // ---------------------------------------------------------------- setting up

  /** The calls the set-up of one interface makes. */
  function SetupCalls(cfg: Config): nat {
    if cfg.enableIpv6 then 6 else 5
  }

  /** The number of the call that clears the IPv4 filters of an interface. */
  function ClearCall(cfg: Config, ifaces: seq<string>, iface: string, clock: nat): nat
    requires iface in ifaces
  {
    if ifaces[0] == iface then clock + 4 else ClearCall(cfg, ifaces[1..], iface, clock + SetupCalls(cfg))
  }

  function OldFilters(root: Root): seq<Filter> {
    if root.Htb? then root.v4 else []
  }

  /** The filters of the state before that clearing leaves on an interface: all of them if its call fails. */
  function Leftover(links: Links, cfg: Config, iface: string, clock: nat, faults: set<nat>): seq<Filter>
    requires iface in AllInterfaces(cfg)
  {
    if ClearCall(cfg, AllInterfaces(cfg), iface, clock) in faults then OldFilters(RootOf(links, iface)) else []
  }

  predicate HasBase(cfg: Config, root: Root) {
    root.Htb? && forall c :: c in BaseClasses(cfg) ==> c in root.classes && root.classes[c] == BaseClasses(cfg)[c]
  }

  /** A command that must succeed does, in a script that completes. */
  lemma MustHeld(links: Links, cmd: Command, rest: seq<Step>, clock: nat, faults: set<nat>)
    ensures var o := RunSteps(links, [Must(cmd)] + rest, clock, faults);
            var result := Exec(cmd, RootOf(links, cmd.iface));
            o.ok ==> clock !in faults && result.Some? && o == RunSteps(links[cmd.iface := result.value], rest, clock + 1, faults)
  {
    RunStepsCons(links, Must(cmd), rest, clock, faults);
  }

  lemma ClearLeaves(links: Links, cfg: Config, iface: string, clock: nat, faults: set<nat>)
    requires RootOf(links, iface).Htb?
    ensures var o := RunSteps(links, ClearSteps(cfg, iface), clock, faults);
            var r, s := RootOf(links, iface), RootOf(o.links, iface);
            && o.ok && o.clock == clock + SetupCalls(cfg) - 4 && OnlyOn(links, o.links, iface)
            && s.Htb? && s.classes == r.classes && s.v4 == if clock in faults then r.v4 else []
  {
    var a, b := Try(DelFilters(iface, false)), Try(DelFilters(iface, true));
    var rest := if cfg.enableIpv6 then [b] else [];
    RunStepsCons(links, a, rest, clock, faults);
    assert [b] == [b] + [];
    RunStepsCons(RunStep(links, a, clock, faults).links, b, [], clock + 1, faults);
  }

  /** The four commands of the tree. */
  function TreeCommands(cfg: Config, iface: string): seq<Command> {
    var base := BaseClasses(cfg);
    [ReplaceQdisc(iface), ReplaceClass(iface, ROOT_CLASS, base[ROOT_CLASS]),
     ReplaceClass(iface, THROTTLE_CLASS, base[THROTTLE_CLASS]), ReplaceClass(iface, DEFAULT_CLASS, base[DEFAULT_CLASS])]
  }

  /** What the four commands make of the root of their interface, one after the other. */
  lemma TreeRoots(cfg: Config, iface: string, root: Root) returns (roots: seq<Root>)
    ensures var c := TreeCommands(cfg, iface);
            && |roots| == 4 && Exec(c[0], root) == Some(roots[0])
            && Exec(c[1], roots[0]) == Some(roots[1]) && Exec(c[2], roots[1]) == Some(roots[2]) && Exec(c[3], roots[2]) == Some(roots[3])
            && HasBase(cfg, roots[3]) && roots[3].v4 == OldFilters(root)
  {
    var base := BaseClasses(cfg);
    var r0 := if root.Htb? then root else Htb(map[], [], []);
    var r1 := r0.(classes := r0.classes[ROOT_CLASS := base[ROOT_CLASS]]);
    var r2 := r1.(classes := r1.classes[THROTTLE_CLASS := base[THROTTLE_CLASS]]);
    var r3 := r2.(classes := r2.classes[DEFAULT_CLASS := base[DEFAULT_CLASS]]);
    roots := [r0, r1, r2, r3];
  }

  /** A command the kernel would accept: its call decides. */
  lemma MustDecides(links: Links, cmd: Command, next: Root, rest: seq<Step>, clock: nat, faults: set<nat>)
    requires Exec(cmd, RootOf(links, cmd.iface)) == Some(next)
    ensures var o := RunSteps(links, [Must(cmd)] + rest, clock, faults);
            if clock in faults then !o.ok else o == RunSteps(links[cmd.iface := next], rest, clock + 1, faults)
  {
    RunStepsCons(links, Must(cmd), rest, clock, faults);
  }

  /** Four such commands on one interface. */
  lemma FourDecide(links: Links, cmds: seq<Command>, roots: seq<Root>, rest: seq<Step>, iface: string, clock: nat,
                   faults: set<nat>)
    requires |cmds| == |roots| == 4 && forall i :: 0 <= i < 4 ==> cmds[i].iface == iface
    requires Exec(cmds[0], RootOf(links, iface)) == Some(roots[0])
    requires forall i :: 0 < i < 4 ==> Exec(cmds[i], roots[i - 1]) == Some(roots[i])
    ensures var o := RunSteps(links, [Must(cmds[0])] + ([Must(cmds[1])] + ([Must(cmds[2])] + ([Must(cmds[3])] + rest))), clock, faults);
            if clock in faults || clock + 1 in faults || clock + 2 in faults || clock + 3 in faults then !o.ok
            else o == RunSteps(links[iface := roots[3]], rest, clock + 4, faults)
  {
    var l0, l1, l2 := links[iface := roots[0]], links[iface := roots[1]], links[iface := roots[2]];
    MustDecides(links, cmds[0], roots[0], [Must(cmds[1])] + ([Must(cmds[2])] + ([Must(cmds[3])] + rest)), clock, faults);
    MustDecides(l0, cmds[1], roots[1], [Must(cmds[2])] + ([Must(cmds[3])] + rest), clock + 1, faults);
    assert l0[iface := roots[1]] == l1;
    MustDecides(l1, cmds[2], roots[2], [Must(cmds[3])] + rest, clock + 2, faults);
    assert l1[iface := roots[2]] == l2;
    MustDecides(l2, cmds[3], roots[3], rest, clock + 3, faults);
    assert l2[iface := roots[3]] == links[iface := roots[3]];
  }

  /** Setting an interface up fails exactly when one of the four commands of its tree does: a refused clearing call
      is passed over, and the old filters are still there. */
  lemma SetupLeaves(links: Links, cfg: Config, iface: string, clock: nat, faults: set<nat>)
    ensures var o := RunSteps(links, SetupSteps(cfg, iface), clock, faults);
            var s := RootOf(o.links, iface);
            && (o.ok <==> clock !in faults && clock + 1 !in faults && clock + 2 !in faults && clock + 3 !in faults)
            && (o.ok ==>
                  && o.clock == clock + SetupCalls(cfg) && OnlyOn(links, o.links, iface) && HasBase(cfg, s)
                  && s.v4 == if clock + 4 in faults then OldFilters(RootOf(links, iface)) else [])
  {
    var c, clear := TreeCommands(cfg, iface), ClearSteps(cfg, iface);
    assert SetupSteps(cfg, iface) == [Must(c[0])] + ([Must(c[1])] + ([Must(c[2])] + ([Must(c[3])] + clear)));
    var roots := TreeRoots(cfg, iface, RootOf(links, iface));
    FourDecide(links, c, roots, clear, iface, clock, faults);
    ClearLeaves(links[iface := roots[3]], cfg, iface, clock + 4, faults);
  }

  predicate NoRepeats(ifaces: seq<string>) {
    forall i, j :: 0 <= i < j < |ifaces| ==> ifaces[i] != ifaces[j]
  }

  lemma {:induction false} DistinctNoRepeats(s: seq<string>)
    ensures NoRepeats(Distinct(s))
  {
    if s != [] { DistinctNoRepeats(s[..|s| - 1]); }
  }

  lemma {:induction false} SetupAllLeaves(links: Links, cfg: Config, ifaces: seq<string>, clock: nat, faults: set<nat>,
                                          iface: string)
    requires NoRepeats(ifaces)
    ensures var o := RunSteps(links, SetupAll(cfg, ifaces), clock, faults);
            var r, s := RootOf(links, iface), RootOf(o.links, iface);
            o.ok ==>
              && (iface !in ifaces ==> s == r)
              && (iface in ifaces ==>
                    HasBase(cfg, s) && s.v4 == if ClearCall(cfg, ifaces, iface, clock) in faults then OldFilters(r) else [])
    decreases |ifaces|
  {
    if ifaces != [] {
      var first, rest := SetupSteps(cfg, ifaces[0]), SetupAll(cfg, ifaces[1..]);
      SetupLeaves(links, cfg, ifaces[0], clock, faults);
      RunStepsConcat(links, first, rest, clock, faults);
      var o := RunSteps(links, first, clock, faults);
      assert forall i :: i in ifaces <==> i == ifaces[0] || i in ifaces[1..];
      assert ifaces[0] !in ifaces[1..];
      if o.ok { SetupAllLeaves(o.links, cfg, ifaces[1..], o.clock, faults, iface); }
    }
  }

  // ---------------------------------------------------------------- the throttle stage

  lemma {:induction false} AdditionsLeave(links: Links, steps: seq<Step>, ifaces: seq<string>, clock: nat,
                                          faults: set<nat>, iface: string)
    requires Additions(steps, ifaces) && AllTrees(links, ifaces) && iface in ifaces
    ensures var o := RunSteps(links, steps, clock, faults);
            var r, s := RootOf(links, iface), RootOf(o.links, iface);
            o.ok ==> s.Htb? && s.classes == r.classes && s.v4 == r.v4 + Added(steps, iface, false)
    decreases |steps|
  {
    var r := RootOf(links, iface);
    if steps == [] {
      assert r.v4 + [] == r.v4;
    } else {
      assert steps[0] in steps && steps == [steps[0]] + steps[1..];
      MustHeld(links, steps[0].cmd, steps[1..], clock, faults);
      if RunSteps(links, steps, clock, faults).ok {
        var next := RunStep(links, steps[0], clock, faults).links;
        AdditionsLeave(next, steps[1..], ifaces, clock + 1, faults, iface);
        var f := steps[0].cmd.filter;
        assert (r.v4 + [f]) + Added(steps[1..], iface, false) == r.v4 + ([f] + Added(steps[1..], iface, false));
        assert [] + Added(steps[1..], iface, false) == Added(steps[1..], iface, false);
      }
    }
  }

  /** What the throttle stage puts on an interface. */
  function ThrottleFilters(cfg: Config, ts: seq<Target>, iface: string): seq<Filter> {
    Added(ThrottleAll(cfg, cfg.qosInterfaces, FilterThrottled(ts)), iface, false)
  }

  /** Whenever the first two stages complete, whatever clearing calls failed in them, every interface has its tree
      with the fixed classes, and on it the filters clearing left followed by those of the throttled devices. */
  lemma FixedLeaves(links: Links, cfg: Config, ts: seq<Target>, iface: string, clock: nat, faults: set<nat>)
    requires iface in AllInterfaces(cfg)
    ensures var o := RunSteps(links, FixedSteps(cfg, ts), clock, faults);
            var s := RootOf(o.links, iface);
            o.ok ==>
              && Ready(s) && HasBase(cfg, s)
              && s.v4 == Leftover(links, cfg, iface, clock, faults) + ThrottleFilters(cfg, ts, iface)
  {
    var all := AllInterfaces(cfg);
    var throttle := ThrottleAll(cfg, cfg.qosInterfaces, FilterThrottled(ts));
    RunStepsConcat(links, SetupAll(cfg, all), throttle, clock, faults);
    var o := RunSteps(links, SetupAll(cfg, all), clock, faults);
    DistinctNoRepeats(cfg.qosInterfaces + DownloadInterfaces(cfg) + UploadInterfaces(cfg));
    SetupAllLeaves(links, cfg, all, clock, faults, iface);
    if o.ok {
      forall i | i in all ensures RootOf(o.links, i).Htb? {
        SetupAllLeaves(links, cfg, all, clock, faults, i);
      }
      ThrottleAdditions(cfg, cfg.qosInterfaces, FilterThrottled(ts));
      forall i | i in cfg.qosInterfaces ensures i in all {
        InterfacesCovered(cfg, i);
      }
      AdditionsLeave(o.links, throttle, all, o.clock, faults, iface);
    }
  }

  // ---------------------------------------------------------------- the bandwidth stage

  predicate AskedFor(f: Filter, es: seq<Entry>) {
    exists e :: e in es && f in e.filters
  }

  /** The tree is gone, or it kept its filters and gained some of those asked for. */
  predicate Grown(r: Root, s: Root, es: seq<Entry>) {
    s.NoQdisc? || (Ready(r) && Ready(s) && r.v4 <= s.v4 && forall k :: |r.v4| <= k < |s.v4| ==> AskedFor(s.v4[k], es))
  }

  lemma GrownTwice(a: Root, b: Root, c: Root, es: seq<Entry>)
    requires (a.NoQdisc? ==> b.NoQdisc?) && (b.NoQdisc? ==> c.NoQdisc?) && Grown(a, b, es) && Grown(b, c, es)
    ensures Grown(a, c, es)
  {
  }

  lemma GroupGrows(links: Links, e: Entry, i: string, clock: nat, faults: set<nat>, iface: string, es: seq<Entry>)
    requires e in es && (RootOf(links, iface).NoQdisc? || Ready(RootOf(links, iface)))
    ensures var o := RunStep(links, Group(e, i), clock, faults);
            var r, s := RootOf(links, iface), RootOf(o.links, iface);
            o.ok && Grown(r, s, es) && (r.NoQdisc? ==> s.NoQdisc?)
  {
    var n := GroupBody(links, e, i, clock, faults);
    GroupAllOrNothing(links, e, i, clock, faults);
    var r := RootOf(links, iface);
    if i == iface && Ready(r) {
      forall k | |r.v4| <= k < |r.v4 + e.filters[..n]| ensures AskedFor((r.v4 + e.filters[..n])[k], es) {
        assert e.filters[..n][k - |r.v4|] in e.filters;
      }
    }
  }

  lemma {:induction false} EntryGrows(links: Links, e: Entry, ifaces: seq<string>, clock: nat, faults: set<nat>,
                                      iface: string, es: seq<Entry>)
    requires e in es && (RootOf(links, iface).NoQdisc? || Ready(RootOf(links, iface)))
    ensures var o := RunSteps(links, EntrySteps(e, ifaces), clock, faults);
            var r, s := RootOf(links, iface), RootOf(o.links, iface);
            o.ok && Grown(r, s, es) && (r.NoQdisc? ==> s.NoQdisc?)
    decreases |ifaces|
  {
    if ifaces != [] {
      var g, rest := Group(e, ifaces[0]), EntrySteps(e, ifaces[1..]);
      GroupGrows(links, e, ifaces[0], clock, faults, iface, es);
      RunStepsCons(links, g, rest, clock, faults);
      var first := RunStep(links, g, clock, faults);
      EntryGrows(first.links, e, ifaces[1..], first.clock, faults, iface, es);
      var o := RunSteps(first.links, rest, first.clock, faults);
      GrownTwice(RootOf(links, iface), RootOf(first.links, iface), RootOf(o.links, iface), es);
    }
  }

  lemma {:induction false} BandwidthGrows(links: Links, todo: seq<Entry>, clock: nat, faults: set<nat>, iface: string,
                                          es: seq<Entry>)
    requires (forall e :: e in todo ==> e in es) && (RootOf(links, iface).NoQdisc? || Ready(RootOf(links, iface)))
    ensures var o := RunSteps(links, BandwidthSteps(todo), clock, faults);
            var r, s := RootOf(links, iface), RootOf(o.links, iface);
            o.ok && Grown(r, s, es) && (r.NoQdisc? ==> s.NoQdisc?)
    decreases |todo|
  {
    if todo != [] {
      var g, rest := EntrySteps(todo[0], todo[0].ifaces), BandwidthSteps(todo[1..]);
      assert todo[0] in todo;
      EntryGrows(links, todo[0], todo[0].ifaces, clock, faults, iface, es);
      RunStepsConcat(links, g, rest, clock, faults);
      var first := RunSteps(links, g, clock, faults);
      BandwidthGrows(first.links, todo[1..], first.clock, faults, iface, es);
      var o := RunSteps(first.links, rest, first.clock, faults);
      GrownTwice(RootOf(links, iface), RootOf(first.links, iface), RootOf(o.links, iface), es);
    }
  }

  // ---------------------------------------------------------------- the whole cycle

  /** What the bandwidth stage asks for. */
  function Limits(cfg: Config, resolver: Resolver, ts: seq<Target>): seq<Entry> {
    if cfg.enableBandwidthControl then Entries(cfg, resolver, ts) else []
  }

  /** The filters a cycle puts on an interface before its bandwidth stage. */
  function Base(links: Links, cfg: Config, ts: seq<Target>, iface: string, clock: nat, faults: set<nat>): seq<Filter>
    requires iface in AllInterfaces(cfg)
  {
    Leftover(links, cfg, iface, clock, faults) + ThrottleFilters(cfg, ts, iface)
  }

  /** A cycle whose first two stages complete completes; whatever else fails, an interface then has no tree, or it has
      what clearing left, the throttle filters, and filters of the limits of this cycle. */
  lemma CycleLeaves(links: Links, cfg: Config, resolver: Resolver, ts: seq<Target>, iface: string, clock: nat,
                    faults: set<nat>)
    requires Shapes(cfg) && iface in AllInterfaces(cfg)
    ensures var o := RunSteps(links, Script(cfg, resolver, ts), clock, faults);
            var s, base := RootOf(o.links, iface), Base(links, cfg, ts, iface, clock, faults);
            && o.ok == RunSteps(links, FixedSteps(cfg, ts), clock, faults).ok
            && (o.ok ==>
                  || s.NoQdisc?
                  || (Ready(s) && base <= s.v4
                      && forall k :: |base| <= k < |s.v4| ==> AskedFor(s.v4[k], Limits(cfg, resolver, ts))))
  {
    var es := Limits(cfg, resolver, ts);
    RunStepsConcat(links, FixedSteps(cfg, ts), LimitSteps(cfg, resolver, ts), clock, faults);
    FixedLeaves(links, cfg, ts, iface, clock, faults);
    var o := RunSteps(links, FixedSteps(cfg, ts), clock, faults);
    if o.ok {
      BandwidthGrows(o.links, es, o.clock, faults, iface, es);
      assert BandwidthSteps(es) == LimitSteps(cfg, resolver, ts);
    }
  }

  /** All or nothing over the whole cycle: once its first two stages complete, and as long as removing a tree works
      when it is tried, each interface ends with every filter of this cycle on it, or with no tree, the latter exactly
      when a call for one of its limits failed. */
  lemma CycleAllOrNothing(links: Links, cfg: Config, resolver: Resolver, ts: seq<Target>, iface: string, clock: nat,
                          faults: set<nat>)
    requires Shapes(cfg) && iface in AllInterfaces(cfg)
    requires var o := RunSteps(links, FixedSteps(cfg, ts), clock, faults);
             o.ok && DeletionsHold(o.links, LimitSteps(cfg, resolver, ts), o.clock, faults)
    ensures var mid := RunSteps(links, FixedSteps(cfg, ts), clock, faults);
            var o := RunSteps(links, Script(cfg, resolver, ts), clock, faults);
            var s := RootOf(o.links, iface);
            && o.ok
            && if FailedOn(mid.links, LimitSteps(cfg, resolver, ts), mid.clock, faults, iface) then s.NoQdisc?
               else Ready(s) && s.v4 == Base(links, cfg, ts, iface, clock, faults) + Requested(Limits(cfg, resolver, ts), iface)
  {
    var es := Limits(cfg, resolver, ts);
    RunStepsConcat(links, FixedSteps(cfg, ts), LimitSteps(cfg, resolver, ts), clock, faults);
    FixedLeaves(links, cfg, ts, iface, clock, faults);
    var mid := RunSteps(links, FixedSteps(cfg, ts), clock, faults);
    assert BandwidthSteps(es) == LimitSteps(cfg, resolver, ts);
    BandwidthAllOrNothing(mid.links, es, mid.clock, faults, iface);
  }
}
