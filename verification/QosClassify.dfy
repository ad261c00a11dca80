/** What a shaping cycle in which nothing fails makes of packets: the compiled filters refine the policy. */
module QosClassify {
  import opened Options
  import opened Patterns
  import opened Policy
  import opened MarkAllocator
  import opened Tc
  import opened QosScript
  import opened QosMeaning

  // ---------------------------------------------------------------- the policy's own words

  /** Whether a throttled device's address is an end of the packet. */
  predicate IsThrottled(ts: seq<Target>, p: Packet) {
    exists t :: t in ts && t.action.Throttle? && (AddressOf(t, p.ipv6) == Some(p.src) || AddressOf(t, p.ipv6) == Some(p.dst))
  }

  /** The interface traffic of a direction is shaped on: towards the devices on the LAN side, away from them on the WAN
      side, and on every shaped interface where that side is not configured. */
  predicate Carries(cfg: Config, d: Direction, iface: string) {
    if d.Download? then if cfg.lanInterface.Some? then iface == cfg.lanInterface.value else iface in cfg.qosInterfaces
    else if cfg.wanInterface.Some? then iface == cfg.wanInterface.value else iface in cfg.qosInterfaces
  }

  /** A limit's rate in a direction; zero is none. */
  function RateOf(limit: Limit, d: Direction): nat {
    match d
    case Download => limit.downloadKbps
    case Upload => limit.uploadKbps
  }

  /** Whether one direction of a limit of the device at `addr` speaks of this packet on this interface. */
  predicate Applies(cfg: Config, resolver: Resolver, addr: nat, limit: Limit, d: Direction, iface: string, p: Packet) {
    var near, far := if d.Download? then p.dst else p.src, if d.Download? then p.src else p.dst;
    && RateOf(limit, d) != 0
    && Carries(cfg, d, iface)
    && near == addr
    && (limit.category.Some? ==> limit.category.value in resolver && far in resolver[limit.category.value])
  }

  /** The class of the first of a device's limits that applies. */
  function LimitClass(cfg: Config, resolver: Resolver, deviceId: string, addr: nat, limits: seq<Limit>,
                      iface: string, p: Packet): Option<nat> {
    if limits == [] then None
    else if Applies(cfg, resolver, addr, limits[0], Download, iface, p) then
      Some(BandwidthClassId(deviceId, limits[0].category, Download))
    else if Applies(cfg, resolver, addr, limits[0], Upload, iface, p) then
      Some(BandwidthClassId(deviceId, limits[0].category, Upload))
    else LimitClass(cfg, resolver, deviceId, addr, limits[1..], iface, p)
  }

  /** The class of the first limit that applies, in target and limit order. */
  function FirstLimitClass(cfg: Config, resolver: Resolver, ts: seq<Target>, iface: string, p: Packet): Option<nat> {
    if ts == [] then None
    else
      var mine := if ts[0].ipAddress.None? then None
                  else LimitClass(cfg, resolver, ts[0].deviceId, ts[0].ipAddress.value, ts[0].bandwidthLimits, iface, p);
      if mine.Some? then mine else FirstLimitClass(cfg, resolver, ts[1..], iface, p)
  }

  /** The class the policy wants a packet in. */
  function WantedClass(cfg: Config, resolver: Resolver, ts: seq<Target>, iface: string, p: Packet): nat {
    if iface in cfg.qosInterfaces && IsThrottled(ts, p) then THROTTLE_CLASS
    else if p.ipv6 || !cfg.enableBandwidthControl then DEFAULT_CLASS
    else
      var limit := FirstLimitClass(cfg, resolver, ts, iface, p);
      if limit.Some? then limit.value else DEFAULT_CLASS
  }

  // ---------------------------------------------------------------- quiet runs

  /** One command that must succeed and does. */
  lemma QuietMust(links: Links, cmd: Command, rest: seq<Step>, clock: nat)
    requires Exec(cmd, RootOf(links, cmd.iface)).Some?
    ensures RunSteps(links, [Must(cmd)] + rest, clock, {})
            == RunSteps(links[cmd.iface := Exec(cmd, RootOf(links, cmd.iface)).value], rest, clock + 1, {})
  {
    RunStepsCons(links, Must(cmd), rest, clock, {});
  }

  function BaseClasses(cfg: Config): map<nat, HtbClass> {
    map[ROOT_CLASS := HtbClass(0, Configured(cfg.qosDefaultRate), None),
        THROTTLE_CLASS := HtbClass(ROOT_CLASS, Configured(cfg.qosRate), Some(Configured(cfg.qosRate))),
        DEFAULT_CLASS := HtbClass(ROOT_CLASS, Configured(cfg.qosDefaultRate), None)]
  }

  /** The tree with its fixed classes and without filters of the shaped protocols. */
  predicate Fresh(cfg: Config, root: Root) {
    && root.Htb? && root.v4 == [] && (cfg.enableIpv6 ==> root.v6 == [])
    && forall c :: c in BaseClasses(cfg) ==> c in root.classes && root.classes[c] == BaseClasses(cfg)[c]
  }

  /** Four commands in a row on one interface that must succeed and do. */
  lemma QuietMusts(links: Links, cmds: seq<Command>, roots: seq<Root>, rest: seq<Step>, iface: string, clock: nat)
    requires |cmds| == |roots| == 4 && forall i :: 0 <= i < 4 ==> cmds[i].iface == iface
    requires Exec(cmds[0], RootOf(links, iface)) == Some(roots[0])
    requires forall i :: 0 < i < 4 ==> Exec(cmds[i], roots[i - 1]) == Some(roots[i])
    ensures RunSteps(links, [Must(cmds[0])] + ([Must(cmds[1])] + ([Must(cmds[2])] + ([Must(cmds[3])] + rest))), clock, {})
            == RunSteps(links[iface := roots[3]], rest, clock + 4, {})
  {
    var l0, l1, l2 := links[iface := roots[0]], links[iface := roots[1]], links[iface := roots[2]];
    QuietMust(links, cmds[0], [Must(cmds[1])] + ([Must(cmds[2])] + ([Must(cmds[3])] + rest)), clock);
    QuietMust(l0, cmds[1], [Must(cmds[2])] + ([Must(cmds[3])] + rest), clock + 1);
    assert l0[iface := roots[1]] == l1;
    QuietMust(l1, cmds[2], [Must(cmds[3])] + rest, clock + 2);
    assert l1[iface := roots[2]] == l2;
    QuietMust(l2, cmds[3], rest, clock + 3);
    assert l2[iface := roots[3]] == links[iface := roots[3]];
  }

  lemma SetupQuiet(links: Links, cfg: Config, iface: string, clock: nat)
    ensures var o := RunSteps(links, SetupSteps(cfg, iface), clock, {});
            o.ok && Fresh(cfg, RootOf(o.links, iface)) && OnlyOn(links, o.links, iface)
  {
    var base, cs := BaseClasses(cfg), [ROOT_CLASS, THROTTLE_CLASS, DEFAULT_CLASS];
    var cmds := [ReplaceQdisc(iface), ReplaceClass(iface, cs[0], base[cs[0]]),
                 ReplaceClass(iface, cs[1], base[cs[1]]), ReplaceClass(iface, cs[2], base[cs[2]])];
    var r0 := Exec(cmds[0], RootOf(links, iface)).value;
    var r1 := r0.(classes := r0.classes[cs[0] := base[cs[0]]]);
    var r2 := r1.(classes := r1.classes[cs[1] := base[cs[1]]]);
    var r3 := r2.(classes := r2.classes[cs[2] := base[cs[2]]]);
    var clear := ClearSteps(cfg, iface);
    assert SetupSteps(cfg, iface) == [Must(cmds[0])] + ([Must(cmds[1])] + ([Must(cmds[2])] + ([Must(cmds[3])] + clear)));
    QuietMusts(links, cmds, [r0, r1, r2, r3], clear, iface, clock);
    ClearQuiet(links[iface := r3], cfg, iface, clock + 4);
  }

  function ClearSteps(cfg: Config, iface: string): seq<Step> {
    [Try(DelFilters(iface, false))] + if cfg.enableIpv6 then [Try(DelFilters(iface, true))] else []
  }

  lemma ClearQuiet(links: Links, cfg: Config, iface: string, clock: nat)
    requires RootOf(links, iface).Htb?
    ensures var o := RunSteps(links, ClearSteps(cfg, iface), clock, {});
            var r := RootOf(links, iface);
            && o.ok && o.links == links[iface := r.(v4 := [], v6 := if cfg.enableIpv6 then [] else r.v6)]
  {
    var a, b := Try(DelFilters(iface, false)), Try(DelFilters(iface, true));
    var rest := if cfg.enableIpv6 then [b] else [];
    RunStepsCons(links, a, rest, clock, {});
    assert [b] == [b] + [];
    RunStepsCons(RunStep(links, a, clock, {}).links, b, [], clock + 1, {});
  }

  lemma {:induction false} SetupAllQuiet(links: Links, cfg: Config, ifaces: seq<string>, clock: nat, iface: string)
    ensures var o := RunSteps(links, SetupAll(cfg, ifaces), clock, {});
            && o.ok
            && (iface in ifaces || Fresh(cfg, RootOf(links, iface)) ==> Fresh(cfg, RootOf(o.links, iface)))
    decreases |ifaces|
  {
    if ifaces != [] {
      SetupQuiet(links, cfg, ifaces[0], clock);
      RunStepsConcat(links, SetupSteps(cfg, ifaces[0]), SetupAll(cfg, ifaces[1..]), clock, {});
      var o := RunSteps(links, SetupSteps(cfg, ifaces[0]), clock, {});
      SetupAllQuiet(o.links, cfg, ifaces[1..], o.clock, iface);
    }
  }

  /** The filters a list of plain additions brings to one interface and protocol. */
  function Added(steps: seq<Step>, iface: string, ipv6: bool): seq<Filter> {
    if steps == [] then [] else AddedBy(steps[0], iface, ipv6) + Added(steps[1..], iface, ipv6)
  }

  function AddedBy(step: Step, iface: string, ipv6: bool): seq<Filter> {
    if step.Must? && step.cmd.AddFilter? && step.cmd.iface == iface && step.cmd.ipv6 == ipv6 then [step.cmd.filter] else []
  }

  predicate Additions(steps: seq<Step>, ifaces: seq<string>) {
    forall s :: s in steps ==> s.Must? && s.cmd.AddFilter? && s.cmd.iface in ifaces
  }

  predicate AllTrees(links: Links, ifaces: seq<string>) {
    forall i :: i in ifaces ==> RootOf(links, i).Htb?
  }

  /** One addition to a tree: what it brings, and that no tree goes away. */
  lemma AdditionQuiet(links: Links, step: Step, clock: nat, iface: string)
    requires step.Must? && step.cmd.AddFilter? && RootOf(links, step.cmd.iface).Htb? && RootOf(links, iface).Htb?
    ensures var o := RunStep(links, step, clock, {});
            var r := RootOf(links, iface);
            && o.ok && o.clock == clock + 1
            && RootOf(o.links, iface)
               == r.(v4 := r.v4 + AddedBy(step, iface, false), v6 := r.v6 + AddedBy(step, iface, true))
            && forall i :: RootOf(links, i).Htb? ==> RootOf(o.links, i).Htb?
  {
    var r := RootOf(links, iface);
    assert r.v4 + [] == r.v4 && r.v6 + [] == r.v6;
  }

  lemma {:induction false} AdditionsQuiet(links: Links, steps: seq<Step>, ifaces: seq<string>, clock: nat, iface: string)
    requires Additions(steps, ifaces) && AllTrees(links, ifaces) && iface in ifaces
    ensures var o := RunSteps(links, steps, clock, {});
            var r, s := RootOf(links, iface), RootOf(o.links, iface);
            && o.ok && AllTrees(o.links, ifaces)
            && s == r.(v4 := r.v4 + Added(steps, iface, false), v6 := r.v6 + Added(steps, iface, true))
    decreases |steps|
  {
    var r := RootOf(links, iface);
    if steps == [] {
      assert r.v4 + [] == r.v4 && r.v6 + [] == r.v6;
    } else {
      var step, rest := steps[0], steps[1..];
      assert step in steps && steps == [step] + rest;
      AdditionQuiet(links, step, clock, iface);
      AdditionsQuiet(RunStep(links, step, clock, {}).links, rest, ifaces, clock + 1, iface);
      Joined(r.v4, AddedBy(step, iface, false), Added(rest, iface, false));
      Joined(r.v6, AddedBy(step, iface, true), Added(rest, iface, true));
    }
  }

  lemma {:induction false} AddedConcat(a: seq<Step>, b: seq<Step>, iface: string, ipv6: bool)
    ensures Added(a + b, iface, ipv6) == Added(a, iface, ipv6) + Added(b, iface, ipv6)
  {
    if a == [] {
      assert a + b == b;
    } else {
      assert (a + b)[0] == a[0] && (a + b)[1..] == a[1..] + b;
      AddedConcat(a[1..], b, iface, ipv6);
      Joined(AddedBy(a[0], iface, ipv6), Added(a[1..], iface, ipv6), Added(b, iface, ipv6));
    }
  }

  // ---------------------------------------------------------------- the throttle filters

  predicate AnyMatches(fs: seq<Filter>, p: Packet) {
    exists f :: f in fs && Matches(f, p)
  }

  predicate ToThrottle(fs: seq<Filter>) {
    forall f :: f in fs ==> f.prio <= 13 && f.flow == THROTTLE_CLASS
  }

  lemma AnyMatchesConcat(a: seq<Filter>, b: seq<Filter>, p: Packet)
    ensures AnyMatches(a + b, p) <==> AnyMatches(a, p) || AnyMatches(b, p)
  {
    if f :| f in a && Matches(f, p) { assert f in a + b; }
    if f :| f in b && Matches(f, p) { assert f in a + b; }
  }

  lemma PairAdds(iface: string, ipv6: bool, addr: nat, i: string, p: Packet)
    ensures var fs := Added(ThrottlePair(iface, ipv6, addr), i, p.ipv6);
            && ToThrottle(fs)
            && (AnyMatches(fs, p) <==> i == iface && p.ipv6 == ipv6 && (p.src == addr || p.dst == addr))
  {
    var s := ThrottlePair(iface, ipv6, addr);
    assert s[1..][1..] == [];
    assert Added(s[1..][1..], i, p.ipv6) == [];
    assert Added(s[1..], i, p.ipv6) == if i == iface && p.ipv6 == ipv6 then [s[1].cmd.filter] else [];
    var fs := Added(s, i, p.ipv6);
    if i == iface && p.ipv6 == ipv6 {
      assert fs == [s[0].cmd.filter, s[1].cmd.filter];
      assert s[0].cmd.filter in fs && s[1].cmd.filter in fs;
    }
  }

  predicate EndsAt(cfg: Config, t: Target, p: Packet) {
    var addr := AddressOf(t, p.ipv6);
    (p.ipv6 ==> cfg.enableIpv6) && (addr == Some(p.src) || addr == Some(p.dst))
  }

  lemma ThrottleStepsAdd(cfg: Config, iface: string, t: Target, i: string, p: Packet)
    ensures var fs := Added(ThrottleSteps(cfg, iface, t), i, p.ipv6);
            && ToThrottle(fs)
            && (AnyMatches(fs, p) <==> i == iface && EndsAt(cfg, t, p))
  {
    var a := if t.ipAddress.Some? then ThrottlePair(iface, false, t.ipAddress.value) else [];
    var b := if cfg.enableIpv6 && t.ipv6Address.Some? then ThrottlePair(iface, true, t.ipv6Address.value) else [];
    AddedConcat(a, b, i, p.ipv6);
    AnyMatchesConcat(Added(a, i, p.ipv6), Added(b, i, p.ipv6), p);
    if t.ipAddress.Some? { PairAdds(iface, false, t.ipAddress.value, i, p); }
    if t.ipv6Address.Some? { PairAdds(iface, true, t.ipv6Address.value, i, p); }
  }

  lemma {:induction false} ThrottleTargetsAdd(cfg: Config, iface: string, ts: seq<Target>, i: string, p: Packet)
    ensures var fs := Added(ThrottleTargets(cfg, iface, ts), i, p.ipv6);
            && ToThrottle(fs)
            && (AnyMatches(fs, p) <==> i == iface && exists t :: t in ts && EndsAt(cfg, t, p))
  {
    if ts != [] {
      ThrottleStepsAdd(cfg, iface, ts[0], i, p);
      ThrottleTargetsAdd(cfg, iface, ts[1..], i, p);
      AddedConcat(ThrottleSteps(cfg, iface, ts[0]), ThrottleTargets(cfg, iface, ts[1..]), i, p.ipv6);
      AnyMatchesConcat(Added(ThrottleSteps(cfg, iface, ts[0]), i, p.ipv6),
                       Added(ThrottleTargets(cfg, iface, ts[1..]), i, p.ipv6), p);
      assert forall t :: t in ts <==> t == ts[0] || t in ts[1..];
    }
  }

  lemma {:induction false} ThrottleAllAdd(cfg: Config, ifaces: seq<string>, ts: seq<Target>, i: string, p: Packet)
    ensures var fs := Added(ThrottleAll(cfg, ifaces, ts), i, p.ipv6);
            && ToThrottle(fs)
            && (AnyMatches(fs, p) <==> i in ifaces && exists t :: t in ts && EndsAt(cfg, t, p))
  {
    if ifaces != [] {
      ThrottleTargetsAdd(cfg, ifaces[0], ts, i, p);
      ThrottleAllAdd(cfg, ifaces[1..], ts, i, p);
      AddedConcat(ThrottleTargets(cfg, ifaces[0], ts), ThrottleAll(cfg, ifaces[1..], ts), i, p.ipv6);
      AnyMatchesConcat(Added(ThrottleTargets(cfg, ifaces[0], ts), i, p.ipv6),
                       Added(ThrottleAll(cfg, ifaces[1..], ts), i, p.ipv6), p);
    }
  }

  lemma {:induction false} FilterThrottledMembers(ts: seq<Target>, t: Target)
    ensures t in FilterThrottled(ts) <==> t in ts && Throttled(t)
  {
    if ts != [] {
      FilterThrottledMembers(ts[1..], t);
      assert t in ts <==> t == ts[0] || t in ts[1..];
    }
  }

  lemma {:induction false} ThrottleAdditions(cfg: Config, ifaces: seq<string>, ts: seq<Target>)
    ensures Additions(ThrottleAll(cfg, ifaces, ts), ifaces)
  {
    if ifaces != [] {
      ThrottleTargetsAdditions(cfg, ifaces[0], ts);
      ThrottleAdditions(cfg, ifaces[1..], ts);
    }
  }

  lemma {:induction false} ThrottleTargetsAdditions(cfg: Config, iface: string, ts: seq<Target>)
    ensures forall s :: s in ThrottleTargets(cfg, iface, ts) ==> s.Must? && s.cmd.AddFilter? && s.cmd.iface == iface
  {
    if ts != [] {
      ThrottleTargetsAdditions(cfg, iface, ts[1..]);
    }
  }

  // ---------------------------------------------------------------- the bandwidth filters

  predicate Banded(e: Entry) {
    forall f :: f in e.filters ==> f.prio == 20 && f.flow == e.minor
  }

  /** The first entry in force on the interface whose filters match. */
  function FirstEntry(es: seq<Entry>, iface: string, p: Packet): Option<nat> {
    if es == [] then None
    else if iface in es[0].ifaces && AnyMatches(es[0].filters, p) then Some(es[0].minor)
    else FirstEntry(es[1..], iface, p)
  }

  lemma {:induction false} FirstConcat(a: seq<Filter>, b: seq<Filter>, p: Packet)
    ensures First(a + b, p) == if First(a, p).Some? then First(a, p) else First(b, p)
  {
    if a == [] {
      assert a + b == b;
    } else {
      assert (a + b)[0] == a[0] && (a + b)[1..] == a[1..] + b;
      FirstConcat(a[1..], b, p);
    }
  }

  lemma {:induction false} FirstMember(fs: seq<Filter>, p: Packet)
    ensures First(fs, p).Some? <==> AnyMatches(fs, p)
    ensures First(fs, p).Some? ==> First(fs, p).value in fs
  {
    if fs != [] {
      FirstMember(fs[1..], p);
      assert fs[0] in fs && forall f :: f in fs <==> f == fs[0] || f in fs[1..];
    }
  }

  lemma {:induction false} FirstTimes(ifaces: seq<string>, iface: string, fs: seq<Filter>, p: Packet)
    ensures First(Times(ifaces, iface, fs), p) == if iface in ifaces then First(fs, p) else None
  {
    if ifaces != [] {
      FirstTimes(ifaces[1..], iface, fs, p);
      FirstConcat(if ifaces[0] == iface then fs else [], Times(ifaces[1..], iface, fs), p);
    }
  }

  lemma {:induction false} RequestedFirst(es: seq<Entry>, iface: string, p: Packet)
    requires forall e :: e in es ==> Banded(e)
    ensures First(Requested(es, iface), p).Some? <==> FirstEntry(es, iface, p).Some?
    ensures First(Requested(es, iface), p).Some? ==> First(Requested(es, iface), p).value.flow == FirstEntry(es, iface, p).value
  {
    if es != [] {
      assert es[0] in es;
      RequestedFirst(es[1..], iface, p);
      FirstConcat(Times(es[0].ifaces, iface, es[0].filters), Requested(es[1..], iface), p);
      FirstTimes(es[0].ifaces, iface, es[0].filters, p);
      FirstMember(es[0].filters, p);
    }
  }

  lemma {:induction false} TimesBand(ifaces: seq<string>, iface: string, fs: seq<Filter>)
    requires OfPrio(fs, 20, 20)
    ensures OfPrio(Times(ifaces, iface, fs), 20, 20)
  {
    if ifaces != [] {
      TimesBand(ifaces[1..], iface, fs);
    }
  }

  lemma {:induction false} RequestedBand(es: seq<Entry>, iface: string)
    requires forall e :: e in es ==> Banded(e)
    ensures OfPrio(Requested(es, iface), 20, 20)
  {
    if es != [] {
      assert es[0] in es;
      TimesBand(es[0].ifaces, iface, es[0].filters);
      RequestedBand(es[1..], iface);
    }
  }

  /** The entry of one direction of a limit matches exactly when the limit applies. */
  lemma DirectionApplies(cfg: Config, resolver: Resolver, id: string, addr: nat, limit: Limit, d: Direction,
                         iface: string, p: Packet)
    ensures var es := DirectionEntry(cfg, resolver, id, addr, limit, d);
            && (forall e :: e in es ==> Banded(e) && 0x100 <= e.minor <= 0x7fff)
            && FirstEntry(es, iface, p)
               == if Applies(cfg, resolver, addr, limit, d, iface, p) then Some(BandwidthClassId(id, limit.category, d)) else None
  {
    var rate := if d.Download? then limit.downloadKbps else limit.uploadKbps;
    if rate != 0 {
      var minor := BandwidthClassId(id, limit.category, d);
      var ips := CategoryIps(resolver, limit.category);
      DirectionMatches(minor, addr, ips, d, p);
      var es := DirectionEntry(cfg, resolver, id, addr, limit, d);
      assert es[1..] == [];
      assert FirstEntry(es[1..], iface, p) == None;
    }
  }

  lemma DirectionMatches(minor: nat, addr: nat, ips: Option<seq<nat>>, d: Direction, p: Packet)
    ensures var fs := DirectionFilters(minor, addr, ips, d);
            && (forall f :: f in fs ==> f.prio == 20 && f.flow == minor)
            && (AnyMatches(fs, p) <==>
                  && (if d.Download? then p.dst else p.src) == addr
                  && (ips.Some? ==> (if d.Download? then p.src else p.dst) in ips.value))
  {
    var fs := DirectionFilters(minor, addr, ips, d);
    var far := if d.Download? then p.src else p.dst;
    if ips.None? {
      assert fs[0] in fs;
    } else if far in ips.value {
      var k :| 0 <= k < |ips.value| && ips.value[k] == far;
      assert fs[k] in fs;
    }
  }

  lemma {:induction false} FirstEntryConcat(a: seq<Entry>, b: seq<Entry>, iface: string, p: Packet)
    ensures FirstEntry(a + b, iface, p) == if FirstEntry(a, iface, p).Some? then FirstEntry(a, iface, p) else FirstEntry(b, iface, p)
  {
    if a == [] {
      assert a + b == b;
    } else {
      assert (a + b)[0] == a[0] && (a + b)[1..] == a[1..] + b;
      FirstEntryConcat(a[1..], b, iface, p);
    }
  }

  predicate GoodEntries(es: seq<Entry>) {
    forall e :: e in es ==> Banded(e) && 0x100 <= e.minor <= 0x7fff
  }

  lemma {:induction false} LimitsApply(cfg: Config, resolver: Resolver, id: string, addr: nat, limits: seq<Limit>,
                                       iface: string, p: Packet)
    ensures GoodEntries(LimitsEntries(cfg, resolver, id, addr, limits))
    ensures FirstEntry(LimitsEntries(cfg, resolver, id, addr, limits), iface, p)
            == LimitClass(cfg, resolver, id, addr, limits, iface, p)
  {
    if limits != [] {
      var a := DirectionEntry(cfg, resolver, id, addr, limits[0], Download);
      var b := DirectionEntry(cfg, resolver, id, addr, limits[0], Upload);
      var rest := LimitsEntries(cfg, resolver, id, addr, limits[1..]);
      DirectionApplies(cfg, resolver, id, addr, limits[0], Download, iface, p);
      DirectionApplies(cfg, resolver, id, addr, limits[0], Upload, iface, p);
      LimitsApply(cfg, resolver, id, addr, limits[1..], iface, p);
      FirstEntryConcat(a + b, rest, iface, p);
      FirstEntryConcat(a, b, iface, p);
    }
  }

  lemma {:induction false} EntriesApply(cfg: Config, resolver: Resolver, ts: seq<Target>, iface: string, p: Packet)
    ensures GoodEntries(Entries(cfg, resolver, ts))
    ensures FirstEntry(Entries(cfg, resolver, ts), iface, p) == FirstLimitClass(cfg, resolver, ts, iface, p)
  {
    if ts != [] {
      var mine := if ts[0].ipAddress.Some?
                  then LimitsEntries(cfg, resolver, ts[0].deviceId, ts[0].ipAddress.value, ts[0].bandwidthLimits) else [];
      if ts[0].ipAddress.Some? {
        LimitsApply(cfg, resolver, ts[0].deviceId, ts[0].ipAddress.value, ts[0].bandwidthLimits, iface, p);
      }
      EntriesApply(cfg, resolver, ts[1..], iface, p);
      FirstEntryConcat(mine, Entries(cfg, resolver, ts[1..]), iface, p);
    }
  }

  // ---------------------------------------------------------------- the whole cycle

  lemma {:induction false} DistinctKeeps(s: seq<string>, x: string)
    ensures x in Distinct(s) <==> x in s
  {
    if s != [] {
      DistinctKeeps(s[..|s| - 1], x);
      assert s == s[..|s| - 1] + [s[|s| - 1]];
    }
  }

  lemma InterfacesCovered(cfg: Config, iface: string)
    ensures iface in AllInterfaces(cfg)
            <==> iface in cfg.qosInterfaces || iface in DownloadInterfaces(cfg) || iface in UploadInterfaces(cfg)
  {
    DistinctKeeps(cfg.qosInterfaces + DownloadInterfaces(cfg) + UploadInterfaces(cfg), iface);
  }

  /** The first two stages of a cycle in which nothing fails: a fresh tree with the throttle filters. */
  lemma FixedQuiet(links: Links, cfg: Config, ts: seq<Target>, iface: string, clock: nat)
    requires iface in AllInterfaces(cfg)
    ensures var o := RunSteps(links, FixedSteps(cfg, ts), clock, {});
            var r := RootOf(o.links, iface);
            var throttle := ThrottleAll(cfg, cfg.qosInterfaces, FilterThrottled(ts));
            && o.ok && r.Htb?
            && (forall c :: c in BaseClasses(cfg) ==> c in r.classes && r.classes[c] == BaseClasses(cfg)[c])
            && r.v4 == Added(throttle, iface, false) && (cfg.enableIpv6 ==> r.v6 == Added(throttle, iface, true))
  {
    var all := AllInterfaces(cfg);
    var throttle := ThrottleAll(cfg, cfg.qosInterfaces, FilterThrottled(ts));
    RunStepsConcat(links, SetupAll(cfg, all), throttle, clock, {});
    var o := RunSteps(links, SetupAll(cfg, all), clock, {});
    SetupAllQuiet(links, cfg, all, clock, iface);
    forall i | i in all ensures Fresh(cfg, RootOf(o.links, i)) {
      SetupAllQuiet(links, cfg, all, clock, i);
    }
    ThrottleAdditions(cfg, cfg.qosInterfaces, FilterThrottled(ts));
    forall i | i in cfg.qosInterfaces ensures i in all {
      InterfacesCovered(cfg, i);
    }
    AdditionsQuiet(o.links, throttle, all, o.clock, iface);
    assert [] + Added(throttle, iface, false) == Added(throttle, iface, false);
    assert [] + Added(throttle, iface, true) == Added(throttle, iface, true);
  }

  /** Without failing calls no tree is removed. */
  lemma {:induction false} QuietHolds(links: Links, es: seq<Entry>, clock: nat, iface: string)
    requires forall e, i :: e in es && i in e.ifaces ==> Ready(RootOf(links, i))
    ensures DeletionsHold(links, BandwidthSteps(es), clock, {})
    ensures !FailedOn(links, BandwidthSteps(es), clock, {}, iface)
    decreases |es|
  {
    if es != [] {
      assert es[0] in es;
      var first := EntrySteps(es[0], es[0].ifaces);
      EntryQuiet(links, es[0], es[0].ifaces, clock, iface);
      var o := RunSteps(links, first, clock, {});
      forall e, i | e in es[1..] && i in e.ifaces ensures Ready(RootOf(o.links, i)) {
        EntryQuiet(links, es[0], es[0].ifaces, clock, i);
      }
      QuietHolds(o.links, es[1..], o.clock, iface);
      FailedConcat(links, first, BandwidthSteps(es[1..]), clock, {}, iface);
      DeletionsJoin(links, first, BandwidthSteps(es[1..]), clock, {});
    }
  }

  lemma {:induction false} DeletionsJoin(links: Links, a: seq<Step>, b: seq<Step>, clock: nat, faults: set<nat>)
    requires DeletionsHold(links, a, clock, faults) && RunSteps(links, a, clock, faults).ok
    requires var o := RunSteps(links, a, clock, faults); DeletionsHold(o.links, b, o.clock, faults)
    ensures DeletionsHold(links, a + b, clock, faults)
    decreases |a|
  {
    if a == [] {
      assert a + b == b;
    } else {
      assert (a + b)[0] == a[0] && (a + b)[1..] == a[1..] + b;
      var first := RunStep(links, a[0], clock, faults);
      DeletionsJoin(first.links, a[1..], b, first.clock, faults);
    }
  }

  lemma {:induction false} EntryQuiet(links: Links, e: Entry, ifaces: seq<string>, clock: nat, iface: string)
    requires forall i :: i in ifaces ==> Ready(RootOf(links, i))
    ensures var o := RunSteps(links, EntrySteps(e, ifaces), clock, {});
            && o.ok && DeletionsHold(links, EntrySteps(e, ifaces), clock, {})
            && !FailedOn(links, EntrySteps(e, ifaces), clock, {}, iface)
            && (Ready(RootOf(links, iface)) ==>
                  && Ready(RootOf(o.links, iface))
                  && RootOf(o.links, iface).classes
                     == if iface in ifaces then RootOf(links, iface).classes[e.minor := EntryClass(e)] else RootOf(links, iface).classes)
    decreases |ifaces|
  {
    if ifaces != [] {
      var g, rest := Group(e, ifaces[0]), EntrySteps(e, ifaces[1..]);
      GroupAllOrNothing(links, e, ifaces[0], clock, {});
      var n := GroupBody(links, e, ifaces[0], clock, {});
      var first := RunStep(links, g, clock, {});
      assert EntrySteps(e, ifaces)[0] == g && EntrySteps(e, ifaces)[1..] == rest;
      assert RunBody(links, g.body, clock, {}).ok;
      forall i | i in ifaces[1..] ensures Ready(RootOf(first.links, i)) {
        assert i in ifaces;
      }
      EntryQuiet(first.links, e, ifaces[1..], first.clock, iface);
    }
  }

  /** After a cycle in which nothing fails, from any earlier state, a shaped interface holds exactly the filters of
      this cycle and puts each packet into the class the policy wants. */
  lemma CycleClassifies(links: Links, cfg: Config, resolver: Resolver, ts: seq<Target>, iface: string, p: Packet,
                        clock: nat)
    requires Shapes(cfg) && iface in AllInterfaces(cfg) && (p.ipv6 ==> cfg.enableIpv6)
    ensures var o := RunSteps(links, Script(cfg, resolver, ts), clock, {});
            var r := RootOf(o.links, iface);
            && o.ok && r.Htb?
            && r.v4 == Added(ThrottleAll(cfg, cfg.qosInterfaces, FilterThrottled(ts)), iface, false)
                       + (if cfg.enableBandwidthControl then Requested(Entries(cfg, resolver, ts), iface) else [])
            && Classify(r, p) == WantedClass(cfg, resolver, ts, iface, p)
  {
    var throttle := ThrottleAll(cfg, cfg.qosInterfaces, FilterThrottled(ts));
    var es := if cfg.enableBandwidthControl then Entries(cfg, resolver, ts) else [];
    RunStepsConcat(links, FixedSteps(cfg, ts), LimitSteps(cfg, resolver, ts), clock, {});
    FixedQuiet(links, cfg, ts, iface, clock);
    var o := RunSteps(links, FixedSteps(cfg, ts), clock, {});
    EntriesOnInterfaces(cfg, resolver, ts);
    forall i | i in AllInterfaces(cfg) ensures Ready(RootOf(o.links, i)) {
      FixedQuiet(links, cfg, ts, i, clock);
    }
    QuietHolds(o.links, es, o.clock, iface);
    BandwidthAllOrNothing(o.links, es, o.clock, {}, iface);
    var fixed, limits := Added(throttle, iface, p.ipv6), if p.ipv6 then [] else Requested(es, iface);
    ThrottleAllAdd(cfg, cfg.qosInterfaces, FilterThrottled(ts), iface, p);
    ThrottledPackets(cfg, ts, p);
    EntriesApply(cfg, resolver, ts, iface, p);
    RequestedBand(es, iface);
    RequestedFirst(es, iface, p);
    assert fixed + [] == fixed;
    BestOfBands(fixed, limits, 13, 20, p);
    BestMember(fixed, p);
  }

  lemma ThrottledPackets(cfg: Config, ts: seq<Target>, p: Packet)
    requires p.ipv6 ==> cfg.enableIpv6
    ensures (exists t :: t in FilterThrottled(ts) && EndsAt(cfg, t, p)) <==> IsThrottled(ts, p)
  {
    if t :| t in FilterThrottled(ts) && EndsAt(cfg, t, p) {
      FilterThrottledMembers(ts, t);
    }
    if t :| t in ts && t.action.Throttle? && EndsAt(cfg, t, p) {
      FilterThrottledMembers(ts, t);
    }
  }

  lemma {:induction false} EntriesOnInterfaces(cfg: Config, resolver: Resolver, ts: seq<Target>)
    ensures forall e, i :: e in Entries(cfg, resolver, ts) && i in e.ifaces ==> i in AllInterfaces(cfg)
  {
    if ts != [] {
      EntriesOnInterfaces(cfg, resolver, ts[1..]);
      if ts[0].ipAddress.Some? {
        LimitsOnInterfaces(cfg, resolver, ts[0].deviceId, ts[0].ipAddress.value, ts[0].bandwidthLimits);
      }
    }
  }

  lemma {:induction false} LimitsOnInterfaces(cfg: Config, resolver: Resolver, id: string, addr: nat, limits: seq<Limit>)
    ensures forall e, i :: e in LimitsEntries(cfg, resolver, id, addr, limits) && i in e.ifaces ==> i in AllInterfaces(cfg)
  {
    if limits != [] {
      LimitsOnInterfaces(cfg, resolver, id, addr, limits[1..]);
      forall i | i in DownloadInterfaces(cfg) || i in UploadInterfaces(cfg) ensures i in AllInterfaces(cfg) {
        InterfacesCovered(cfg, i);
      }
    }
  }

  /** Shaping touches nothing exactly when it is switched off or has no interface. */
  lemma ScriptEmptyIff(cfg: Config, resolver: Resolver, ts: seq<Target>)
    ensures Script(cfg, resolver, ts) == [] <==> !cfg.enableQos || cfg.qosInterfaces == []
  {
    if cfg.enableQos && cfg.qosInterfaces != [] {
      var all := AllInterfaces(cfg);
      InterfacesCovered(cfg, cfg.qosInterfaces[0]);
      assert all != [] && SetupAll(cfg, all) == SetupSteps(cfg, all[0]) + SetupAll(cfg, all[1..]);
      assert |SetupSteps(cfg, all[0])| >= 5;
    }
  }

  // ---------------------------------------------------------------- rates

  /** The entry whose class the last write of `minor` on the interface left there, if any. */
  function LastEntry(es: seq<Entry>, iface: string, minor: nat): Option<Entry> {
    if es == [] then None
    else
      var rest := LastEntry(es[1..], iface, minor);
      if rest.Some? then rest
      else if iface in es[0].ifaces && es[0].minor == minor then Some(es[0]) else None
  }

  lemma {:induction false} ClassesQuiet(links: Links, es: seq<Entry>, iface: string, minor: nat, clock: nat)
    requires forall e, i :: e in es && i in e.ifaces ==> Ready(RootOf(links, i))
    requires Ready(RootOf(links, iface))
    ensures var o := RunSteps(links, BandwidthSteps(es), clock, {});
            var last := LastEntry(es, iface, minor);
            && o.ok && Ready(RootOf(o.links, iface))
            && (last.Some? ==> minor in RootOf(o.links, iface).classes && RootOf(o.links, iface).classes[minor] == EntryClass(last.value))
            && (last.None? && minor in RootOf(links, iface).classes ==>
                  minor in RootOf(o.links, iface).classes && RootOf(o.links, iface).classes[minor] == RootOf(links, iface).classes[minor])
    decreases |es|
  {
    if es != [] {
      assert es[0] in es;
      var first := EntrySteps(es[0], es[0].ifaces);
      EntryQuiet(links, es[0], es[0].ifaces, clock, iface);
      RunStepsConcat(links, first, BandwidthSteps(es[1..]), clock, {});
      var o := RunSteps(links, first, clock, {});
      forall e, i | e in es[1..] && i in e.ifaces ensures Ready(RootOf(o.links, i)) {
        EntryQuiet(links, es[0], es[0].ifaces, clock, i);
      }
      ClassesQuiet(o.links, es[1..], iface, minor, o.clock);
    }
  }

  lemma {:induction false} LastOfEntry(es: seq<Entry>, iface: string, e: Entry)
    requires e in es && iface in e.ifaces
    ensures LastEntry(es, iface, e.minor).Some?
    ensures LastEntry(es, iface, e.minor).value in es && iface in LastEntry(es, iface, e.minor).value.ifaces
    ensures LastEntry(es, iface, e.minor).value.minor == e.minor
  {
    LastMember(es, iface, e.minor);
    if es[0] != e {
      LastOfEntry(es[1..], iface, e);
    }
  }

  lemma {:induction false} LastMember(es: seq<Entry>, iface: string, minor: nat)
    ensures var last := LastEntry(es, iface, minor);
            last.Some? ==> last.value in es && iface in last.value.ifaces && last.value.minor == minor
  {
    if es != [] {
      LastMember(es[1..], iface, minor);
    }
  }

  /** Before the bandwidth stage of a cycle in which nothing fails, every shaped interface is ready. */
  lemma StagesQuiet(links: Links, cfg: Config, resolver: Resolver, ts: seq<Target>, clock: nat)
    requires Shapes(cfg) && cfg.enableBandwidthControl
    ensures var o := RunSteps(links, FixedSteps(cfg, ts), clock, {});
            && RunSteps(links, Script(cfg, resolver, ts), clock, {})
               == RunSteps(o.links, BandwidthSteps(Entries(cfg, resolver, ts)), o.clock, {})
            && (forall i :: i in AllInterfaces(cfg) ==> Ready(RootOf(o.links, i)))
            && (forall f, i :: f in Entries(cfg, resolver, ts) && i in f.ifaces ==> i in AllInterfaces(cfg))
  {
    RunStepsConcat(links, FixedSteps(cfg, ts), LimitSteps(cfg, resolver, ts), clock, {});
    var some := AllInterfaces(cfg)[0];
    FixedQuiet(links, cfg, ts, some, clock);
    EntriesOnInterfaces(cfg, resolver, ts);
    forall i | i in AllInterfaces(cfg)
      ensures Ready(RootOf(RunSteps(links, FixedSteps(cfg, ts), clock, {}).links, i))
    {
      FixedQuiet(links, cfg, ts, i, clock);
    }
  }

  // ---------------------------------------------------------------- the entries, limit by limit

  /** The entry asks for one direction of one limit of one addressed target. */
  ghost predicate EntryFor(e: Entry, cfg: Config, t: Target, limit: Limit, d: Direction) {
    && t.ipAddress.Some? && limit in t.bandwidthLimits && RateOf(limit, d) != 0
    && e.minor == BandwidthClassId(t.deviceId, limit.category, d) && e.rate == RateOf(limit, d)
    && forall i :: i in e.ifaces <==> Carries(cfg, d, i)
  }

  lemma OneDirection(cfg: Config, resolver: Resolver, t: Target, limit: Limit, d: Direction)
    requires t.ipAddress.Some? && limit in t.bandwidthLimits
    ensures var es := DirectionEntry(cfg, resolver, t.deviceId, t.ipAddress.value, limit, d);
            && (forall e :: e in es ==> EntryFor(e, cfg, t, limit, d))
            && (RateOf(limit, d) != 0 ==> es != [])
  {
  }

  lemma {:induction false} LimitHasEntry(cfg: Config, resolver: Resolver, t: Target, limits: seq<Limit>, limit: Limit,
                                         d: Direction) returns (e: Entry)
    requires t.ipAddress.Some? && limit in limits && RateOf(limit, d) != 0
    requires forall l :: l in limits ==> l in t.bandwidthLimits
    ensures e in LimitsEntries(cfg, resolver, t.deviceId, t.ipAddress.value, limits) && EntryFor(e, cfg, t, limit, d)
  {
    if limits[0] == limit {
      var es := DirectionEntry(cfg, resolver, t.deviceId, t.ipAddress.value, limit, d);
      OneDirection(cfg, resolver, t, limit, d);
      e := es[0];
      assert e in es;
      assert e in LimitEntries(cfg, resolver, t.deviceId, t.ipAddress.value, limit);
    } else {
      e := LimitHasEntry(cfg, resolver, t, limits[1..], limit, d);
    }
  }

  lemma {:induction false} TargetHasEntry(cfg: Config, resolver: Resolver, ts: seq<Target>, t: Target, limit: Limit,
                                          d: Direction) returns (e: Entry)
    requires t in ts && t.ipAddress.Some? && limit in t.bandwidthLimits && RateOf(limit, d) != 0
    ensures e in Entries(cfg, resolver, ts) && EntryFor(e, cfg, t, limit, d)
  {
    if ts[0] == t {
      e := LimitHasEntry(cfg, resolver, t, t.bandwidthLimits, limit, d);
    } else {
      e := TargetHasEntry(cfg, resolver, ts[1..], t, limit, d);
    }
  }

  lemma {:induction false} EntryOfLimits(cfg: Config, resolver: Resolver, t: Target, limits: seq<Limit>, e: Entry)
    returns (limit: Limit, d: Direction)
    requires t.ipAddress.Some? && e in LimitsEntries(cfg, resolver, t.deviceId, t.ipAddress.value, limits)
    requires forall l :: l in limits ==> l in t.bandwidthLimits
    ensures EntryFor(e, cfg, t, limit, d)
  {
    limit := limits[0];
    OneDirection(cfg, resolver, t, limit, Download);
    OneDirection(cfg, resolver, t, limit, Upload);
    if e in DirectionEntry(cfg, resolver, t.deviceId, t.ipAddress.value, limit, Download) {
      d := Download;
    } else if e in DirectionEntry(cfg, resolver, t.deviceId, t.ipAddress.value, limit, Upload) {
      d := Upload;
    } else {
      limit, d := EntryOfLimits(cfg, resolver, t, limits[1..], e);
    }
  }

  lemma {:induction false} EntryOfTarget(cfg: Config, resolver: Resolver, ts: seq<Target>, e: Entry)
    returns (t: Target, limit: Limit, d: Direction)
    requires e in Entries(cfg, resolver, ts)
    ensures t in ts && EntryFor(e, cfg, t, limit, d)
  {
    t := ts[0];
    if t.ipAddress.Some? && e in LimitsEntries(cfg, resolver, t.deviceId, t.ipAddress.value, t.bandwidthLimits) {
      limit, d := EntryOfLimits(cfg, resolver, t, t.bandwidthLimits, e);
    } else {
      t, limit, d := EntryOfTarget(cfg, resolver, ts[1..], e);
    }
  }

  // ---------------------------------------------------------------- rates of a whole cycle

  lemma EntriesSpareFixed(cfg: Config, resolver: Resolver, ts: seq<Target>, iface: string, c: nat)
    requires c in BaseClasses(cfg)
    ensures LastEntry(Entries(cfg, resolver, ts), iface, c).None?
  {
    EntriesApply(cfg, resolver, ts, iface, Packet(false, 0, 0, "", OtherProto, 0, {}));
    LastMember(Entries(cfg, resolver, ts), iface, c);
  }

  /** After such a cycle the fixed classes have their configured rates: no limit is ever put in their place. */
  lemma CycleBaseRates(links: Links, cfg: Config, resolver: Resolver, ts: seq<Target>, iface: string, clock: nat)
    requires Shapes(cfg) && cfg.enableBandwidthControl && iface in AllInterfaces(cfg)
    ensures var o := RunSteps(links, Script(cfg, resolver, ts), clock, {});
            var r := RootOf(o.links, iface);
            var slow, full := Configured(cfg.qosRate), Configured(cfg.qosDefaultRate);
            && o.ok && r.Htb? && 1 in r.classes && 0x10 in r.classes && 0x30 in r.classes
            && r.classes[1] == HtbClass(0, full, None) && r.classes[0x10] == HtbClass(1, slow, Some(slow))
            && r.classes[0x30] == HtbClass(1, full, None)
  {
    BaseRate(links, cfg, resolver, ts, iface, 1, clock);
    BaseRate(links, cfg, resolver, ts, iface, 0x10, clock);
    BaseRate(links, cfg, resolver, ts, iface, 0x30, clock);
  }

  lemma BaseRate(links: Links, cfg: Config, resolver: Resolver, ts: seq<Target>, iface: string, c: nat, clock: nat)
    requires Shapes(cfg) && cfg.enableBandwidthControl && iface in AllInterfaces(cfg) && c in BaseClasses(cfg)
    ensures var o := RunSteps(links, Script(cfg, resolver, ts), clock, {});
            var r := RootOf(o.links, iface);
            o.ok && r.Htb? && c in r.classes && r.classes[c] == BaseClasses(cfg)[c]
  {
    StagesQuiet(links, cfg, resolver, ts, clock);
    FixedQuiet(links, cfg, ts, iface, clock);
    EntriesSpareFixed(cfg, resolver, ts, iface, c);
    var o := RunSteps(links, FixedSteps(cfg, ts), clock, {});
    ClassesQuiet(o.links, Entries(cfg, resolver, ts), iface, c, o.clock);
  }

  /** Another limit in force on the interface that hashes to the class has this rate too. */
  ghost predicate OneRate(cfg: Config, ts: seq<Target>, iface: string, minor: nat, rate: nat) {
    forall t, limit, d ::
      && t in ts && t.ipAddress.Some? && limit in t.bandwidthLimits && RateOf(limit, d) != 0 && Carries(cfg, d, iface)
      && BandwidthClassId(t.deviceId, limit.category, d) == minor
      ==> RateOf(limit, d) == rate
  }

  /** After such a cycle every limit of an addressed target has its own rate, in each of its directions, on every
      interface that carries the direction, unless another limit in force there hashes to the same class with another
      rate. */
  lemma CycleRates(links: Links, cfg: Config, resolver: Resolver, ts: seq<Target>, iface: string, t: Target, limit: Limit,
                   d: Direction, clock: nat)
    requires Shapes(cfg) && cfg.enableBandwidthControl && Carries(cfg, d, iface)
    requires t in ts && t.ipAddress.Some? && limit in t.bandwidthLimits && RateOf(limit, d) != 0
    requires OneRate(cfg, ts, iface, BandwidthClassId(t.deviceId, limit.category, d), RateOf(limit, d))
    ensures var o := RunSteps(links, Script(cfg, resolver, ts), clock, {});
            var r := RootOf(o.links, iface);
            var minor, rate := BandwidthClassId(t.deviceId, limit.category, d), Kbit(RateOf(limit, d));
            && o.ok && r.Htb? && minor in r.classes && r.classes[minor] == HtbClass(1, rate, Some(rate))
  {
    var e := TargetHasEntry(cfg, resolver, ts, t, limit, d);
    forall f | f in Entries(cfg, resolver, ts) && iface in f.ifaces && f.minor == e.minor ensures f.rate == e.rate {
      var u, other, way := EntryOfTarget(cfg, resolver, ts, f);
      assert EntryFor(f, cfg, u, other, way);
    }
    InterfacesCovered(cfg, iface);
    EntryRate(links, cfg, resolver, ts, iface, e, clock);
  }

  lemma EntryRate(links: Links, cfg: Config, resolver: Resolver, ts: seq<Target>, iface: string, e: Entry, clock: nat)
    requires Shapes(cfg) && cfg.enableBandwidthControl && iface in AllInterfaces(cfg)
    requires e in Entries(cfg, resolver, ts) && iface in e.ifaces
    requires forall f :: f in Entries(cfg, resolver, ts) && iface in f.ifaces && f.minor == e.minor ==> f.rate == e.rate
    ensures var o := RunSteps(links, Script(cfg, resolver, ts), clock, {});
            var r := RootOf(o.links, iface);
            && o.ok && r.Htb?
            && e.minor in r.classes && r.classes[e.minor] == HtbClass(ROOT_CLASS, Kbit(e.rate), Some(Kbit(e.rate)))
  {
    var es := Entries(cfg, resolver, ts);
    StagesQuiet(links, cfg, resolver, ts, clock);
    LastOfEntry(es, iface, e);
    var o := RunSteps(links, FixedSteps(cfg, ts), clock, {});
    ClassesQuiet(o.links, es, iface, e.minor, o.clock);
  }
}
