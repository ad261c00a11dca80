/** Management safety of the shaping stage: which device each live tc filter is for, under any pattern of failing
    calls (the filterTargets choke point of main.js in front of qos-controller.js). */
module ShapingSafety {
  import opened Options
  import opened Policy
  import opened ManagementGuard
  import opened MarkAllocator
  import opened Tc
  import opened QosScript
  import opened QosClassify
  import opened QosFailures

  // ---------------------------------------------------------------- the device a filter is for

  /** The filter is in one direction of a limit of the device at `addr`: the device end of it is `addr`, whatever the
      other end is. */
  ghost predicate LimitFilterFor(f: Filter, t: Target, addr: nat, resolver: Resolver) {
    exists limit, d: Direction :: limit in t.bandwidthLimits
      && f in DirectionFilters(BandwidthClassId(t.deviceId, limit.category, d), addr, CategoryIps(resolver, limit.category), d)
  }

  predicate ThrottleFilterFor(f: Filter, t: Target, addr: nat) {
    Throttled(t) && (f == Filter(10, Some(addr), None, THROTTLE_CLASS) || f == Filter(11, None, Some(addr), THROTTLE_CLASS))
  }

  /** The filter is one this cycle asks for because of the device `t`. */
  ghost predicate FilterFor(f: Filter, t: Target, resolver: Resolver) {
    t.ipAddress.Some? && (ThrottleFilterFor(f, t, t.ipAddress.value) || LimitFilterFor(f, t, t.ipAddress.value, resolver))
  }

  /** The filter is for one of the devices the policy names whose address is not protected. */
  ghost predicate FilterSafe(f: Filter, all: seq<Target>, resolver: Resolver, staticIps: set<nat>, detectedIp: Option<nat>) {
    exists t :: t in all && !IsProtected(staticIps, detectedIp, t.ipAddress) && FilterFor(f, t, resolver)
  }

  /** Every live IPv4 filter of a shaped interface is for such a device. */
  ghost predicate ShapingSafe(links: Links, cfg: Config, resolver: Resolver, staticIps: set<nat>, detectedIp: Option<nat>,
                              all: seq<Target>) {
    forall i, f :: Shapes(cfg) && i in AllInterfaces(cfg) && RootOf(links, i).Htb? && f in RootOf(links, i).v4
      ==> FilterSafe(f, all, resolver, staticIps, detectedIp)
  }

  /** The end of a filter that a limit of this direction puts its device at. */
  function DeviceEnd(f: Filter, d: Direction): Option<nat> {
    if d.Download? then f.dst else f.src
  }

  lemma DirectionEnd(minor: nat, addr: nat, categoryIps: Option<seq<nat>>, d: Direction, f: Filter)
    requires f in DirectionFilters(minor, addr, categoryIps, d)
    ensures DeviceEnd(f, d) == Some(addr) && f.flow == minor
  {
  }

  /** A safe filter puts the traffic of an unprotected device into the throttle class or into the class of one of its own
      limits, and has the device's address at the device end of that class. */
  lemma SafeDeviceEnd(f: Filter, all: seq<Target>, resolver: Resolver, staticIps: set<nat>, detectedIp: Option<nat>)
    returns (t: Target, d: Direction)
    requires FilterSafe(f, all, resolver, staticIps, detectedIp)
    ensures t in all && t.ipAddress.Some? && !IsProtected(staticIps, detectedIp, t.ipAddress)
    ensures DeviceEnd(f, d) == t.ipAddress
    ensures || (Throttled(t) && f.flow == THROTTLE_CLASS)
            || exists limit :: limit in t.bandwidthLimits && f.flow == BandwidthClassId(t.deviceId, limit.category, d)
  {
    t :| t in all && !IsProtected(staticIps, detectedIp, t.ipAddress) && FilterFor(f, t, resolver);
    var addr := t.ipAddress.value;
    if ThrottleFilterFor(f, t, addr) {
      d := if f.src == Some(addr) then Upload else Download;
    } else {
      var limit;
      limit, d :| limit in t.bandwidthLimits
        && f in DirectionFilters(BandwidthClassId(t.deviceId, limit.category, d), addr, CategoryIps(resolver, limit.category), d);
      DirectionEnd(BandwidthClassId(t.deviceId, limit.category, d), addr, CategoryIps(resolver, limit.category), d, f);
    }
  }

  // ---------------------------------------------------------------- what a cycle asks for

  lemma PairFor(iface: string, t: Target, addr: nat, i: string, f: Filter)
    requires Throttled(t) && f in Added(ThrottlePair(iface, false, addr), i, false)
    ensures ThrottleFilterFor(f, t, addr)
  {
    var s := ThrottlePair(iface, false, addr);
    assert s[1..][1..] == [] && Added(s[1..][1..], i, false) == [];
    assert Added(s[1..], i, false) == if i == iface then [s[1].cmd.filter] else [];
  }

  lemma PairNotFor(iface: string, addr: nat, i: string)
    ensures Added(ThrottlePair(iface, true, addr), i, false) == []
  {
    var s := ThrottlePair(iface, true, addr);
    assert s[1..][1..] == [] && Added(s[1..][1..], i, false) == [];
    assert Added(s[1..], i, false) == [];
  }

  lemma {:induction false} ThrottlesFor(cfg: Config, iface: string, ts: seq<Target>, i: string, f: Filter) returns (t: Target)
    requires f in Added(ThrottleTargets(cfg, iface, ts), i, false) && forall u :: u in ts ==> Throttled(u)
    ensures t in ts && t.ipAddress.Some? && ThrottleFilterFor(f, t, t.ipAddress.value)
  {
    t := ts[0];
    var a := if t.ipAddress.Some? then ThrottlePair(iface, false, t.ipAddress.value) else [];
    var b := if cfg.enableIpv6 && t.ipv6Address.Some? then ThrottlePair(iface, true, t.ipv6Address.value) else [];
    AddedConcat(a + b, ThrottleTargets(cfg, iface, ts[1..]), i, false);
    AddedConcat(a, b, i, false);
    if t.ipv6Address.Some? { PairNotFor(iface, t.ipv6Address.value, i); }
    if f in Added(a, i, false) {
      PairFor(iface, t, t.ipAddress.value, i, f);
    } else {
      t := ThrottlesFor(cfg, iface, ts[1..], i, f);
    }
  }

  lemma {:induction false} AllThrottlesFor(cfg: Config, ifaces: seq<string>, ts: seq<Target>, i: string, f: Filter)
    returns (t: Target)
    requires f in Added(ThrottleAll(cfg, ifaces, ts), i, false) && forall u :: u in ts ==> Throttled(u)
    ensures t in ts && t.ipAddress.Some? && ThrottleFilterFor(f, t, t.ipAddress.value)
  {
    AddedConcat(ThrottleTargets(cfg, ifaces[0], ts), ThrottleAll(cfg, ifaces[1..], ts), i, false);
    if f in Added(ThrottleTargets(cfg, ifaces[0], ts), i, false) {
      t := ThrottlesFor(cfg, ifaces[0], ts, i, f);
    } else {
      t := AllThrottlesFor(cfg, ifaces[1..], ts, i, f);
    }
  }

  /** The throttle stage puts filters of throttled targets only. */
  lemma ThrottleFiltersFor(cfg: Config, ts: seq<Target>, iface: string, resolver: Resolver, f: Filter) returns (t: Target)
    requires f in ThrottleFilters(cfg, ts, iface)
    ensures t in ts && FilterFor(f, t, resolver)
  {
    forall u | u in FilterThrottled(ts) ensures u in ts && Throttled(u) {
      FilterThrottledMembers(ts, u);
    }
    t := AllThrottlesFor(cfg, cfg.qosInterfaces, FilterThrottled(ts), iface, f);
  }

  lemma {:induction false} LimitsFor(cfg: Config, resolver: Resolver, t: Target, addr: nat, limits: seq<Limit>, e: Entry,
                                     f: Filter)
    requires e in LimitsEntries(cfg, resolver, t.deviceId, addr, limits) && f in e.filters
    requires forall l :: l in limits ==> l in t.bandwidthLimits
    ensures LimitFilterFor(f, t, addr, resolver)
  {
    assert limits[0] in limits && forall l :: l in limits[1..] ==> l in limits;
    if e in DirectionEntry(cfg, resolver, t.deviceId, addr, limits[0], Download) {
      assert f in DirectionFilters(BandwidthClassId(t.deviceId, limits[0].category, Download), addr,
                                   CategoryIps(resolver, limits[0].category), Download);
    } else if e in DirectionEntry(cfg, resolver, t.deviceId, addr, limits[0], Upload) {
      assert f in DirectionFilters(BandwidthClassId(t.deviceId, limits[0].category, Upload), addr,
                                   CategoryIps(resolver, limits[0].category), Upload);
    } else {
      LimitsFor(cfg, resolver, t, addr, limits[1..], e, f);
    }
  }

  lemma {:induction false} EntriesFor(cfg: Config, resolver: Resolver, ts: seq<Target>, e: Entry, f: Filter) returns (t: Target)
    requires e in Entries(cfg, resolver, ts) && f in e.filters
    ensures t in ts && FilterFor(f, t, resolver)
  {
    t := ts[0];
    if t.ipAddress.Some? && e in LimitsEntries(cfg, resolver, t.deviceId, t.ipAddress.value, t.bandwidthLimits) {
      LimitsFor(cfg, resolver, t, t.ipAddress.value, t.bandwidthLimits, e, f);
    } else {
      t := EntriesFor(cfg, resolver, ts[1..], e, f);
    }
  }

  /** A filter for a guarded target is safe. */
  lemma GuardedIsSafe(f: Filter, t: Target, all: seq<Target>, resolver: Resolver, staticIps: set<nat>, detectedIp: Option<nat>)
    requires t in Safe(staticIps, detectedIp, all) && FilterFor(f, t, resolver)
    ensures FilterSafe(f, all, resolver, staticIps, detectedIp)
  {
    SafeMembers(staticIps, detectedIp, all, t);
  }

  // ---------------------------------------------------------------- complete cycles

  /** What clearing left behind on the interfaces that still have their tree is for unprotected devices, as the policy
      of this cycle has them. */
  ghost predicate LeftoversSafe(before: Links, after: Links, cfg: Config, resolver: Resolver, staticIps: set<nat>,
                                detectedIp: Option<nat>, all: seq<Target>, clock: nat, faults: set<nat>) {
    forall i, f :: Shapes(cfg) && i in AllInterfaces(cfg) && RootOf(after, i).Htb? && f in Leftover(before, cfg, i, clock, faults)
      ==> FilterSafe(f, all, resolver, staticIps, detectedIp)
  }

  /** No call that clears IPv4 filters fails. */
  predicate ClearsHold(cfg: Config, clock: nat, faults: set<nat>) {
    forall i :: i in AllInterfaces(cfg) ==> ClearCall(cfg, AllInterfaces(cfg), i, clock) !in faults
  }

  /** One live filter after a complete cycle over the guarded targets: left behind, or safe. */
  lemma LiveFilter(links: Links, cfg: Config, resolver: Resolver, staticIps: set<nat>, detectedIp: Option<nat>,
                   all: seq<Target>, clock: nat, faults: set<nat>, i: string, f: Filter)
    requires var o := RunSteps(links, Script(cfg, resolver, Safe(staticIps, detectedIp, all)), clock, faults);
             o.ok && Shapes(cfg) && i in AllInterfaces(cfg) && RootOf(o.links, i).Htb? && f in RootOf(o.links, i).v4
    ensures f in Leftover(links, cfg, i, clock, faults) || FilterSafe(f, all, resolver, staticIps, detectedIp)
  {
    var ts := Safe(staticIps, detectedIp, all);
    CycleLeaves(links, cfg, resolver, ts, i, clock, faults);
    var v4 := RootOf(RunSteps(links, Script(cfg, resolver, ts), clock, faults).links, i).v4;
    var base := Base(links, cfg, ts, i, clock, faults);
    var k :| 0 <= k < |v4| && v4[k] == f;
    if k < |base| {
      assert base[k] == f && f in base;
      if f in ThrottleFilters(cfg, ts, i) {
        var t := ThrottleFiltersFor(cfg, ts, i, resolver, f);
        GuardedIsSafe(f, t, all, resolver, staticIps, detectedIp);
      }
    } else {
      var e :| e in Limits(cfg, resolver, ts) && f in e.filters;
      var t := EntriesFor(cfg, resolver, ts, e, f);
      GuardedIsSafe(f, t, all, resolver, staticIps, detectedIp);
    }
  }

  /** After a cycle over the guarded targets that completes, under any pattern of failing calls, rolled-back limits
      included, the live shaping is safe exactly when what failed clearing calls left behind is. */
  lemma CompleteCycleSafeIff(links: Links, cfg: Config, resolver: Resolver, staticIps: set<nat>, detectedIp: Option<nat>,
                             all: seq<Target>, clock: nat, faults: set<nat>)
    requires RunSteps(links, Script(cfg, resolver, Safe(staticIps, detectedIp, all)), clock, faults).ok
    ensures var end := RunSteps(links, Script(cfg, resolver, Safe(staticIps, detectedIp, all)), clock, faults).links;
            ShapingSafe(end, cfg, resolver, staticIps, detectedIp, all)
            <==> LeftoversSafe(links, end, cfg, resolver, staticIps, detectedIp, all, clock, faults)
  {
    var ts := Safe(staticIps, detectedIp, all);
    var end := RunSteps(links, Script(cfg, resolver, ts), clock, faults).links;
    forall i, f | Shapes(cfg) && i in AllInterfaces(cfg) && RootOf(end, i).Htb? && f in RootOf(end, i).v4
      ensures f in Leftover(links, cfg, i, clock, faults) || FilterSafe(f, all, resolver, staticIps, detectedIp)
    {
      LiveFilter(links, cfg, resolver, staticIps, detectedIp, all, clock, faults, i, f);
    }
    forall i, f | Shapes(cfg) && i in AllInterfaces(cfg) && RootOf(end, i).Htb? && f in Leftover(links, cfg, i, clock, faults)
      ensures f in RootOf(end, i).v4
    {
      CycleLeaves(links, cfg, resolver, ts, i, clock, faults);
      assert f in Base(links, cfg, ts, i, clock, faults);
    }
  }

  /** So a complete cycle none of whose clearing calls fails is safe, whatever else fails in it. */
  lemma GuardedShapingSafe(links: Links, cfg: Config, resolver: Resolver, staticIps: set<nat>, detectedIp: Option<nat>,
                           all: seq<Target>, clock: nat, faults: set<nat>)
    requires RunSteps(links, Script(cfg, resolver, Safe(staticIps, detectedIp, all)), clock, faults).ok
    requires ClearsHold(cfg, clock, faults)
    ensures ShapingSafe(RunSteps(links, Script(cfg, resolver, Safe(staticIps, detectedIp, all)), clock, faults).links,
                        cfg, resolver, staticIps, detectedIp, all)
  {
    CompleteCycleSafeIff(links, cfg, resolver, staticIps, detectedIp, all, clock, faults);
  }

  // ---------------------------------------------------------------- the clearing calls are what it takes

  const ONE_LINK: Config := Config(true, ["lan"], None, None, false, false, "1kbit", "1gbit")

  const OLD_THROTTLE: Filter := Filter(10, Some(9), None, THROTTLE_CLASS)

  const STALE: Links := map["lan" := Htb(map[], [OLD_THROTTLE], [])]

  lemma OneLinkInterfaces()
    ensures AllInterfaces(ONE_LINK) == ["lan"]
  {
    var s := ["lan", "lan", "lan"];
    assert ONE_LINK.qosInterfaces + DownloadInterfaces(ONE_LINK) + UploadInterfaces(ONE_LINK) == s;
    assert s[..2] == ["lan", "lan"] && s[..2][..1] == ["lan"] && ["lan"][..0] == [];
    assert Distinct(["lan"]) == ["lan"] && Distinct(["lan", "lan"]) == ["lan"];
  }

  lemma OneInterface(cfg: Config, iface: string)
    ensures SetupAll(cfg, [iface]) == SetupSteps(cfg, iface) && ThrottleAll(cfg, [iface], []) == []
  {
    assert [iface][1..] == [];
    assert SetupAll(cfg, []) == [] && SetupSteps(cfg, iface) + [] == SetupSteps(cfg, iface);
    assert ThrottleTargets(cfg, iface, []) == [] && ThrottleAll(cfg, [], []) == [];
  }

  lemma OneLink()
    ensures AllInterfaces(ONE_LINK) == ["lan"]
    ensures Script(ONE_LINK, map[], []) == FixedSteps(ONE_LINK, []) == SetupSteps(ONE_LINK, "lan")
  {
    OneLinkInterfaces();
    OneInterface(ONE_LINK, "lan");
    assert FilterThrottled([]) == [] && SetupSteps(ONE_LINK, "lan") + [] == SetupSteps(ONE_LINK, "lan");
  }

  lemma NobodysFilter(f: Filter, resolver: Resolver, staticIps: set<nat>, detectedIp: Option<nat>)
    ensures !FilterSafe(f, [], resolver, staticIps, detectedIp)
  {
  }

  /** On one interface whose clearing call is the only one to fail, an old filter is live after a complete cycle. */
  lemma StaleFilterLives(links: Links, cfg: Config, iface: string, f: Filter)
    requires f in OldFilters(RootOf(links, iface))
    ensures var o := RunSteps(links, SetupSteps(cfg, iface), 0, {4});
            o.ok && RootOf(o.links, iface).Htb? && f in RootOf(o.links, iface).v4
  {
    SetupLeaves(links, cfg, iface, 0, {4});
  }

  lemma NotSafe(links: Links, cfg: Config, resolver: Resolver, staticIps: set<nat>, detectedIp: Option<nat>,
                all: seq<Target>, i: string, f: Filter)
    requires Shapes(cfg) && i in AllInterfaces(cfg) && RootOf(links, i).Htb? && f in RootOf(links, i).v4
    requires !FilterSafe(f, all, resolver, staticIps, detectedIp)
    ensures !ShapingSafe(links, cfg, resolver, staticIps, detectedIp, all)
  {
  }

  /** The failing input: device 9 was throttled, its address is protected now, and the call that clears the filters
      (number 4) fails. The cycle completes and the filter on the protected address stays. */
  lemma FailedClearLeavesProtected()
    ensures var o := RunSteps(STALE, Script(ONE_LINK, map[], Safe({9}, None, [])), 0, {4});
            o.ok && !ShapingSafe(o.links, ONE_LINK, map[], {9}, None, [])
  {
    OneLink();
    assert OLD_THROTTLE == [OLD_THROTTLE][0];
    StaleFilterLives(STALE, ONE_LINK, "lan", OLD_THROTTLE);
    NobodysFilter(OLD_THROTTLE, map[], {9}, None);
    NotSafe(RunSteps(STALE, SetupSteps(ONE_LINK, "lan"), 0, {4}).links, ONE_LINK, map[], {9}, None, [], "lan", OLD_THROTTLE);
  }

  /** Every complete cycle over guarded targets is safe, from every state and under every pattern of failures in which
      the clearing calls hold if they are asked to. */
  ghost predicate SafeHost(clearsHold: bool) {
    forall links: Links, cfg: Config, resolver: Resolver, staticIps: set<nat>, detectedIp: Option<nat>, all: seq<Target>,
           clock: nat, faults: set<nat> ::
      (clearsHold ==> ClearsHold(cfg, clock, faults))
      && RunSteps(links, Script(cfg, resolver, Safe(staticIps, detectedIp, all)), clock, faults).ok
      ==> ShapingSafe(RunSteps(links, Script(cfg, resolver, Safe(staticIps, detectedIp, all)), clock, faults).links,
                      cfg, resolver, staticIps, detectedIp, all)
  }

  /** Management safety of shaping needs the clearing calls to hold, and nothing else. */
  lemma SafeIffClearsHold(clearsHold: bool)
    ensures SafeHost(clearsHold) <==> clearsHold
  {
    if clearsHold {
      forall links: Links, cfg: Config, resolver: Resolver, staticIps: set<nat>, detectedIp: Option<nat>, all: seq<Target>,
             clock: nat, faults: set<nat> |
        ClearsHold(cfg, clock, faults)
        && RunSteps(links, Script(cfg, resolver, Safe(staticIps, detectedIp, all)), clock, faults).ok
        ensures ShapingSafe(RunSteps(links, Script(cfg, resolver, Safe(staticIps, detectedIp, all)), clock, faults).links,
                            cfg, resolver, staticIps, detectedIp, all)
      {
        GuardedShapingSafe(links, cfg, resolver, staticIps, detectedIp, all, clock, faults);
      }
    } else {
      FailedClearLeavesProtected();
    }
  }
}
