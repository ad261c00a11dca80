/** qos-controller.js: the controller that shapes the interfaces step by step, proved to do exactly what its script
    does, failing calls included. */
module QosController {
  import opened Options
  import opened Policy
  import opened MarkAllocator
  import opened Tc
  import opened QosScript

  class Controller {
    const config: Config
    const faults: set<nat>
    var links: Links
    var clock: nat

    constructor (config: Config, links: Links, faults: set<nat>)
      ensures this.config == config && this.links == links && this.faults == faults && clock == 0
    {
      this.config, this.links, this.faults, clock := config, links, faults, 0;
    }

    /** Whether running `steps` from the given state ends as the kernel is now. */
    ghost predicate Did(links0: Links, clock0: nat, steps: seq<Step>, ok: bool)
      reads this
    {
      Outcome(ok, links, clock) == RunSteps(links0, steps, clock0, faults)
    }

    method Run(cmd: Command) returns (ok: bool)
      modifies this
      ensures Outcome(ok, links, clock) == RunCommand(old(links), cmd, old(clock), faults)
    {
      var result := Exec(cmd, RootOf(links, cmd.iface));
      ok := clock !in faults && result.Some?;
      if ok {
        links := links[cmd.iface := result.value];
      }
      clock := clock + 1;
    }

    method EnsureQdisc(iface: string) returns (ok: bool)
      modifies this
      ensures Did(old(links), old(clock), SetupSteps(config, iface)[..4], ok)
    {
      ghost var s := SetupSteps(config, iface);
      ghost var t1, t2, t3 := [s[1]] + ([s[2]] + [s[3]]), [s[2]] + [s[3]], [s[3]];
      assert s[..4] == [s[0]] + t1 && t3 == [s[3]] + [];
      RunStepsCons(links, s[0], t1, clock, faults);
      ok := Run(ReplaceQdisc(iface));
      if !ok { return; }
      RunStepsCons(links, s[1], t2, clock, faults);
      ok := Run(ReplaceClass(iface, ROOT_CLASS, HtbClass(0, Configured(config.qosDefaultRate), None)));
      if !ok { return; }
      RunStepsCons(links, s[2], t3, clock, faults);
      ok := Run(ReplaceClass(iface, THROTTLE_CLASS,
                             HtbClass(ROOT_CLASS, Configured(config.qosRate), Some(Configured(config.qosRate)))));
      if !ok { return; }
      RunStepsCons(links, s[3], [], clock, faults);
      ok := Run(ReplaceClass(iface, DEFAULT_CLASS, HtbClass(ROOT_CLASS, Configured(config.qosDefaultRate), None)));
    }

    method ClearFilters(iface: string)
      modifies this
      ensures Did(old(links), old(clock), SetupSteps(config, iface)[4..], true)
    {
      ghost var s := SetupSteps(config, iface);
      assert s[4..] == [Try(DelFilters(iface, false))] + s[5..];
      RunStepsCons(links, Try(DelFilters(iface, false)), s[5..], clock, faults);
      var _ := Run(DelFilters(iface, false));
      if config.enableIpv6 {
        assert s[5..] == [Try(DelFilters(iface, true))] + [];
        RunStepsCons(links, Try(DelFilters(iface, true)), [], clock, faults);
        var _ := Run(DelFilters(iface, true));
      }
    }

    method SetupInterfaces(ifaces: seq<string>) returns (ok: bool)
      modifies this
      ensures Did(old(links), old(clock), SetupAll(config, ifaces), ok)
    {
      assert ifaces[0..] == ifaces;
      for i := 0 to |ifaces|
        invariant RunSteps(old(links), SetupAll(config, ifaces), old(clock), faults)
               == RunSteps(links, SetupAll(config, ifaces[i..]), clock, faults)
      {
        ghost var s, rest := SetupSteps(config, ifaces[i]), SetupAll(config, ifaces[i + 1..]);
        assert ifaces[i..][1..] == ifaces[i + 1..];
        assert s == s[..4] + s[4..];
        RunStepsConcat(links, s, rest, clock, faults);
        RunStepsConcat(links, s[..4], s[4..], clock, faults);
        ok := EnsureQdisc(ifaces[i]);
        if !ok { return; }
        ClearFilters(ifaces[i]);
      }
      ok := true;
    }

    method AddThrottleFilters(iface: string, ipv6: bool, addr: nat) returns (ok: bool)
      modifies this
      ensures Did(old(links), old(clock), ThrottlePair(iface, ipv6, addr), ok)
    {
      var prio := if ipv6 then 12 else 10;
      var a := AddFilter(iface, ipv6, Filter(prio, Some(addr), None, THROTTLE_CLASS));
      var b := AddFilter(iface, ipv6, Filter(prio + 1, None, Some(addr), THROTTLE_CLASS));
      assert ThrottlePair(iface, ipv6, addr) == [Must(a)] + [Must(b)] && [Must(b)] == [Must(b)] + [];
      RunStepsCons(links, Must(a), [Must(b)], clock, faults);
      ok := Run(a);
      if !ok { return; }
      RunStepsCons(links, Must(b), [], clock, faults);
      ok := Run(b);
    }

    method ThrottleOne(iface: string, t: Target) returns (ok: bool)
      modifies this
      ensures Did(old(links), old(clock), ThrottleSteps(config, iface, t), ok)
    {
      ghost var a := if t.ipAddress.Some? then ThrottlePair(iface, false, t.ipAddress.value) else [];
      ghost var b := if config.enableIpv6 && t.ipv6Address.Some? then ThrottlePair(iface, true, t.ipv6Address.value) else [];
      RunStepsConcat(links, a, b, clock, faults);
      ok := true;
      if t.ipAddress.Some? {
        ok := AddThrottleFilters(iface, false, t.ipAddress.value);
        if !ok { return; }
      }
      if config.enableIpv6 && t.ipv6Address.Some? {
        ok := AddThrottleFilters(iface, true, t.ipv6Address.value);
      }
    }

    method ThrottleInterface(iface: string, throttled: seq<Target>) returns (ok: bool)
      modifies this
      ensures Did(old(links), old(clock), ThrottleTargets(config, iface, throttled), ok)
    {
      assert throttled[0..] == throttled;
      for i := 0 to |throttled|
        invariant RunSteps(old(links), ThrottleTargets(config, iface, throttled), old(clock), faults)
               == RunSteps(links, ThrottleTargets(config, iface, throttled[i..]), clock, faults)
      {
        assert throttled[i..][1..] == throttled[i + 1..];
        RunStepsConcat(links, ThrottleSteps(config, iface, throttled[i]),
                       ThrottleTargets(config, iface, throttled[i + 1..]), clock, faults);
        ok := ThrottleOne(iface, throttled[i]);
        if !ok { return; }
      }
      ok := true;
    }

    method ThrottleInterfaces(ifaces: seq<string>, throttled: seq<Target>) returns (ok: bool)
      modifies this
      ensures Did(old(links), old(clock), ThrottleAll(config, ifaces, throttled), ok)
    {
      assert ifaces[0..] == ifaces;
      for i := 0 to |ifaces|
        invariant RunSteps(old(links), ThrottleAll(config, ifaces, throttled), old(clock), faults)
               == RunSteps(links, ThrottleAll(config, ifaces[i..], throttled), clock, faults)
      {
        assert ifaces[i..][1..] == ifaces[i + 1..];
        RunStepsConcat(links, ThrottleTargets(config, ifaces[i], throttled),
                       ThrottleAll(config, ifaces[i + 1..], throttled), clock, faults);
        ok := ThrottleInterface(ifaces[i], throttled);
        if !ok { return; }
      }
      ok := true;
    }

    /** The guarded body of one interface: the class, then its filters, up to the first failure. */
    method ShapeInterface(e: Entry, iface: string) returns (ok: bool)
      modifies this
      ensures Outcome(ok, links, clock) == RunBody(old(links), Group(e, iface).body, old(clock), faults)
    {
      ghost var cmds := FilterCommands(iface, e.filters);
      assert ([ReplaceClass(iface, e.minor, EntryClass(e))] + cmds)[1..] == cmds;
      ok := Run(ReplaceClass(iface, e.minor, EntryClass(e)));
      if !ok { return; }
      assert cmds[0..] == cmds;
      for i := 0 to |e.filters|
        invariant RunBody(old(links), Group(e, iface).body, old(clock), faults) == RunBody(links, cmds[i..], clock, faults)
      {
        assert cmds[i..][1..] == cmds[i + 1..];
        ok := Run(AddFilter(iface, false, e.filters[i]));
        if !ok { return; }
      }
      ok := true;
    }

    method ApplyDirectionalLimit(e: Entry)
      modifies this
      ensures Did(old(links), old(clock), EntrySteps(e, e.ifaces), true)
    {
      assert e.ifaces[0..] == e.ifaces;
      for i := 0 to |e.ifaces|
        invariant RunSteps(old(links), EntrySteps(e, e.ifaces), old(clock), faults)
               == RunSteps(links, EntrySteps(e, e.ifaces[i..]), clock, faults)
      {
        assert e.ifaces[i..][1..] == e.ifaces[i + 1..];
        RunStepsCons(links, Group(e, e.ifaces[i]), EntrySteps(e, e.ifaces[i + 1..]), clock, faults);
        var shaped := ShapeInterface(e, e.ifaces[i]);
        if !shaped {
          var _ := Run(DelQdisc(e.ifaces[i]));
        }
      }
    }

    method ApplyDirection(resolver: Resolver, t: Target, limit: Limit, d: Direction)
      requires t.ipAddress.Some?
      modifies this
      ensures Did(old(links), old(clock),
                  BandwidthSteps(DirectionEntry(config, resolver, t.deviceId, t.ipAddress.value, limit, d)), true)
    {
      var rate := if d.Download? then limit.downloadKbps else limit.uploadKbps;
      if rate != 0 {
        var minor := BandwidthClassId(t.deviceId, limit.category, d);
        var e := Entry(if d.Download? then DownloadInterfaces(config) else UploadInterfaces(config), minor, rate,
                       DirectionFilters(minor, t.ipAddress.value, CategoryIps(resolver, limit.category), d));
        assert DirectionEntry(config, resolver, t.deviceId, t.ipAddress.value, limit, d) == [e];
        OneEntry(e);
        ApplyDirectionalLimit(e);
      }
    }

    method ApplyLimits(resolver: Resolver, t: Target)
      requires t.ipAddress.Some?
      modifies this
      ensures Did(old(links), old(clock),
                  BandwidthSteps(LimitsEntries(config, resolver, t.deviceId, t.ipAddress.value, t.bandwidthLimits)), true)
    {
      var limits, addr := t.bandwidthLimits, t.ipAddress.value;
      assert limits[0..] == limits;
      for i := 0 to |limits|
        invariant RunSteps(old(links), BandwidthSteps(LimitsEntries(config, resolver, t.deviceId, addr, limits)), old(clock), faults)
               == RunSteps(links, BandwidthSteps(LimitsEntries(config, resolver, t.deviceId, addr, limits[i..])), clock, faults)
      {
        ghost var a := DirectionEntry(config, resolver, t.deviceId, addr, limits[i], Download);
        ghost var b := DirectionEntry(config, resolver, t.deviceId, addr, limits[i], Upload);
        ghost var rest := LimitsEntries(config, resolver, t.deviceId, addr, limits[i + 1..]);
        assert limits[i..][1..] == limits[i + 1..];
        BandwidthConcat(a + b, rest);
        BandwidthConcat(a, b);
        RunStepsConcat(links, BandwidthSteps(a) + BandwidthSteps(b), BandwidthSteps(rest), clock, faults);
        RunStepsConcat(links, BandwidthSteps(a), BandwidthSteps(b), clock, faults);
        ApplyDirection(resolver, t, limits[i], Download);
        ApplyDirection(resolver, t, limits[i], Upload);
      }
    }

    method SyncBandwidthLimits(resolver: Resolver, ts: seq<Target>)
      modifies this
      ensures Did(old(links), old(clock), BandwidthSteps(Entries(config, resolver, ts)), true)
    {
      assert ts[0..] == ts;
      for i := 0 to |ts|
        invariant RunSteps(old(links), BandwidthSteps(Entries(config, resolver, ts)), old(clock), faults)
               == RunSteps(links, BandwidthSteps(Entries(config, resolver, ts[i..])), clock, faults)
      {
        ghost var mine := if ts[i].ipAddress.Some?
                          then LimitsEntries(config, resolver, ts[i].deviceId, ts[i].ipAddress.value, ts[i].bandwidthLimits) else [];
        ghost var rest := Entries(config, resolver, ts[i + 1..]);
        assert ts[i..][1..] == ts[i + 1..];
        BandwidthConcat(mine, rest);
        RunStepsConcat(links, BandwidthSteps(mine), BandwidthSteps(rest), clock, faults);
        if ts[i].ipAddress.Some? {
          ApplyLimits(resolver, ts[i]);
        }
      }
    }

    /** One cycle. A failure before the bandwidth stage is the caller's. */
    method Sync(resolver: Resolver, ts: seq<Target>) returns (ok: bool)
      modifies this
      ensures Did(old(links), old(clock), Script(config, resolver, ts), ok)
    {
      if !config.enableQos || |config.qosInterfaces| == 0 { return true; }
      var throttled := FilterThrottled(ts);
      ghost var setup, throttle := SetupAll(config, AllInterfaces(config)), ThrottleAll(config, config.qosInterfaces, throttled);
      RunStepsConcat(links, setup + throttle, LimitSteps(config, resolver, ts), clock, faults);
      RunStepsConcat(links, setup, throttle, clock, faults);
      ok := SetupInterfaces(AllInterfaces(config));
      if !ok { return; }
      ok := ThrottleInterfaces(config.qosInterfaces, throttled);
      if !ok { return; }
      if config.enableBandwidthControl {
        SyncBandwidthLimits(resolver, ts);
      }
    }
  }

  lemma OneEntry(e: Entry)
    ensures BandwidthSteps([e]) == EntrySteps(e, e.ifaces)
  {
    assert [e][1..] == [];
    assert BandwidthSteps([e]) == EntrySteps(e, e.ifaces) + [];
  }

  lemma {:induction false} BandwidthConcat(a: seq<Entry>, b: seq<Entry>)
    ensures BandwidthSteps(a + b) == BandwidthSteps(a) + BandwidthSteps(b)
  {
    if a == [] {
      assert a + b == b;
    } else {
      assert (a + b)[0] == a[0] && (a + b)[1..] == a[1..] + b;
      BandwidthConcat(a[1..], b);
    }
  }
}
