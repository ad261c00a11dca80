/** qos-controller.js: what one shaping cycle asks of tc. */
module QosScript {
  import opened Options
  import opened Policy
  import opened MarkAllocator
  import opened Tc

  datatype Config = Config(
    enableQos: bool,
    qosInterfaces: seq<string>,
    lanInterface: Option<string>,
    wanInterface: Option<string>,
    enableIpv6: bool,
    enableBandwidthControl: bool,
    qosRate: string,
    qosDefaultRate: string)

  const ROOT_CLASS: nat := 1
  const THROTTLE_CLASS: nat := 0x10

  function DownloadInterfaces(cfg: Config): seq<string> {
    if cfg.lanInterface.Some? then [cfg.lanInterface.value] else cfg.qosInterfaces
  }

  function UploadInterfaces(cfg: Config): seq<string> {
    if cfg.wanInterface.Some? then [cfg.wanInterface.value] else cfg.qosInterfaces
  }

  /** The distinct elements in order of first occurrence. */
  function Distinct(s: seq<string>): seq<string> {
    if s == [] then []
    else
      var init := Distinct(s[..|s| - 1]);
      if s[|s| - 1] in init then init else init + [s[|s| - 1]]
  }

  function AllInterfaces(cfg: Config): seq<string> {
    Distinct(cfg.qosInterfaces + DownloadInterfaces(cfg) + UploadInterfaces(cfg))
  }

  // ---------------------------------------------------------------- the tree and the throttle filters

  function SetupSteps(cfg: Config, iface: string): seq<Step> {
    [Must(ReplaceQdisc(iface)),
     Must(ReplaceClass(iface, ROOT_CLASS, HtbClass(0, Configured(cfg.qosDefaultRate), None))),
     Must(ReplaceClass(iface, THROTTLE_CLASS, HtbClass(ROOT_CLASS, Configured(cfg.qosRate), Some(Configured(cfg.qosRate))))),
     Must(ReplaceClass(iface, DEFAULT_CLASS, HtbClass(ROOT_CLASS, Configured(cfg.qosDefaultRate), None))),
     Try(DelFilters(iface, false))]
    + if cfg.enableIpv6 then [Try(DelFilters(iface, true))] else []
  }

  function SetupAll(cfg: Config, ifaces: seq<string>): seq<Step> {
    if ifaces == [] then [] else SetupSteps(cfg, ifaces[0]) + SetupAll(cfg, ifaces[1..])
  }

  predicate Throttled(t: Target) {
    t.action.Throttle? && (t.ipAddress.Some? || t.ipv6Address.Some?)
  }

  function FilterThrottled(ts: seq<Target>): seq<Target> {
    if ts == [] then []
    else if Throttled(ts[0]) then [ts[0]] + FilterThrottled(ts[1..])
    else FilterThrottled(ts[1..])
  }

  function ThrottlePair(iface: string, ipv6: bool, addr: nat): seq<Step> {
    var prio := if ipv6 then 12 else 10;
    [Must(AddFilter(iface, ipv6, Filter(prio, Some(addr), None, THROTTLE_CLASS))),
     Must(AddFilter(iface, ipv6, Filter(prio + 1, None, Some(addr), THROTTLE_CLASS)))]
  }

  function ThrottleSteps(cfg: Config, iface: string, t: Target): seq<Step> {
    (if t.ipAddress.Some? then ThrottlePair(iface, false, t.ipAddress.value) else [])
    + (if cfg.enableIpv6 && t.ipv6Address.Some? then ThrottlePair(iface, true, t.ipv6Address.value) else [])
  }

  function ThrottleTargets(cfg: Config, iface: string, ts: seq<Target>): seq<Step> {
    if ts == [] then [] else ThrottleSteps(cfg, iface, ts[0]) + ThrottleTargets(cfg, iface, ts[1..])
  }

  function ThrottleAll(cfg: Config, ifaces: seq<string>, ts: seq<Target>): seq<Step> {
    if ifaces == [] then [] else ThrottleTargets(cfg, ifaces[0], ts) + ThrottleAll(cfg, ifaces[1..], ts)
  }

  // ---------------------------------------------------------------- bandwidth limits

  /** One direction of one limit: its class, its rate, and the address pairs it applies to. */
  datatype Entry = Entry(ifaces: seq<string>, minor: nat, rate: nat, filters: seq<Filter>)

  function LimitFilter(minor: nat, src: Option<nat>, dst: Option<nat>): Filter {
    Filter(20, src, dst, minor)
  }

  /** The filters of one direction: one per resolved category address, or one for the device alone. */
  function DirectionFilters(minor: nat, addr: nat, categoryIps: Option<seq<nat>>, d: Direction): seq<Filter> {
    if categoryIps.None? then
      [if d.Download? then LimitFilter(minor, None, Some(addr)) else LimitFilter(minor, Some(addr), None)]
    else
      var ips := categoryIps.value;
      seq(|ips|, i requires 0 <= i < |ips| =>
            if d.Download? then LimitFilter(minor, Some(ips[i]), Some(addr)) else LimitFilter(minor, Some(addr), Some(ips[i])))
  }

  /** The addresses the resolver cache returns for a category in this cycle; unknown categories have none. */
  type Resolver = map<string, seq<nat>>

  function CategoryIps(resolver: Resolver, category: Option<string>): Option<seq<nat>> {
    if category.None? then None
    else Some(if category.value in resolver then resolver[category.value] else [])
  }

  function DirectionEntry(cfg: Config, resolver: Resolver, deviceId: string, addr: nat, limit: Limit,
                          d: Direction): seq<Entry> {
    var rate := if d.Download? then limit.downloadKbps else limit.uploadKbps;
    if rate == 0 then []
    else
      var minor := BandwidthClassId(deviceId, limit.category, d);
      [Entry(if d.Download? then DownloadInterfaces(cfg) else UploadInterfaces(cfg), minor, rate,
             DirectionFilters(minor, addr, CategoryIps(resolver, limit.category), d))]
  }

  function LimitEntries(cfg: Config, resolver: Resolver, deviceId: string, addr: nat, limit: Limit): seq<Entry> {
    DirectionEntry(cfg, resolver, deviceId, addr, limit, Download)
    + DirectionEntry(cfg, resolver, deviceId, addr, limit, Upload)
  }

  function LimitsEntries(cfg: Config, resolver: Resolver, deviceId: string, addr: nat, limits: seq<Limit>): seq<Entry> {
    if limits == [] then []
    else LimitEntries(cfg, resolver, deviceId, addr, limits[0]) + LimitsEntries(cfg, resolver, deviceId, addr, limits[1..])
  }

  /** Everything the bandwidth stage asks for, in target and limit order. */
  function Entries(cfg: Config, resolver: Resolver, ts: seq<Target>): seq<Entry> {
    if ts == [] then []
    else
      (if ts[0].ipAddress.Some?
       then LimitsEntries(cfg, resolver, ts[0].deviceId, ts[0].ipAddress.value, ts[0].bandwidthLimits) else [])
      + Entries(cfg, resolver, ts[1..])
  }

  function FilterCommands(iface: string, filters: seq<Filter>): (cmds: seq<Command>)
    ensures |cmds| == |filters|
    ensures forall i :: 0 <= i < |filters| ==> cmds[i] == AddFilter(iface, false, filters[i])
  {
    seq(|filters|, i requires 0 <= i < |filters| => AddFilter(iface, false, filters[i]))
  }

  function EntryClass(e: Entry): HtbClass {
    HtbClass(ROOT_CLASS, Kbit(e.rate), Some(Kbit(e.rate)))
  }

  /** The class and the filters of one entry on one interface. */
  function Group(e: Entry, iface: string): Step {
    Guarded(iface, [ReplaceClass(iface, e.minor, EntryClass(e))] + FilterCommands(iface, e.filters))
  }

  function EntrySteps(e: Entry, ifaces: seq<string>): seq<Step> {
    if ifaces == [] then [] else [Group(e, ifaces[0])] + EntrySteps(e, ifaces[1..])
  }

  function BandwidthSteps(es: seq<Entry>): seq<Step> {
    if es == [] then [] else EntrySteps(es[0], es[0].ifaces) + BandwidthSteps(es[1..])
  }

  /** Whether the stage runs at all. */
  predicate Shapes(cfg: Config) {
    cfg.enableQos && |cfg.qosInterfaces| > 0
  }

  function FixedSteps(cfg: Config, ts: seq<Target>): seq<Step> {
    SetupAll(cfg, AllInterfaces(cfg)) + ThrottleAll(cfg, cfg.qosInterfaces, FilterThrottled(ts))
  }

  function LimitSteps(cfg: Config, resolver: Resolver, ts: seq<Target>): seq<Step> {
    if cfg.enableBandwidthControl then BandwidthSteps(Entries(cfg, resolver, ts)) else []
  }

  function Script(cfg: Config, resolver: Resolver, ts: seq<Target>): seq<Step> {
    if Shapes(cfg) then FixedSteps(cfg, ts) + LimitSteps(cfg, resolver, ts) else []
  }
}
