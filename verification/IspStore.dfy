/** The ISP adapter's per-tenant maps and what each of its operations does to them
    (tenant-store.js, radius.service.js, dhcp.service.js, subscriber-resolver.js, bng-controller.js, policy-engine.js). */
module IspStore {
  import opened Options

  datatype Result<+T> = Ok(value: T) | Err(message: string)

  type Ref = nat

  /** A RADIUS session is an object that several maps share, so the maps hold its number in the list of all of them.
      `tenantId` is the tenant it was made for; `stopped` is whether it has a stop time. */
  datatype Session = Session(
    tenantId: string,
    subscriberId: string,
    assignedIp: string,
    publicIp: Option<string>,
    cgnatPortStart: Option<int>,
    cgnatPortEnd: Option<int>,
    bngId: string,
    accessCircuitId: Option<string>,
    active: bool,
    stopped: bool)

  datatype Lease = Lease(subscriberId: string, macAddress: string, ipAddress: string, hostname: Option<string>)

  /** `devices` is a map that remembers the order its keys came in: no two leases in it have the same address. */
  datatype Subscriber = Subscriber(activeSession: Option<Ref>, devices: seq<Lease>)

  datatype Cgnat = Cgnat(publicIp: string, portStart: Option<int>, portEnd: Option<int>)

  datatype Resolved = Resolved(
    subscriberId: string,
    radiusSession: Option<Ref>,
    devices: seq<Lease>,
    enforcementIp: Option<string>,
    publicIp: Option<string>,
    cgnat: Option<Cgnat>,
    bngId: Option<string>)

  datatype Action = BLOCK | ALLOW | THROTTLE

  datatype Command =
    | AddBlackhole(ip: string) | DelBlackhole(ip: string)
    | FilterId(subscriberId: string, name: string) | QosProfile(subscriberId: string, name: string)
    | QosRate(subscriberId: string, rate: string) | QosClear(subscriberId: string) | DnsPolicy(subscriberId: string, action: Action)

  datatype BngState = BngState(
    subscriberId: string,
    bngId: string,
    action: Action,
    enforcementIp: string,
    publicIp: Option<string>,
    cgnat: Option<Cgnat>,
    qosProfile: string,
    blackhole: bool,
    dnsPolicy: Action,
    reason: Option<string>,
    vendorCommands: seq<Command>)

  datatype Policy = Policy(
    subscriberId: string,
    action: string,
    reason: Option<string>,
    deviceScope: Option<string>,
    resolved: Resolved,
    bngState: BngState)

  datatype Tenant = Tenant(
    subscribers: map<string, Subscriber>,
    radiusSessions: map<string, Ref>,
    dhcpLeasesByMac: map<string, Lease>,
    policies: map<string, Policy>,
    bngState: map<string, BngState>)

  const EMPTY := Tenant(map[], map[], map[], map[], map[])

  // ---------------------------------------------------------------- requests

  datatype SessionData = SessionData(
    subscriberId: Option<string>,
    assignedIp: Option<string>,
    publicIp: Option<string>,
    cgnatPortStart: Option<int>,
    cgnatPortEnd: Option<int>,
    bngId: Option<string>,
    accessCircuitId: Option<string>,
    active: Option<bool>)

  datatype LeaseData = LeaseData(
    macAddress: Option<string>,
    subscriberId: Option<string>,
    ipAddress: Option<string>,
    hostname: Option<string>)

  datatype PolicyData = PolicyData(
    subscriberId: Option<string>,
    macAddress: Option<string>,
    assignedIp: Option<string>,
    bngId: Option<string>,
    action: Option<string>,
    reason: Option<string>)

  /** An empty text counts as an absent one. */
  function Given(o: Option<string>): (r: Option<string>)
    ensures r.Some? ==> r == o && r.value != ""
  {
    if o.Some? && o.value != "" then o else None
  }

  function OrElse(o: Option<string>, default_: string): string {
    if Given(o).Some? then o.value else default_
  }

  function Either(a: Option<string>, b: Option<string>): Option<string> {
    if Given(a).Some? then a else Given(b)
  }

  function LowerChar(c: char): char {
    if 'A' <= c <= 'Z' then c - 'A' + 'a' else c
  }

  function Lower(s: string): (r: string)
    ensures |r| == |s|
  {
    seq(|s|, i requires 0 <= i < |s| => LowerChar(s[i]))
  }

  // ---------------------------------------------------------------- operations on one tenant

  /** A tenant and the session objects after an operation. */
  datatype Change = Change(tenant: Tenant, sessions: seq<Session>)

  function SubscriberOf(t: Tenant, id: string): Subscriber {
    if id in t.subscribers then t.subscribers[id] else Subscriber(None, [])
  }

  function NewSession(tenantId: string, defaultBng: string, d: SessionData): Session
    requires d.subscriberId.Some? && d.assignedIp.Some?
  {
    Session(tenantId, d.subscriberId.value, d.assignedIp.value, Given(d.publicIp), d.cgnatPortStart, d.cgnatPortEnd,
            OrElse(d.bngId, defaultBng), Given(d.accessCircuitId), d.active != Some(false), false)
  }

  function UpsertSession(tenantId: string, defaultBng: string, c: Change, d: SessionData): (Change, Result<Ref>) {
    if Given(d.subscriberId).None? then (c, Err("subscriberId is required"))
    else if Given(d.assignedIp).None? then (c, Err("assignedIp is required"))
    else
      var id, ref := d.subscriberId.value, |c.sessions|;
      var t := c.tenant.(radiusSessions := c.tenant.radiusSessions[id := ref],
                         subscribers := c.tenant.subscribers[id := SubscriberOf(c.tenant, id).(activeSession := Some(ref))]);
      (Change(t, c.sessions + [NewSession(tenantId, defaultBng, d)]), Ok(ref))
  }

  /** Known session numbers are those of sessions that were made. */
  predicate RefsKnown(c: Change) {
    forall s :: s in c.tenant.radiusSessions ==> c.tenant.radiusSessions[s] < |c.sessions|
  }

  function StopSession(c: Change, id: string): (Change, Option<Ref>)
    requires RefsKnown(c)
  {
    if id !in c.tenant.radiusSessions then (c, None)
    else
      var ref := c.tenant.radiusSessions[id];
      var t := c.tenant.(radiusSessions := c.tenant.radiusSessions - {id},
                         subscribers := c.tenant.subscribers[id := SubscriberOf(c.tenant, id).(activeSession := None)]);
      (Change(t, c.sessions[ref := c.sessions[ref].(active := false, stopped := true)]), Some(ref))
  }

  /** Setting a key of the device map: in place if it is there, at the end if not. */
  function WithDevice(devices: seq<Lease>, lease: Lease): seq<Lease> {
    if devices == [] then [lease]
    else if devices[0].macAddress == lease.macAddress then [lease] + devices[1..]
    else [devices[0]] + WithDevice(devices[1..], lease)
  }

  function UpsertLease(c: Change, d: LeaseData): (Change, Result<Lease>) {
    if Given(d.macAddress).None? then (c, Err("macAddress is required"))
    else if Given(d.subscriberId).None? then (c, Err("subscriberId is required"))
    else if Given(d.ipAddress).None? then (c, Err("ipAddress is required"))
    else
      var mac, id := Lower(d.macAddress.value), d.subscriberId.value;
      var lease := Lease(id, mac, d.ipAddress.value, Given(d.hostname));
      var s := SubscriberOf(c.tenant, id);
      var t := c.tenant.(dhcpLeasesByMac := c.tenant.dhcpLeasesByMac[mac := lease],
                         subscribers := c.tenant.subscribers[id := s.(devices := WithDevice(s.devices, lease))]);
      (c.(tenant := t), Ok(lease))
  }

  function FromDevice(t: Tenant, d: PolicyData): Option<string> {
    if Given(d.macAddress).None? then None
    else
      var mac := Lower(d.macAddress.value);
      if mac in t.dhcpLeasesByMac then Given(Some(t.dhcpLeasesByMac[mac].subscriberId)) else None
  }

  function WhoIs(t: Tenant, d: PolicyData): Option<string> {
    Either(d.subscriberId, FromDevice(t, d))
  }

  function Resolution(c: Change, id: string, d: PolicyData): Resolved
    requires RefsKnown(c)
  {
    var devices := SubscriberOf(c.tenant, id).devices;
    var first := if devices == [] then None else Given(Some(devices[0].ipAddress));
    var fallback := Either(d.assignedIp, first);
    if id in c.tenant.radiusSessions then
      var ref := c.tenant.radiusSessions[id];
      var s := c.sessions[ref];
      Resolved(id, Some(ref), devices, Either(Some(s.assignedIp), fallback), Given(s.publicIp),
               if Given(s.publicIp).Some? then Some(Cgnat(s.publicIp.value, s.cgnatPortStart, s.cgnatPortEnd)) else None,
               Either(Some(s.bngId), d.bngId))
    else Resolved(id, None, devices, fallback, None, None, Given(d.bngId))
  }

  /** Resolving a subscriber that is not there yet makes it, whatever happens afterwards. */
  function Resolve(c: Change, d: PolicyData): (Change, Result<Resolved>)
    requires RefsKnown(c)
  {
    var who := WhoIs(c.tenant, d);
    if who.None? then (c, Err("subscriberId is required or must be resolvable from macAddress"))
    else
      var t := c.tenant.(subscribers := c.tenant.subscribers[who.value := SubscriberOf(c.tenant, who.value)]);
      (c.(tenant := t), Ok(Resolution(c, who.value, d)))
  }

  function NormalizeAction(action: Option<string>): Option<Action> {
    if action == Some("BLOCK") then Some(BLOCK)
    else if action == Some("ALLOW") then Some(ALLOW)
    else if action == Some("THROTTLE") then Some(THROTTLE)
    else None
  }

  function QosProfileFor(a: Action): string {
    match a
    case THROTTLE => "guardtime-1kbit"
    case BLOCK => "guardtime-blackhole"
    case ALLOW => "default"
  }

  function VendorCommands(id: string, ip: string, a: Action): seq<Command> {
    match a
    case BLOCK => [AddBlackhole(ip), FilterId(id, "guardtime-block"), DnsPolicy(id, BLOCK)]
    case THROTTLE => [QosProfile(id, "guardtime-1kbit"), QosRate(id, "1kbit"), DnsPolicy(id, THROTTLE)]
    case ALLOW => [DelBlackhole(ip), FilterId(id, "default"), QosClear(id), DnsPolicy(id, ALLOW)]
  }

  function BngKey(bngId: string, id: string): string {
    bngId + [':'] + id
  }

  function NewState(defaultBng: string, r: Resolved, a: Action, reason: Option<string>): BngState
    requires r.enforcementIp.Some?
  {
    var ip := r.enforcementIp.value;
    BngState(r.subscriberId, OrElse(r.bngId, defaultBng), a, ip, r.publicIp, r.cgnat, QosProfileFor(a), a.BLOCK?, a,
             Given(reason), VendorCommands(r.subscriberId, ip, a))
  }

  function ApplyPolicy(defaultBng: string, c: Change, r: Resolved, d: PolicyData): (Change, Result<BngState>) {
    if r.enforcementIp.None? then (c, Err("No enforceable IP for subscriber " + r.subscriberId))
    else
      var a := NormalizeAction(d.action);
      if a.None? then (c, Err("action must be BLOCK, ALLOW, or THROTTLE"))
      else
        var state := NewState(defaultBng, r, a.value, d.reason);
        (c.(tenant := c.tenant.(bngState := c.tenant.bngState[BngKey(state.bngId, r.subscriberId) := state])), Ok(state))
  }

  function NewPolicy(d: PolicyData, r: Resolved, state: BngState): Policy {
    Policy(r.subscriberId, if d.action.Some? then d.action.value else "", Given(d.reason),
           if Given(d.macAddress).Some? then Some(Lower(d.macAddress.value)) else None, r, state)
  }

  function Apply(defaultBng: string, c: Change, d: PolicyData): (Change, Result<Policy>)
    requires RefsKnown(c)
  {
    var (c1, resolved) := Resolve(c, d);
    if resolved.Err? then (c1, Err(resolved.message))
    else
      var r := resolved.value;
      var (c2, state) := ApplyPolicy(defaultBng, c1, r, d);
      if state.Err? then (c2, Err(state.message))
      else
        var policy := NewPolicy(d, r, state.value);
        (c2.(tenant := c2.tenant.(policies := c2.tenant.policies[r.subscriberId := policy])), Ok(policy))
  }

  // ---------------------------------------------------------------- the store of all tenants

  datatype Store = Store(tenants: map<string, Tenant>, sessions: seq<Session>)

  function TenantOf(st: Store, id: string): Tenant {
    if id in st.tenants then st.tenants[id] else EMPTY
  }

  function View(st: Store, id: string): Change {
    Change(TenantOf(st, id), st.sessions)
  }

  /** Every operation first looks its tenant up, which makes it if it is not there. */
  function With(st: Store, id: string, c: Change): Store {
    Store(st.tenants[id := c.tenant], c.sessions)
  }

  predicate AllRefsKnown(st: Store) {
    forall id :: id in st.tenants ==> RefsKnown(View(st, id))
  }

  datatype Op = SessionUp(d: SessionData) | SessionStop(id: string) | LeaseUp(lease: LeaseData) | PolicyUp(policy: PolicyData)
              | Look(id: string)

  /** The subscriber page resolves without applying. */
  function LookData(id: string): PolicyData {
    PolicyData(Some(id), None, None, None, None, None)
  }

  function RunOp(tenantId: string, defaultBng: string, c: Change, op: Op): Change
    requires RefsKnown(c)
  {
    match op
    case SessionUp(d) => UpsertSession(tenantId, defaultBng, c, d).0
    case SessionStop(id) => StopSession(c, id).0
    case LeaseUp(d) => UpsertLease(c, d).0
    case PolicyUp(d) => Apply(defaultBng, c, d).0
    case Look(id) => Resolve(c, LookData(id)).0
  }

  function Step(defaultBng: string, st: Store, tenantId: string, op: Op): Store
    requires AllRefsKnown(st)
  {
    With(st, tenantId, RunOp(tenantId, defaultBng, View(st, tenantId), op))
  }
}
