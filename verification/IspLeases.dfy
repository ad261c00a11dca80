/** Two readings of who has an address: the index of leases holds the last one, the device lists of subscribers keep
    every lease that was made to them. Where they differ a policy is enforced at an address that moved on. */
module IspLeases {
  import opened Options
  import opened IspStore
  import opened IspConsistency
  import opened IspPolicy

  // ---------------------------------------------------------------- one store

  /** The index has a lease of this IP address to this subscriber. */
  predicate LeasedTo(t: Tenant, s: string, ip: string) {
    exists m :: m in t.dhcpLeasesByMac && t.dhcpLeasesByMac[m].subscriberId == s && t.dhcpLeasesByMac[m].ipAddress == ip
  }

  /** The subscriber the index has for a device's address. */
  function Holder(t: Tenant, mac: string): Option<string> {
    if mac in t.dhcpLeasesByMac then Some(t.dhcpLeasesByMac[mac].subscriberId) else None
  }

  /** A device is what the index holds for its address exactly if the index names its subscriber there. */
  lemma DeviceCurrentIff(id: string, c: Change, s: string, l: Lease)
    requires Core(id, c) && l in SubscriberOf(c.tenant, s).devices
    ensures var t := c.tenant;
            l.macAddress in t.dhcpLeasesByMac
            && (t.dhcpLeasesByMac[l.macAddress] == l <==> Holder(t, l.macAddress) == Some(s))
  {
    assert s in c.tenant.subscribers;
  }

  /** An IP address is still leased to a subscriber exactly if one of its devices has it and is current. */
  lemma LeasedToIff(id: string, c: Change, s: string, ip: string)
    requires Core(id, c)
    ensures LeasedTo(c.tenant, s, ip)
            <==> exists l :: l in SubscriberOf(c.tenant, s).devices && l.ipAddress == ip
                             && Holder(c.tenant, l.macAddress) == Some(s)
  {
    var t := c.tenant;
    if LeasedTo(t, s, ip) {
      var m :| m in t.dhcpLeasesByMac && t.dhcpLeasesByMac[m].subscriberId == s && t.dhcpLeasesByMac[m].ipAddress == ip;
      assert t.dhcpLeasesByMac[m] in SubscriberOf(t, s).devices;
    }
    if l :| l in SubscriberOf(t, s).devices && l.ipAddress == ip && Holder(t, l.macAddress) == Some(s) {
      DeviceCurrentIff(id, c, s, l);
    }
  }

  /** A policy for a subscriber without a session, applied without naming an address, is enforced at the first device
      on its list; that device is still its own exactly if the index names the subscriber there, which the caller can
      look up before. The IP address is still its own exactly if a current device of the subscriber has it. */
  lemma EnforcedWhereLeasedIff(id: string, bng: string, c: Change, d: PolicyData)
    requires Core(id, c) && RefsKnown(c) && Given(d.assignedIp).None?
    ensures var (n, r) := Apply(bng, c, d);
            r.Ok? && r.value.subscriberId !in c.tenant.radiusSessions ==>
              var s, ip := r.value.subscriberId, r.value.bngState.enforcementIp;
              var devices := SubscriberOf(c.tenant, s).devices;
              && devices != [] && ip == devices[0].ipAddress && devices[0].macAddress in n.tenant.dhcpLeasesByMac
              && (n.tenant.dhcpLeasesByMac[devices[0].macAddress] == devices[0]
                  <==> Holder(c.tenant, devices[0].macAddress) == Some(s))
              && (LeasedTo(n.tenant, s, ip)
                  <==> exists l :: l in devices && l.ipAddress == ip && Holder(c.tenant, l.macAddress) == Some(s))
  {
    var (n, r) := Apply(bng, c, d);
    if r.Ok? && r.value.subscriberId !in c.tenant.radiusSessions {
      var s, ip := r.value.subscriberId, r.value.bngState.enforcementIp;
      ApplyLeaves(bng, c, d);
      FirstDevice(bng, c, d);
      DeviceCurrentIff(id, c, s, SubscriberOf(c.tenant, s).devices[0]);
      LeasedToIff(id, c, s, ip);
    }
  }

  lemma FirstDevice(bng: string, c: Change, d: PolicyData)
    requires RefsKnown(c) && Given(d.assignedIp).None?
    ensures var (_, r) := Apply(bng, c, d);
            r.Ok? && r.value.subscriberId !in c.tenant.radiusSessions ==>
              var devices := SubscriberOf(c.tenant, r.value.subscriberId).devices;
              devices != [] && r.value.bngState.enforcementIp == devices[0].ipAddress
  {
  }

  // ---------------------------------------------------------------- whole runs

  /** The lease a request asks for, if it is accepted. */
  function Asked(r: Request, id: string): Option<Lease> {
    if r.tenantId == id && r.op.LeaseUp? then UpsertLeaseOf(r.op.lease) else None
  }

  function UpsertLeaseOf(d: LeaseData): Option<Lease> {
    if Given(d.macAddress).None? || Given(d.subscriberId).None? || Given(d.ipAddress).None? then None
    else Some(Lease(d.subscriberId.value, Lower(d.macAddress.value), d.ipAddress.value, Given(d.hostname)))
  }

  /** The last accepted request for an address. */
  function LastLease(requests: seq<Request>, id: string, mac: string): Option<Lease> {
    if requests == [] then None
    else
      var asked := Asked(requests[|requests| - 1], id);
      if asked.Some? && asked.value.macAddress == mac then asked
      else LastLease(requests[..|requests| - 1], id, mac)
  }

  /** The last accepted request for an address and a subscriber. */
  function LastLeaseFor(requests: seq<Request>, id: string, s: string, mac: string): Option<Lease> {
    if requests == [] then None
    else
      var asked := Asked(requests[|requests| - 1], id);
      if asked.Some? && asked.value.macAddress == mac && asked.value.subscriberId == s then asked
      else LastLeaseFor(requests[..|requests| - 1], id, s, mac)
  }

  /** What one request does to the index and to a device list. */
  lemma LeaseStep(bng: string, id: string, c: Change, op: Op, s: string, mac: string, l: Lease)
    requires RefsKnown(c) && Core(id, c)
    ensures var t, n := c.tenant, RunOp(id, bng, c, op).tenant;
            var asked := Asked(Request(id, op), id);
            && (if asked.Some? && asked.value.macAddress == mac
                then mac in n.dhcpLeasesByMac && n.dhcpLeasesByMac[mac] == asked.value
                else (mac in n.dhcpLeasesByMac <==> mac in t.dhcpLeasesByMac)
                     && (mac in t.dhcpLeasesByMac ==> n.dhcpLeasesByMac[mac] == t.dhcpLeasesByMac[mac]))
            && (l in SubscriberOf(n, s).devices
                <==> if asked.Some? && asked.value.macAddress == l.macAddress && asked.value.subscriberId == s
                     then l == asked.value else l in SubscriberOf(t, s).devices)
  {
    var asked := Asked(Request(id, op), id);
    if asked.Some? {
      WithDeviceMeans(SubscriberOf(c.tenant, asked.value.subscriberId).devices, asked.value);
    } else {
      ListsKept(bng, id, c, op, s);
    }
  }

  lemma ListsKept(bng: string, id: string, c: Change, op: Op, s: string)
    requires RefsKnown(c) && Asked(Request(id, op), id).None?
    ensures var t, n := c.tenant, RunOp(id, bng, c, op).tenant;
            n.dhcpLeasesByMac == t.dhcpLeasesByMac && SubscriberOf(n, s).devices == SubscriberOf(t, s).devices
  {
    match op
    case SessionUp(d) => SessionKeepsLists(id, bng, c, d, s);
    case SessionStop(u) => StopKeepsLists(c, u, s);
    case LeaseUp(d) => assert UpsertLease(c, d).0 == c;
    case PolicyUp(d) =>
      ApplyBase(bng, c, d);
      ResolveKeepsLists(c, d, s);
    case Look(u) => ResolveKeepsLists(c, LookData(u), s);
  }

  lemma SessionKeepsLists(id: string, bng: string, c: Change, d: SessionData, s: string)
    ensures var t, n := c.tenant, UpsertSession(id, bng, c, d).0.tenant;
            n.dhcpLeasesByMac == t.dhcpLeasesByMac && SubscriberOf(n, s).devices == SubscriberOf(t, s).devices
  {
  }

  lemma StopKeepsLists(c: Change, u: string, s: string)
    requires RefsKnown(c)
    ensures var t, n := c.tenant, StopSession(c, u).0.tenant;
            n.dhcpLeasesByMac == t.dhcpLeasesByMac && SubscriberOf(n, s).devices == SubscriberOf(t, s).devices
  {
  }

  lemma ResolveKeepsLists(c: Change, d: PolicyData, s: string)
    requires RefsKnown(c)
    ensures var t, n := c.tenant, Resolve(c, d).0.tenant;
            n.dhcpLeasesByMac == t.dhcpLeasesByMac && SubscriberOf(n, s) == SubscriberOf(t, s)
  {
  }

  /** After any run the index holds the last lease of each address, and the device list of a subscriber the last lease
      of each address to that subscriber. */
  lemma {:induction false} LeasesAreLast(bng: string, requests: seq<Request>, id: string, s: string, mac: string, l: Lease)
    ensures var t := TenantOf(Serve(bng, requests), id);
            && (if mac in t.dhcpLeasesByMac then Some(t.dhcpLeasesByMac[mac]) else None) == LastLease(requests, id, mac)
            && (l in SubscriberOf(t, s).devices <==> LastLeaseFor(requests, id, s, l.macAddress) == Some(l))
  {
    if requests != [] {
      var front, last := requests[..|requests| - 1], requests[|requests| - 1];
      var st := Serve(bng, front);
      LeasesAreLast(bng, front, id, s, mac, l);
      AlwaysAgree(bng, front);
      if last.tenantId == id {
        EmptyAgrees(id, st.sessions);
        LeaseStep(bng, id, View(st, id), last.op, s, mac, l);
      }
    }
  }

  /** A device of a subscriber is out of date exactly if the last accepted lease request for its address named someone
      else. */
  lemma StaleIff(bng: string, requests: seq<Request>, id: string, s: string, l: Lease)
    requires l in SubscriberOf(TenantOf(Serve(bng, requests), id), s).devices
    ensures var t := TenantOf(Serve(bng, requests), id);
            var last := LastLease(requests, id, l.macAddress);
            && last.Some? && l.macAddress in t.dhcpLeasesByMac
            && (t.dhcpLeasesByMac[l.macAddress] != l <==> last.value.subscriberId != s)
  {
    var st := Serve(bng, requests);
    AlwaysAgree(bng, requests);
    EmptyAgrees(id, st.sessions);
    DeviceCurrentIff(id, View(st, id), s, l);
    LeasesAreLast(bng, requests, id, s, l.macAddress, l);
  }

  /** That happens: the address moves to another subscriber with another IP address, the first one's policy is then
      enforced at the IP address it no longer has. */
  lemma MovedLeaseLingers()
    ensures var up := (s: string, ip: string) => LeaseUp(LeaseData(Some("aa"), Some(s), Some(ip), None));
            var c1 := RunOp("isp", "bng", Change(EMPTY, []), up("ann", "1"));
            var c2 := RunOp("isp", "bng", c1, up("bob", "2"));
            && Resolution(c2, "ann", LookData("ann")).enforcementIp == Some("1") && !LeasedTo(c2.tenant, "ann", "1")
  {
    assert Lower("aa") == "aa";
  }
}
