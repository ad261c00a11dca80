/** What the ISP adapter's maps agree on after any sequence of operations, failed ones included, and that tenants never
    see one another. */
module IspConsistency {
  import opened Options
  import opened IspStore

  // ---------------------------------------------------------------- one tenant

  /** The session table and the subscribers name the same sessions, and each is a running session of its own
      subscriber, made for this tenant. */
  ghost predicate SessionsAgree(id: string, c: Change) {
    && (forall s :: s in c.tenant.radiusSessions ==>
          && s in c.tenant.subscribers && c.tenant.subscribers[s].activeSession == Some(c.tenant.radiusSessions[s])
          && c.tenant.radiusSessions[s] < |c.sessions|
          && var x := c.sessions[c.tenant.radiusSessions[s]];
             x.tenantId == id && x.subscriberId == s && x.assignedIp != "" && !x.stopped)
    && (forall s :: s in c.tenant.subscribers && c.tenant.subscribers[s].activeSession.Some? ==>
          s in c.tenant.radiusSessions)
  }

  /** Every lease of the address index is filed under its address and is a device of its own subscriber. */
  ghost predicate LeasesAgree(t: Tenant) {
    forall m :: m in t.dhcpLeasesByMac ==>
      var l := t.dhcpLeasesByMac[m];
      l.macAddress == m && l.subscriberId in t.subscribers && l in t.subscribers[l.subscriberId].devices
  }

  predicate Distinct(devices: seq<Lease>) {
    forall i, j :: 0 <= i < j < |devices| ==> devices[i].macAddress != devices[j].macAddress
  }

  /** The device lists are maps: no address twice. */
  ghost predicate DevicesDistinct(t: Tenant) {
    forall s :: s in t.subscribers ==> Distinct(t.subscribers[s].devices)
  }

  /** A device was leased to its subscriber; it is the lease the index holds, unless the address has since been
      leased to someone else. */
  ghost predicate DevicesKnown(t: Tenant) {
    forall s, l :: s in t.subscribers && l in t.subscribers[s].devices ==>
      && l.subscriberId == s && l.ipAddress != "" && l.macAddress in t.dhcpLeasesByMac
      && (t.dhcpLeasesByMac[l.macAddress].subscriberId == s ==> t.dhcpLeasesByMac[l.macAddress] == l)
  }

  ghost predicate Core(id: string, c: Change) {
    SessionsAgree(id, c) && LeasesAgree(c.tenant) && DevicesDistinct(c.tenant) && DevicesKnown(c.tenant)
  }

  // ---------------------------------------------------------------- each operation

  lemma SessionUpAgrees(id: string, bng: string, c: Change, d: SessionData)
    requires Core(id, c)
    ensures Core(id, UpsertSession(id, bng, c, d).0)
  {
    if Given(d.subscriberId).Some? && Given(d.assignedIp).Some? {
      var n := UpsertSession(id, bng, c, d).0;
      var s := d.subscriberId.value;
      assert n.tenant.subscribers[s].devices == SubscriberOf(c.tenant, s).devices;
    }
  }

  lemma SessionStopAgrees(id: string, c: Change, s: string)
    requires Core(id, c) && RefsKnown(c)
    ensures Core(id, StopSession(c, s).0)
  {
    if s in c.tenant.radiusSessions {
      var n := StopSession(c, s).0;
      var ref := c.tenant.radiusSessions[s];
      forall u | u in n.tenant.radiusSessions
        ensures c.tenant.radiusSessions[u] != ref
      {
        assert c.sessions[c.tenant.radiusSessions[u]].subscriberId == u && c.sessions[ref].subscriberId == s;
      }
      assert n.tenant.subscribers[s].devices == SubscriberOf(c.tenant, s).devices;
    }
  }

  lemma {:induction false} WithDeviceMeans(devices: seq<Lease>, lease: Lease)
    requires Distinct(devices)
    ensures var n := WithDevice(devices, lease);
            && Distinct(n) && lease in n
            && (forall l :: l in n <==> l == lease || (l in devices && l.macAddress != lease.macAddress))
  {
    if devices != [] {
      var rest := devices[1..];
      assert devices == [devices[0]] + rest;
      if devices[0].macAddress == lease.macAddress {
        assert forall l :: l in rest ==> l.macAddress != lease.macAddress;
      } else {
        WithDeviceMeans(rest, lease);
        assert forall l :: l in rest ==> l.macAddress != devices[0].macAddress;
      }
    }
  }

  /** A tenant after a lease was written, before and after seen as maps only. */
  function Leased(t: Tenant, lease: Lease): Tenant {
    var s := SubscriberOf(t, lease.subscriberId);
    t.(dhcpLeasesByMac := t.dhcpLeasesByMac[lease.macAddress := lease],
       subscribers := t.subscribers[lease.subscriberId := s.(devices := WithDevice(s.devices, lease))])
  }

  lemma LeasedAgrees(t: Tenant, lease: Lease)
    requires LeasesAgree(t) && DevicesDistinct(t)
    ensures LeasesAgree(Leased(t, lease)) && DevicesDistinct(Leased(t, lease))
  {
    WithDeviceMeans(SubscriberOf(t, lease.subscriberId).devices, lease);
  }

  lemma LeasedKnown(t: Tenant, lease: Lease)
    requires DevicesDistinct(t) && DevicesKnown(t) && lease.ipAddress != ""
    ensures DevicesKnown(Leased(t, lease))
  {
    WithDeviceMeans(SubscriberOf(t, lease.subscriberId).devices, lease);
  }

  lemma LeaseUpAgrees(id: string, c: Change, d: LeaseData)
    requires Core(id, c)
    ensures Core(id, UpsertLease(c, d).0)
  {
    if Given(d.macAddress).Some? && Given(d.subscriberId).Some? && Given(d.ipAddress).Some? {
      var n := UpsertLease(c, d).0;
      var lease := Lease(d.subscriberId.value, Lower(d.macAddress.value), d.ipAddress.value, Given(d.hostname));
      LeasedAgrees(c.tenant, lease);
      LeasedKnown(c.tenant, lease);
      assert n.tenant == Leased(c.tenant, lease) && SessionsAgree(id, n);
    }
  }

  lemma ResolveAgrees(id: string, c: Change, d: PolicyData)
    requires Core(id, c) && RefsKnown(c)
    ensures Core(id, Resolve(c, d).0)
  {
    var who := WhoIs(c.tenant, d);
    if who.Some? {
      var n := Resolve(c, d).0;
      assert n.tenant.subscribers[who.value] == SubscriberOf(c.tenant, who.value);
    }
  }

  /** The parts of a tenant other than its policies and BNG states. */
  predicate SameBase(a: Change, b: Change) {
    && a.sessions == b.sessions && a.tenant.subscribers == b.tenant.subscribers
    && a.tenant.radiusSessions == b.tenant.radiusSessions && a.tenant.dhcpLeasesByMac == b.tenant.dhcpLeasesByMac
  }

  lemma ApplyPolicyBase(bng: string, c: Change, r: Resolved, d: PolicyData)
    ensures SameBase(c, ApplyPolicy(bng, c, r, d).0)
  {
  }

  /** Beyond what resolving writes, applying a policy writes policies and BNG states only. */
  lemma ApplyBase(bng: string, c: Change, d: PolicyData)
    requires RefsKnown(c)
    ensures SameBase(Resolve(c, d).0, Apply(bng, c, d).0)
  {
    var (c1, resolved) := Resolve(c, d);
    if resolved.Ok? {
      ApplyPolicyBase(bng, c1, resolved.value, d);
    }
  }

  lemma CoreOfBase(id: string, a: Change, b: Change)
    requires SameBase(a, b) && Core(id, a)
    ensures Core(id, b)
  {
  }

  lemma PolicyUpAgrees(id: string, bng: string, c: Change, d: PolicyData)
    requires Core(id, c) && RefsKnown(c)
    ensures Core(id, Apply(bng, c, d).0)
  {
    ResolveAgrees(id, c, d);
    ApplyBase(bng, c, d);
    CoreOfBase(id, Resolve(c, d).0, Apply(bng, c, d).0);
  }

  lemma RunOpAgrees(id: string, bng: string, c: Change, op: Op)
    requires Core(id, c) && RefsKnown(c)
    ensures Core(id, RunOp(id, bng, c, op))
  {
    match op
    case SessionUp(d) => SessionUpAgrees(id, bng, c, d);
    case SessionStop(s) => SessionStopAgrees(id, c, s);
    case LeaseUp(d) => LeaseUpAgrees(id, c, d);
    case PolicyUp(d) => PolicyUpAgrees(id, bng, c, d);
    case Look(s) => ResolveAgrees(id, c, LookData(s));
  }

  // ---------------------------------------------------------------- all tenants

  /** Session objects are only added, and only those made for this tenant are changed. */
  ghost predicate OwnSessionsOnly(id: string, before: seq<Session>, after: seq<Session>) {
    && |before| <= |after|
    && (forall i :: 0 <= i < |before| ==> after[i].tenantId == before[i].tenantId)
    && (forall i :: 0 <= i < |before| && before[i].tenantId != id ==> after[i] == before[i])
    && (forall i :: |before| <= i < |after| ==> after[i].tenantId == id)
  }

  lemma RunOpOwn(id: string, bng: string, c: Change, op: Op)
    requires SessionsAgree(id, c) && RefsKnown(c)
    ensures OwnSessionsOnly(id, c.sessions, RunOp(id, bng, c, op).sessions)
  {
    if op.PolicyUp? {
      ApplyBase(bng, c, op.policy);
      assert Resolve(c, op.policy).0.sessions == c.sessions;
    }
  }

  ghost predicate AllAgree(st: Store) {
    forall id :: id in st.tenants ==> Core(id, View(st, id))
  }

  lemma EmptyAgrees(id: string, sessions: seq<Session>)
    ensures Core(id, Change(EMPTY, sessions))
  {
  }

  /** The sessions of other tenants are where they were, so those tenants still agree. */
  lemma OthersAgree(id: string, other: string, t: Tenant, before: seq<Session>, after: seq<Session>)
    requires other != id && Core(other, Change(t, before)) && OwnSessionsOnly(id, before, after)
    ensures Core(other, Change(t, after))
  {
    assert SessionsAgree(other, Change(t, after));
  }

  lemma StepAgrees(bng: string, st: Store, id: string, op: Op)
    requires AllAgree(st) && AllRefsKnown(st)
    ensures AllAgree(Step(bng, st, id, op))
  {
    var c := View(st, id);
    EmptyAgrees(id, st.sessions);
    RunOpAgrees(id, bng, c, op);
    RunOpOwn(id, bng, c, op);
    var n := Step(bng, st, id, op);
    forall other | other in n.tenants ensures Core(other, View(n, other)) {
      if other != id { OthersAgree(id, other, st.tenants[other], st.sessions, n.sessions); }
    }
  }

  /** An operation on one tenant leaves every other as it was: its maps, and the session objects made for it. */
  lemma TenantsIsolated(bng: string, st: Store, id: string, op: Op, other: string)
    requires AllAgree(st) && AllRefsKnown(st) && other != id
    ensures var n := Step(bng, st, id, op);
            && (other in n.tenants <==> other in st.tenants) && TenantOf(n, other) == TenantOf(st, other)
            && |st.sessions| <= |n.sessions|
            && forall i :: 0 <= i < |st.sessions| && st.sessions[i].tenantId == other ==> n.sessions[i] == st.sessions[i]
  {
    EmptyAgrees(id, st.sessions);
    RunOpOwn(id, bng, View(st, id), op);
  }

  // ---------------------------------------------------------------- whole runs

  lemma RunOpKnown(id: string, bng: string, c: Change, op: Op)
    requires RefsKnown(c)
    ensures RefsKnown(RunOp(id, bng, c, op)) && |c.sessions| <= |RunOp(id, bng, c, op).sessions|
  {
  }

  lemma StepKnown(bng: string, st: Store, id: string, op: Op)
    requires AllRefsKnown(st)
    ensures AllRefsKnown(Step(bng, st, id, op))
  {
    var c := View(st, id);
    assert RefsKnown(c);
    RunOpKnown(id, bng, c, op);
    var r := RunOp(id, bng, c, op);
    forall other | other in Step(bng, st, id, op).tenants
      ensures RefsKnown(View(Step(bng, st, id, op), other))
    {
      if other != id { assert RefsKnown(View(st, other)); }
    }
  }

  datatype Request = Request(tenantId: string, op: Op)

  function Serve(bng: string, requests: seq<Request>): (st: Store)
    ensures AllRefsKnown(st)
  {
    if requests == [] then Store(map[], [])
    else
      var st, last := Serve(bng, requests[..|requests| - 1]), requests[|requests| - 1];
      StepKnown(bng, st, last.tenantId, last.op);
      Step(bng, st, last.tenantId, last.op)
  }

  /** After any sequence of requests, failed ones among them, the maps of every tenant agree with one another. */
  lemma {:induction false} AlwaysAgree(bng: string, requests: seq<Request>)
    ensures AllAgree(Serve(bng, requests))
  {
    if requests != [] {
      var front, last := requests[..|requests| - 1], requests[|requests| - 1];
      AlwaysAgree(bng, front);
      StepAgrees(bng, Serve(bng, front), last.tenantId, last.op);
    }
  }

  /** In particular the session table and the subscribers never part, in either direction. */
  lemma SessionsNeverPart(bng: string, requests: seq<Request>, id: string, s: string)
    ensures var t := TenantOf(Serve(bng, requests), id);
            SubscriberOf(t, s).activeSession == if s in t.radiusSessions then Some(t.radiusSessions[s]) else None
  {
    AlwaysAgree(bng, requests);
  }

  /** Requests to other tenants, any number of them, leave a tenant's maps and its session objects as they were. */
  lemma {:induction false} RunsIsolated(bng: string, a: seq<Request>, b: seq<Request>, other: string)
    requires forall r :: r in b ==> r.tenantId != other
    ensures var before, after := Serve(bng, a), Serve(bng, a + b);
            && (other in after.tenants <==> other in before.tenants) && TenantOf(after, other) == TenantOf(before, other)
            && |before.sessions| <= |after.sessions|
            && forall i :: 0 <= i < |before.sessions| && before.sessions[i].tenantId == other ==>
                 after.sessions[i] == before.sessions[i]
    decreases |b|
  {
    if b == [] {
      assert a + b == a;
    } else {
      var front, last := b[..|b| - 1], b[|b| - 1];
      assert (a + b)[..|a + b| - 1] == a + front && (a + b)[|a + b| - 1] == last && last in b;
      RunsIsolated(bng, a, front, other);
      AlwaysAgree(bng, a + front);
      TenantsIsolated(bng, Serve(bng, a + front), last.tenantId, last.op, other);
    }
  }
}
