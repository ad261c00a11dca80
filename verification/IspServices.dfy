/** The adapter's objects. They share one store and change its maps in place; each method is the operation of the
    same name on the tenant it names. */
module IspServices {
  import opened Options
  import opened IspStore

  class TenantStore {
    var tenants: map<string, Tenant>
    var sessions: seq<Session>

    constructor ()
      ensures State() == Store(map[], [])
    {
      tenants, sessions := map[], [];
    }

    function State(): Store
      reads this
    {
      Store(tenants, sessions)
    }

    method GetTenant(id: string) returns (t: Tenant)
      modifies this
      ensures State() == With(old(State()), id, View(old(State()), id)) && t == TenantOf(old(State()), id)
    {
      if id !in tenants { tenants := tenants[id := EMPTY]; }
      t := tenants[id];
      assert tenants == tenants[id := t];
    }
  }

  /** The record of a subscriber is made if it is missing. */
  method EnsureSubscriber(tenant: Tenant, id: string) returns (t: Tenant)
    ensures t == tenant.(subscribers := tenant.subscribers[id := SubscriberOf(tenant, id)])
  {
    t := tenant;
    if id !in t.subscribers {
      t := t.(subscribers := t.subscribers[id := Subscriber(None, [])]);
    }
    assert t.subscribers == t.subscribers[id := t.subscribers[id]];
  }

  lemma UpdateTwice<K, V>(m: map<K, V>, k: K, v: V, w: V)
    ensures m[k := v][k := w] == m[k := w]
  {
  }

  lemma WithTwice(st: Store, id: string, c: Change, d: Change)
    ensures View(With(st, id, c), id) == c
    ensures With(With(st, id, c), id, d) == With(st, id, d)
  {
    UpdateTwice(st.tenants, id, c.tenant, d.tenant);
  }

  class RadiusService {
    const store: TenantStore
    const defaultBngId: string

    constructor (store: TenantStore, defaultBngId: string)
      ensures this.store == store && this.defaultBngId == defaultBngId
    {
      this.store, this.defaultBngId := store, defaultBngId;
    }

    /** A request that lacks a field is refused, but only after its tenant has been looked up. */
    method UpsertSession(tenantId: string, d: SessionData) returns (r: Result<Ref>)
      modifies store
      ensures var before := old(store.State());
              var (c, answer) := IspStore.UpsertSession(tenantId, defaultBngId, View(before, tenantId), d);
              store.State() == With(before, tenantId, c) && r == answer
    {
      var t := store.GetTenant(tenantId);
      if Given(d.subscriberId).None? { return Err("subscriberId is required"); }
      if Given(d.assignedIp).None? { return Err("assignedIp is required"); }
      var id, ref := d.subscriberId.value, |store.sessions|;
      ghost var before := t;
      store.sessions := store.sessions + [NewSession(tenantId, defaultBngId, d)];
      t := t.(radiusSessions := t.radiusSessions[id := ref]);
      t := EnsureSubscriber(t, id);
      UpdateTwice(before.subscribers, id, SubscriberOf(before, id), t.subscribers[id].(activeSession := Some(ref)));
      t := t.(subscribers := t.subscribers[id := t.subscribers[id].(activeSession := Some(ref))]);
      UpdateTwice(old(store.tenants), tenantId, before, t);
      store.tenants := store.tenants[tenantId := t];
      return Ok(ref);
    }

    method StopSession(tenantId: string, id: string) returns (stopped: Option<Ref>)
      requires AllRefsKnown(store.State())
      modifies store
      ensures var before := old(store.State());
              var (c, answer) := IspStore.StopSession(View(before, tenantId), id);
              store.State() == With(before, tenantId, c) && stopped == answer
    {
      var t := store.GetTenant(tenantId);
      if id !in t.radiusSessions { return None; }
      var ref := t.radiusSessions[id];
      store.sessions := store.sessions[ref := store.sessions[ref].(active := false, stopped := true)];
      ghost var before := t;
      t := t.(radiusSessions := t.radiusSessions - {id});
      t := EnsureSubscriber(t, id);
      UpdateTwice(before.subscribers, id, SubscriberOf(before, id), t.subscribers[id].(activeSession := None));
      t := t.(subscribers := t.subscribers[id := t.subscribers[id].(activeSession := None)]);
      UpdateTwice(old(store.tenants), tenantId, before, t);
      store.tenants := store.tenants[tenantId := t];
      return Some(ref);
    }
  }

  class DhcpService {
    const store: TenantStore

    constructor (store: TenantStore)
      ensures this.store == store
    {
      this.store := store;
    }

    method UpsertLease(tenantId: string, d: LeaseData) returns (r: Result<Lease>)
      modifies store
      ensures var before := old(store.State());
              var (c, answer) := IspStore.UpsertLease(View(before, tenantId), d);
              store.State() == With(before, tenantId, c) && r == answer
    {
      var t := store.GetTenant(tenantId);
      if Given(d.macAddress).None? { return Err("macAddress is required"); }
      var mac := Lower(d.macAddress.value);
      if Given(d.subscriberId).None? { return Err("subscriberId is required"); }
      if Given(d.ipAddress).None? { return Err("ipAddress is required"); }
      var id := d.subscriberId.value;
      var lease := Lease(id, mac, d.ipAddress.value, Given(d.hostname));
      ghost var before := t;
      t := t.(dhcpLeasesByMac := t.dhcpLeasesByMac[mac := lease]);
      t := EnsureSubscriber(t, id);
      var devices := SetDevice(t.subscribers[id].devices, lease);
      UpdateTwice(before.subscribers, id, SubscriberOf(before, id), t.subscribers[id].(devices := devices));
      t := t.(subscribers := t.subscribers[id := t.subscribers[id].(devices := devices)]);
      UpdateTwice(old(store.tenants), tenantId, before, t);
      store.tenants := store.tenants[tenantId := t];
      return Ok(lease);
    }
  }

  /** A device with another address stays in front. */
  lemma WithDeviceSkips(devices: seq<Lease>, i: nat, lease: Lease)
    requires i < |devices| && devices[i].macAddress != lease.macAddress
    ensures devices[..i] + WithDevice(devices[i..], lease) == devices[..i + 1] + WithDevice(devices[i + 1..], lease)
  {
    assert devices[i..][1..] == devices[i + 1..];
    Regrouped(devices[..i], devices[i], WithDevice(devices[i + 1..], lease));
    assert devices[..i + 1] == devices[..i] + [devices[i]];
  }

  lemma Regrouped(a: seq<Lease>, l: Lease, b: seq<Lease>)
    ensures a + ([l] + b) == (a + [l]) + b
  {
  }

  /** Setting a key of a map that remembers the order of its keys. */
  method SetDevice(devices: seq<Lease>, lease: Lease) returns (r: seq<Lease>)
    ensures r == WithDevice(devices, lease)
  {
    var i := 0;
    while i < |devices| && devices[i].macAddress != lease.macAddress
      invariant 0 <= i <= |devices|
      invariant WithDevice(devices, lease) == devices[..i] + WithDevice(devices[i..], lease)
    {
      WithDeviceSkips(devices, i, lease);
      i := i + 1;
    }
    if i < |devices| {
      assert devices[i..][1..] == devices[i + 1..];
      r := devices[..i] + [lease] + devices[i + 1..];
    } else {
      r := devices + [lease];
    }
  }

  class SubscriberResolver {
    const store: TenantStore

    constructor (store: TenantStore)
      ensures this.store == store
    {
      this.store := store;
    }

    method Resolve(tenantId: string, d: PolicyData) returns (r: Result<Resolved>)
      requires AllRefsKnown(store.State())
      modifies store
      ensures var before := old(store.State());
              var (c, answer) := IspStore.Resolve(View(before, tenantId), d);
              store.State() == With(before, tenantId, c) && r == answer
    {
      var t := store.GetTenant(tenantId);
      var who := WhoIs(t, d);
      if who.None? { return Err("subscriberId is required or must be resolvable from macAddress"); }
      r := Ok(Resolution(Change(t, store.sessions), who.value, d));
      ghost var before := t;
      t := EnsureSubscriber(t, who.value);
      UpdateTwice(old(store.tenants), tenantId, before, t);
      store.tenants := store.tenants[tenantId := t];
    }
  }

  class BngController {
    const store: TenantStore
    const defaultBngId: string

    constructor (store: TenantStore, defaultBngId: string)
      ensures this.store == store && this.defaultBngId == defaultBngId
    {
      this.store, this.defaultBngId := store, defaultBngId;
    }

    method ApplyPolicy(tenantId: string, r: Resolved, d: PolicyData) returns (answer: Result<BngState>)
      requires tenantId in store.tenants
      modifies store
      ensures var before := old(store.State());
              var (c, a) := IspStore.ApplyPolicy(defaultBngId, View(before, tenantId), r, d);
              store.State() == With(before, tenantId, c) && answer == a
    {
      assert store.tenants == store.tenants[tenantId := store.tenants[tenantId]];
      if r.enforcementIp.None? { return Err("No enforceable IP for subscriber " + r.subscriberId); }
      var t := store.GetTenant(tenantId);
      var key := BngKey(OrElse(r.bngId, defaultBngId), r.subscriberId);
      var action := NormalizeAction(d.action);
      if action.None? { return Err("action must be BLOCK, ALLOW, or THROTTLE"); }
      var state := NewState(defaultBngId, r, action.value, d.reason);
      t := t.(bngState := t.bngState[key := state]);
      store.tenants := store.tenants[tenantId := t];
      return Ok(state);
    }
  }

  class PolicyEngine {
    const store: TenantStore
    const resolver: SubscriberResolver
    const bngController: BngController

    constructor (store: TenantStore, resolver: SubscriberResolver, bngController: BngController)
      requires resolver.store == store && bngController.store == store
      ensures this.store == store && this.resolver == resolver && this.bngController == bngController
    {
      this.store, this.resolver, this.bngController := store, resolver, bngController;
    }

    method Apply(tenantId: string, d: PolicyData) returns (r: Result<Policy>)
      requires resolver.store == store && bngController.store == store
      requires AllRefsKnown(store.State())
      modifies store
      ensures var before := old(store.State());
              var (c, answer) := IspStore.Apply(bngController.defaultBngId, View(before, tenantId), d);
              store.State() == With(before, tenantId, c) && r == answer
    {
      ghost var before := store.State();
      var resolved := resolver.Resolve(tenantId, d);
      ghost var c1 := IspStore.Resolve(View(before, tenantId), d).0;
      if resolved.Err? { return Err(resolved.message); }
      var state := bngController.ApplyPolicy(tenantId, resolved.value, d);
      ghost var c2 := IspStore.ApplyPolicy(bngController.defaultBngId, c1, resolved.value, d).0;
      WithTwice(before, tenantId, c1, c2);
      assert store.State() == With(before, tenantId, c2);
      if state.Err? { return Err(state.message); }
      var t := store.GetTenant(tenantId);
      WithTwice(before, tenantId, c2, c2);
      var policy := NewPolicy(d, resolved.value, state.value);
      t := t.(policies := t.policies[resolved.value.subscriberId := policy]);
      WithTwice(before, tenantId, c2, Change(t, store.sessions));
      store.tenants := store.tenants[tenantId := t];
      return Ok(policy);
    }
  }
}
