/** What applying a policy does, in the words of the request: what is accepted, where it is enforced, what is recorded,
    and what a BNG that runs the commands then does. */
module IspPolicy {
  import opened Options
  import opened IspStore
  import opened IspConsistency

  predicate Known(action: Option<string>) {
    action in {Some("BLOCK"), Some("ALLOW"), Some("THROTTLE")}
  }

  // ---------------------------------------------------------------- whether it is accepted

  /** A text that is there and not empty. */
  predicate HasText(o: Option<string>) {
    o.Some? && o.value != ""
  }

  /** There is an address to enforce at: of the session, of the request or of the first device. */
  predicate HasAddress(c: Change, s: string, d: PolicyData)
    requires RefsKnown(c)
  {
    var devices := SubscriberOf(c.tenant, s).devices;
    || (s in c.tenant.radiusSessions && c.sessions[c.tenant.radiusSessions[s]].assignedIp != "")
    || HasText(d.assignedIp)
    || (devices != [] && devices[0].ipAddress != "")
  }

  /** An application succeeds exactly for a known subscriber with an address to enforce at and one of the three
      actions; if it throws, neither policies nor BNG states have changed. */
  lemma ApplyIff(bng: string, c: Change, d: PolicyData)
    requires RefsKnown(c)
    ensures var (n, r) := Apply(bng, c, d);
            var who := WhoIs(c.tenant, d);
            && (r.Ok? <==> who.Some? && HasAddress(c, who.value, d) && Known(d.action))
            && (r.Err? ==> n.tenant.policies == c.tenant.policies && n.tenant.bngState == c.tenant.bngState)
  {
    var who := WhoIs(c.tenant, d);
    if who.Some? {
      assert Resolve(c, d).1.value.subscriberId == who.value;
    }
  }

  /** Whether it succeeds or throws, sessions and leases stay, and the subscribers but for a new one, who has nothing. */
  lemma ApplyLeaves(bng: string, c: Change, d: PolicyData)
    requires RefsKnown(c)
    ensures var (n, who) := (Apply(bng, c, d).0, WhoIs(c.tenant, d));
            && n.sessions == c.sessions && n.tenant.radiusSessions == c.tenant.radiusSessions
            && n.tenant.dhcpLeasesByMac == c.tenant.dhcpLeasesByMac
            && n.tenant.subscribers
               == if who.None? || who.value in c.tenant.subscribers then c.tenant.subscribers
                  else c.tenant.subscribers[who.value := Subscriber(None, [])]
  {
    var who := WhoIs(c.tenant, d);
    if who.Some? && who.value in c.tenant.subscribers {
      var subs := c.tenant.subscribers;
      assert subs[who.value := subs[who.value]] == subs;
    }
  }

  /** A subscriber is the one the request names, or else the one the index has for the address, in lower case. */
  lemma WhoMeans(t: Tenant, d: PolicyData)
    ensures (d.subscriberId.Some? && d.subscriberId.value != "") ==> WhoIs(t, d) == d.subscriberId
    ensures (d.subscriberId.None? || d.subscriberId.value == "") ==>
              forall s :: WhoIs(t, d) == Some(s) <==>
                && s != "" && d.macAddress.Some? && d.macAddress.value != ""
                && exists m :: m in t.dhcpLeasesByMac && t.dhcpLeasesByMac[m].subscriberId == s && InLowerCase(m, d.macAddress.value)
  {
    if d.macAddress.Some? {
      forall m ensures InLowerCase(m, d.macAddress.value) <==> m == Lower(d.macAddress.value) {
        LowerMeans(m, d.macAddress.value);
      }
    }
  }

  /** The same text but for capital letters, each of which stands at its distance from 'a'. */
  predicate InLowerCase(m: string, s: string) {
    |m| == |s| && forall i :: 0 <= i < |s| ==>
      if 'A' <= s[i] <= 'Z' then 'a' <= m[i] && m[i] as int - 'a' as int == s[i] as int - 'A' as int else m[i] == s[i]
  }

  lemma LowerMeans(m: string, s: string)
    ensures InLowerCase(m, s) <==> m == Lower(s)
  {
    if InLowerCase(m, s) {
      forall i | 0 <= i < |s| ensures m[i] == Lower(s)[i] {
      }
    }
  }

  // ---------------------------------------------------------------- where it is enforced

  /** A running session decides where a policy is enforced, whatever address or BNG the request names. */
  lemma SessionDecides(id: string, bng: string, c: Change, d: PolicyData)
    requires Core(id, c) && RefsKnown(c)
    ensures var (n, r) := Apply(bng, c, d);
            r.Ok? && r.value.subscriberId in c.tenant.radiusSessions ==>
              var x := c.sessions[c.tenant.radiusSessions[r.value.subscriberId]];
              && r.value.bngState.enforcementIp == x.assignedIp
              && (x.bngId != "" ==> r.value.bngState.bngId == x.bngId)
              && r.value.bngState.publicIp == Given(x.publicIp)
  {
  }

  /** A session that is reported and then a policy for its subscriber: it is enforced at the address, BNG and CGNAT ports
      the session report gave. */
  lemma SessionThenPolicy(id: string, bng: string, c: Change, up: SessionData, d: PolicyData)
    requires RefsKnown(c) && bng != ""
    requires HasText(up.subscriberId) && HasText(up.assignedIp) && d.subscriberId == up.subscriberId && Known(d.action)
    ensures var c1 := UpsertSession(id, bng, c, up).0;
            && RefsKnown(c1) && |c1.sessions| == |c.sessions| + 1
            && (c1.sessions[|c.sessions|].active <==> up.active != Some(false)) && !c1.sessions[|c.sessions|].stopped
            && var r := Apply(bng, c1, d).1;
            && r.Ok? && r.value.subscriberId == up.subscriberId.value
            && r.value.bngState.enforcementIp == up.assignedIp.value
            && r.value.bngState.bngId == (if HasText(up.bngId) then up.bngId.value else bng)
            && r.value.bngState.publicIp == (if HasText(up.publicIp) then up.publicIp else None)
            && r.value.bngState.cgnat == (if HasText(up.publicIp)
                                          then Some(Cgnat(up.publicIp.value, up.cgnatPortStart, up.cgnatPortEnd)) else None)
  {
    var c1 := UpsertSession(id, bng, c, up).0;
    assert WhoIs(c1.tenant, d) == up.subscriberId;
  }

  /** Without a session: the address and BNG the request names, or else the first device's address and the default BNG. */
  lemma NoSessionThenPolicy(bng: string, c: Change, d: PolicyData)
    requires RefsKnown(c)
    ensures var r := Apply(bng, c, d).1;
            r.Ok? && r.value.subscriberId !in c.tenant.radiusSessions ==>
              var devices := SubscriberOf(c.tenant, r.value.subscriberId).devices;
              && (HasText(d.assignedIp) ==> r.value.bngState.enforcementIp == d.assignedIp.value)
              && (!HasText(d.assignedIp) ==> devices != [] && r.value.bngState.enforcementIp == devices[0].ipAddress)
              && r.value.bngState.bngId == (if HasText(d.bngId) then d.bngId.value else bng)
              && r.value.bngState.publicIp == None && r.value.bngState.cgnat == None
  {
  }

  /** A session report is refused exactly without a subscriber or an address, and a lease report exactly without a
      hardware address, a subscriber or an IP address; a refused one changes nothing. */
  lemma RefusedIff(id: string, bng: string, c: Change, up: SessionData, lease: LeaseData)
    ensures var (n, r) := UpsertSession(id, bng, c, up);
            (r.Err? <==> !HasText(up.subscriberId) || !HasText(up.assignedIp)) && (r.Err? ==> n == c)
    ensures var (n, r) := UpsertLease(c, lease);
            && (r.Err? <==> !HasText(lease.macAddress) || !HasText(lease.subscriberId) || !HasText(lease.ipAddress))
            && (r.Err? ==> n == c)
  {
  }

  /** Stopping a subscriber's session takes it out of both maps and marks it inactive and stopped; every other session
      and subscriber stays. Without a session nothing happens. */
  lemma StopMeans(id: string, c: Change, s: string)
    requires Core(id, c) && RefsKnown(c)
    ensures var (n, r) := StopSession(c, s);
            && (s !in c.tenant.radiusSessions ==> n == c && r == None)
            && (s in c.tenant.radiusSessions ==>
                  var ref := c.tenant.radiusSessions[s];
                  && r == Some(ref) && s !in n.tenant.radiusSessions
                  && s in n.tenant.subscribers && n.tenant.subscribers[s].activeSession == None
                  && n.tenant.subscribers[s].devices == c.tenant.subscribers[s].devices
                  && |n.sessions| == |c.sessions| && !n.sessions[ref].active && n.sessions[ref].stopped
                  && n.sessions[ref].subscriberId == s
                  && (forall i :: 0 <= i < |c.sessions| && i != ref ==> n.sessions[i] == c.sessions[i])
                  && (forall u :: u != s ==>
                        && (u in n.tenant.radiusSessions <==> u in c.tenant.radiusSessions)
                        && (u in c.tenant.radiusSessions ==> n.tenant.radiusSessions[u] == c.tenant.radiusSessions[u])
                        && SubscriberOf(n.tenant, u) == SubscriberOf(c.tenant, u)))
  {
  }

  // ---------------------------------------------------------------- what is recorded and what the box does

  /** What a BNG holds: blackhole routes, and per subscriber a filter, a QoS profile, a rate and a DNS policy. */
  datatype Box = Box(routes: set<string>, filters: map<string, string>, profiles: map<string, string>,
                     rates: map<string, string>, dns: map<string, Action>)

  function Run(b: Box, c: Command): Box {
    match c
    case AddBlackhole(ip) => b.(routes := b.routes + {ip})
    case DelBlackhole(ip) => b.(routes := b.routes - {ip})
    case FilterId(s, name) => b.(filters := b.filters[s := name])
    case QosProfile(s, name) => b.(profiles := b.profiles[s := name])
    case QosRate(s, rate) => b.(rates := b.rates[s := rate])
    case QosClear(s) => b.(rates := b.rates - {s})
    case DnsPolicy(s, a) => b.(dns := b.dns[s := a])
  }

  /** What a box has after it ran the commands. */
  function Replay(b: Box, cs: seq<Command>): Box
    decreases |cs|
  {
    if cs == [] then b else Replay(Run(b, cs[0]), cs[1..])
  }

  lemma ReplayThree(b: Box, c0: Command, c1: Command, c2: Command)
    ensures Replay(b, [c0, c1, c2]) == Run(Run(Run(b, c0), c1), c2)
  {
    assert [c0, c1, c2][1..] == [c1, c2] && [c1, c2][1..] == [c2] && [c2][1..] == [];
    var b1 := Run(b, c0);
    assert Replay(b, [c0, c1, c2]) == Replay(b1, [c1, c2]);
    assert Replay(b1, [c1, c2]) == Replay(Run(b1, c1), [c2]);
  }

  lemma ReplayFour(b: Box, c0: Command, c1: Command, c2: Command, c3: Command)
    ensures Replay(b, [c0, c1, c2, c3]) == Run(Run(Run(Run(b, c0), c1), c2), c3)
  {
    assert [c0, c1, c2, c3][1..] == [c1, c2, c3];
    ReplayThree(Run(b, c0), c1, c2, c3);
  }

  /** What the action the request names makes of a box, for a subscriber at an address. */
  predicate Enforced(before: Box, after: Box, action: string, s: string, ip: string) {
    && (action == "BLOCK" ==>
          after == before.(routes := before.routes + {ip}, filters := before.filters[s := "guardtime-block"],
                           dns := before.dns[s := BLOCK]))
    && (action == "THROTTLE" ==>
          after == before.(profiles := before.profiles[s := "guardtime-1kbit"], rates := before.rates[s := "1kbit"],
                           dns := before.dns[s := THROTTLE]))
    && (action == "ALLOW" ==>
          after == before.(routes := before.routes - {ip}, filters := before.filters[s := "default"],
                           rates := before.rates - {s}, dns := before.dns[s := ALLOW]))
  }

  /** What is recorded of the action the request names. */
  predicate Recorded(st: BngState, action: string) {
    && (st.blackhole <==> action == "BLOCK")
    && (action == "BLOCK" ==> st.action == st.dnsPolicy == BLOCK && st.qosProfile == "guardtime-blackhole")
    && (action == "THROTTLE" ==> st.action == st.dnsPolicy == THROTTLE && st.qosProfile == "guardtime-1kbit")
    && (action == "ALLOW" ==> st.action == st.dnsPolicy == ALLOW && st.qosProfile == "default")
  }

  lemma CommandsEnforce(b: Box, s: string, ip: string, a: Action, action: string)
    requires NormalizeAction(Some(action)) == Some(a)
    ensures Enforced(b, Replay(b, VendorCommands(s, ip, a)), action, s, ip)
  {
    var cs := VendorCommands(s, ip, a);
    if a.ALLOW? {
      ReplayFour(b, cs[0], cs[1], cs[2], cs[3]);
    } else {
      ReplayThree(b, cs[0], cs[1], cs[2]);
    }
  }

  lemma NewStateMeans(bng: string, r: Resolved, a: Action, action: string, reason: Option<string>, box: Box)
    requires r.enforcementIp.Some? && NormalizeAction(Some(action)) == Some(a)
    ensures var st := NewState(bng, r, a, reason);
            && st.subscriberId == r.subscriberId && Recorded(st, action)
            && Enforced(box, Replay(box, st.vendorCommands), action, st.subscriberId, st.enforcementIp)
  {
    CommandsEnforce(box, r.subscriberId, r.enforcementIp.value, a, action);
  }

  /** An accepted application records the action the request names, for its subscriber and at the address it is enforced
      at, and any box that runs the commands does just what that action says and nothing else. */
  lemma AppliedMeans(bng: string, c: Change, d: PolicyData, box: Box)
    requires RefsKnown(c)
    ensures var (n, r) := Apply(bng, c, d);
            r.Ok? ==>
              var st := r.value.bngState;
              && Known(d.action) && r.value.action == d.action.value && st.subscriberId == r.value.subscriberId
              && Recorded(st, d.action.value)
              && st.reason == r.value.reason == (if HasText(d.reason) then d.reason else None)
              && (if HasText(d.macAddress) then r.value.deviceScope.Some? && InLowerCase(r.value.deviceScope.value, d.macAddress.value)
                  else r.value.deviceScope == None)
              && Enforced(box, Replay(box, st.vendorCommands), d.action.value, st.subscriberId, st.enforcementIp)
              && st.subscriberId in n.tenant.policies && n.tenant.policies[st.subscriberId] == r.value
  {
    var who := WhoIs(c.tenant, d);
    if who.Some? {
      var r, a := Resolution(c, who.value, d), NormalizeAction(d.action);
      if r.enforcementIp.Some? && a.Some? {
        NewStateMeans(bng, r, a.value, d.action.value, d.reason, box);
        if HasText(d.macAddress) {
          LowerMeans(Lower(d.macAddress.value), d.macAddress.value);
        }
      }
    }
  }

  /** The recorded `blackhole` is what a box that runs the commands has for the address, except when a throttle
      follows a block: its commands do not take the route away. */
  lemma RouteAsRecordedIff(bng: string, c: Change, d: PolicyData, box: Box)
    requires RefsKnown(c) && Apply(bng, c, d).1.Ok?
    ensures var st := Apply(bng, c, d).1.value.bngState;
            (st.blackhole <==> st.enforcementIp in Replay(box, st.vendorCommands).routes)
            <==> !(d.action == Some("THROTTLE") && st.enforcementIp in box.routes)
  {
    AppliedMeans(bng, c, d, box);
  }
}
