/** management-guard.js: the single choke point that keeps enforcement away from the gateway's own address. */
module ManagementGuard {
  import opened Options
  import opened Policy

  predicate IsProtected(staticIps: set<nat>, detectedIp: Option<nat>, ip: Option<nat>) {
    ip.Some? && (ip.value in staticIps || detectedIp == ip)
  }

  /** The targets enforcement may touch, in order. */
  function Safe(staticIps: set<nat>, detectedIp: Option<nat>, ts: seq<Target>): seq<Target> {
    if ts == [] then []
    else if IsProtected(staticIps, detectedIp, ts[0].ipAddress) then Safe(staticIps, detectedIp, ts[1..])
    else [ts[0]] + Safe(staticIps, detectedIp, ts[1..])
  }

  /** Exactly the unprotected targets survive. */
  lemma {:induction false} SafeMembers(staticIps: set<nat>, detectedIp: Option<nat>, ts: seq<Target>, t: Target)
    ensures t in Safe(staticIps, detectedIp, ts) <==> t in ts && !IsProtected(staticIps, detectedIp, t.ipAddress)
  {
    if ts != [] {
      SafeMembers(staticIps, detectedIp, ts[1..], t);
      assert t in ts <==> t == ts[0] || t in ts[1..];
    }
  }

  /** The guard's list, spelled out: the targets in order, without those whose IPv4 address is on the operator's list or is
      the one detected as the gateway's own. */
  lemma {:induction false} SafeMeans(staticIps: set<nat>, detectedIp: Option<nat>, a: seq<Target>, t: Target, b: seq<Target>)
    ensures Safe(staticIps, detectedIp, a + [t] + b)
            == Safe(staticIps, detectedIp, a)
               + (if t.ipAddress.Some? && (t.ipAddress.value in staticIps || detectedIp == Some(t.ipAddress.value)) then [] else [t])
               + Safe(staticIps, detectedIp, b)
    ensures Safe(staticIps, detectedIp, []) == []
  {
    if a == [] {
      assert a + [t] + b == [t] + b && ([t] + b)[1..] == b;
    } else {
      assert (a + [t] + b)[0] == a[0] && (a + [t] + b)[1..] == a[1..] + [t] + b;
      SafeMeans(staticIps, detectedIp, a[1..], t, b);
    }
  }

  lemma {:induction false} SafeLength(staticIps: set<nat>, detectedIp: Option<nat>, ts: seq<Target>)
    ensures |Safe(staticIps, detectedIp, ts)| <= |ts|
  {
    if ts != [] {
      SafeLength(staticIps, detectedIp, ts[1..]);
    }
  }

  /** What one cycle meets: the gateway's own address as last detected and the targets the backend names. */
  datatype Sighting = Sighting(detectedIp: Option<nat>, all: seq<Target>) {
    /** What the guard lets through. */
    function Passed(staticIps: set<nat>): seq<Target> {
      Safe(staticIps, detectedIp, all)
    }
  }

  class Guard {
    const staticIps: set<nat>
    var detectedIp: Option<nat>

    constructor (staticIps: set<nat>)
      ensures this.staticIps == staticIps && detectedIp == None
    {
      this.staticIps, detectedIp := staticIps, None;
    }

    /** `probe` is the address the route lookup showed, if it worked and showed one; otherwise the old one stays. */
    method Refresh(probe: Option<nat>) returns (ip: Option<nat>)
      modifies this
      ensures detectedIp == (if probe.Some? then probe else old(detectedIp)) && ip == detectedIp
    {
      if probe.Some? {
        detectedIp := probe;
      }
      ip := detectedIp;
    }

    predicate IsProtectedIp(ip: Option<nat>)
      reads this
    {
      IsProtected(staticIps, detectedIp, ip)
    }

    method FilterTargets(ts: seq<Target>) returns (safe: seq<Target>)
      ensures safe == Safe(staticIps, detectedIp, ts)
    {
      safe := [];
      assert ts[0..] == ts;
      for i := 0 to |ts|
        invariant Safe(staticIps, detectedIp, ts) == safe + Safe(staticIps, detectedIp, ts[i..])
      {
        assert ts[i..][1..] == ts[i + 1..];
        if !IsProtectedIp(ts[i].ipAddress) {
          safe := safe + [ts[i]];
        }
      }
    }
  }
}
