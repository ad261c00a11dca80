/** The nftables filter chain never turns against the gateway's own management address. */
module NftSafety {
  import opened Options
  import opened Patterns
  import opened Policy
  import opened Signature
  import opened SignatureSound
  import opened ManagementGuard
  import opened NftRules
  import opened NftRuns
  import opened NftSound

  lemma FamilyAddress(t: Target, ipv6: bool, enableIpv6: bool, extra: seq<Match>, r: Rule, a: nat)
    requires r in FamilyRule(t, ipv6, enableIpv6, extra) && IpSaddr(a) in r.matches && IpSaddr(a) !in extra
    ensures t.ipAddress == Some(a)
  {
  }

  lemma {:induction false} PortsAddress(t: Target, enableIpv6: bool, sigs: seq<PortSignature>, r: Rule, a: nat)
    requires r in VpnPortRules(t, enableIpv6, sigs) && IpSaddr(a) in r.matches
    ensures t.ipAddress == Some(a)
  {
    var extra := [Dport(sigs[0].proto, sigs[0].port)];
    if r in FamilyRule(t, false, enableIpv6, extra) {
      FamilyAddress(t, false, enableIpv6, extra, r, a);
    } else if r in FamilyRule(t, true, enableIpv6, extra) {
      FamilyAddress(t, true, enableIpv6, extra, r, a);
    } else {
      PortsAddress(t, enableIpv6, sigs[1..], r, a);
    }
  }

  lemma {:induction false} RangesAddress(t: Target, ranges: seq<Range>, r: Rule, a: nat)
    requires r in VpnRangeRules(t, ranges) && IpSaddr(a) in r.matches
    ensures t.ipAddress == Some(a)
  {
    var extra := [IpDaddrIn(ranges[0].base, ranges[0].prefix)];
    if r in FamilyRule(t, false, false, extra) {
      FamilyAddress(t, false, false, extra, r, a);
    } else {
      RangesAddress(t, ranges[1..], r, a);
    }
  }

  lemma BlockAddress(t: Target, enableIpv6: bool, r: Rule, a: nat)
    requires r in BlockRules(t, enableIpv6) && IpSaddr(a) in r.matches
    ensures t.ipAddress == Some(a)
  {
    if r in FamilyRule(t, false, enableIpv6, []) {
      FamilyAddress(t, false, enableIpv6, [], r, a);
    } else if r in FamilyRule(t, true, enableIpv6, []) {
      FamilyAddress(t, true, enableIpv6, [], r, a);
    }
  }

  lemma QuicAddress(t: Target, enableIpv6: bool, r: Rule, a: nat)
    requires r in QuicRules(t, enableIpv6) && IpSaddr(a) in r.matches
    ensures t.ipAddress == Some(a)
  {
    if r in FamilyRule(t, false, enableIpv6, [Dport(Udp, 443)]) {
      FamilyAddress(t, false, enableIpv6, [Dport(Udp, 443)], r, a);
    } else {
      FamilyAddress(t, true, enableIpv6, [Dport(Udp, 443)], r, a);
    }
  }

  lemma TargetAddress(t: Target, quicGlobal: bool, enableIpv6: bool, r: Rule, a: nat)
    requires r in TargetRules(t, quicGlobal, enableIpv6) && IpSaddr(a) in r.matches
    ensures t.ipAddress == Some(a)
  {
    if r in BlockRules(t, enableIpv6) {
      BlockAddress(t, enableIpv6, r, a);
    } else if r in QuicRules(t, enableIpv6) {
      QuicAddress(t, enableIpv6, r, a);
    } else if r in VpnPortRules(t, enableIpv6, VPN_PORT_SIGNATURES) {
      PortsAddress(t, enableIpv6, VPN_PORT_SIGNATURES, r, a);
    } else {
      RangesAddress(t, VPN_IP_RANGES, r, a);
    }
  }

  lemma {:induction false} TargetsAddress(ts: seq<Target>, quicGlobal: bool, enableIpv6: bool, r: Rule, a: nat)
    requires r in AllTargetRules(ts, quicGlobal, enableIpv6) && IpSaddr(a) in r.matches
    ensures exists t :: t in ts && t.ipAddress == Some(a)
  {
    if r in TargetRules(ts[0], quicGlobal, enableIpv6) {
      TargetAddress(ts[0], quicGlobal, enableIpv6, r, a);
      assert ts[0] in ts;
    } else {
      TargetsAddress(ts[1..], quicGlobal, enableIpv6, r, a);
      var t :| t in ts[1..] && t.ipAddress == Some(a);
      assert t in ts;
    }
  }

  lemma {:induction false} DotNamesNobody(ports: seq<nat>, r: Rule, a: nat)
    requires r in DotRules(ports)
    ensures IpSaddr(a) !in r.matches
  {
    if r in DotRules(ports[1..]) {
      DotNamesNobody(ports[1..], r, a);
    }
  }

  /** Only the rules of a target name a source address, and they name its own. */
  lemma ChainAddress(input: Inputs, reputation: seq<nat>, r: Rule, a: nat)
    requires r in BlockChain(input, reputation) && IpSaddr(a) in r.matches
    ensures exists t :: t in input.targets && t.ipAddress == Some(a)
  {
    if r in AllTargetRules(input.targets, input.enableQuicBlockGlobal, input.enableIpv6) {
      TargetsAddress(input.targets, input.enableQuicBlockGlobal, input.enableIpv6, r, a);
    } else if r in DotRules(DOT_PORTS) {
      DotNamesNobody(DOT_PORTS, r, a);
    }
  }

  /** No rule of the live filter chain names a protected address as its device. */
  predicate ChainSafe(rs: Ruleset, staticIps: set<nat>, detectedIp: Option<nat>) {
    FilterChain in rs.chains ==>
      forall r :: r in rs.chains[FilterChain] ==>
        forall m :: m in r.matches && m.IpSaddr? ==> !IsProtected(staticIps, detectedIp, Some(m.addr))
  }

  lemma SkippedChainSafe(rs: Ruleset, live: Inputs, input: Inputs, reputation: seq<nat>, configured: Option<nat>,
                         staticIps: set<nat>, detectedIp: Option<nat>, all: seq<Target>)
    requires Deployed(rs, live, reputation, configured) && SummaryOf(live) == SummaryOf(input)
    requires input.targets == Safe(staticIps, detectedIp, all)
    ensures ChainSafe(rs, staticIps, detectedIp)
  {
    DeployedChains(rs, live, reputation, configured);
    SummaryKeepsKeys(live, input);
    forall r, m | r in rs.chains[FilterChain] && m in r.matches && m.IpSaddr?
      ensures !IsProtected(staticIps, detectedIp, Some(m.addr))
    {
      ChainAddress(live, reputation, r, m.addr);
      var t :| t in live.targets && t.ipAddress == Some(m.addr);
      var u := KeyMoves(live.targets, input.targets, t);
      SafeMembers(staticIps, detectedIp, all, u);
    }
  }

  /** After every clean return of a run whose last targets passed the guard, rebuilt or skipped, the chain is safe,
      whatever was protected in earlier cycles. */
  lemma CleanReturnSafe(s: State, cycles: seq<Cycle>, reputation: seq<nat>, configured: Option<nat>, faults: set<nat>,
                        dns4: bool, dns6: bool, staticIps: set<nat>, detectedIp: Option<nat>, all: seq<Target>)
    requires TablesPresent(s.rules) && RedirectsClean(s.rules, dns4, dns6) && s.remembered.None?
    requires Fixed(cycles, configured, dns4, dns6) && cycles != []
    requires Last(s, cycles, reputation, configured, faults).ok && !Dirty(s, cycles, reputation, configured, faults)
    requires cycles[|cycles| - 1].input.targets == Safe(staticIps, detectedIp, all)
    ensures ChainSafe(After(s, cycles, reputation, configured, faults).rules, staticIps, detectedIp)
  {
    var input := cycles[|cycles| - 1].input;
    var live := CleanReturnDeployed(s, cycles, reputation, configured, faults, dns4, dns6);
    SkippedChainSafe(After(s, cycles, reputation, configured, faults).rules, live, input, reputation, configured,
                     staticIps, detectedIp, all);
  }

  // ---------------------------------------------------------------- hosts

  /** Every cycle of the run is given what the guard lets through in it. */
  predicate Guarded(cycles: seq<Cycle>, staticIps: set<nat>, seen: seq<Sighting>) {
    |seen| == |cycles| && forall i :: 0 <= i < |cycles| ==> cycles[i].input.targets == seen[i].Passed(staticIps)
  }

  /** If the run ends with a normal return, no protected address is named. */
  predicate EndsSafe(s: State, cycles: seq<Cycle>, reputation: seq<nat>, configured: Option<nat>, faults: set<nat>,
                     staticIps: set<nat>, seen: seq<Sighting>)
    requires |seen| == |cycles|
  {
    cycles != [] && Last(s, cycles, reputation, configured, faults).ok ==>
      ChainSafe(After(s, cycles, reputation, configured, faults).rules, staticIps, seen[|seen| - 1].detectedIp)
  }

  /** Every guarded run from every start ends safely on a host where only these scripts may fail. */
  ghost predicate SafeHost(mainMayFail: bool, redirectMayFail: bool, saves: bool, restores: bool) {
    forall s: State, cycles: seq<Cycle>, reputation: seq<nat>, configured: Option<nat>, faults: set<nat>, dns4: bool,
           dns6: bool, staticIps: set<nat>, seen: seq<Sighting> ::
      && Startable(s, dns4, dns6) && Fixed(cycles, configured, dns4, dns6) && OnHost(cycles, saves, restores)
      && Confined(s, cycles, reputation, configured, faults, mainMayFail, redirectMayFail)
      && Guarded(cycles, staticIps, seen)
      ==> EndsSafe(s, cycles, reputation, configured, faults, staticIps, seen)
  }

  lemma QuietScriptsSafe(saves: bool, restores: bool)
    ensures SafeHost(false, false, saves, restores)
  {
    forall s: State, cycles: seq<Cycle>, reputation: seq<nat>, configured: Option<nat>, faults: set<nat>, dns4: bool,
           dns6: bool, staticIps: set<nat>, seen: seq<Sighting> |
      && Startable(s, dns4, dns6) && Fixed(cycles, configured, dns4, dns6) && OnHost(cycles, saves, restores)
      && Confined(s, cycles, reputation, configured, faults, false, false) && Guarded(cycles, staticIps, seen)
      ensures EndsSafe(s, cycles, reputation, configured, faults, staticIps, seen)
    {
      NeverDirty(s, cycles, reputation, configured, faults, dns4, dns6);
      if cycles != [] && Last(s, cycles, reputation, configured, faults).ok {
        var last := seen[|seen| - 1];
        CleanReturnSafe(s, cycles, reputation, configured, faults, dns4, dns6, staticIps, last.detectedIp, last.all);
      }
    }
  }

  /** The backend names device 1, then `b`, and then both when the address of device 2 turns out to be the gateway's
      own. */
  function Sightings(b: seq<Target>): seq<Sighting> {
    [Sighting(None, BlockOnly(1).targets), Sighting(None, b), Sighting(Some(2), BlockOnly(1).targets + b)]
  }

  lemma SightingsPass(cycles: seq<Cycle>)
    requires |cycles| == 3 && |cycles[1].input.targets| == 1 && cycles[1].input.targets[0].ipAddress == Some(2)
    requires cycles[0].input.targets == cycles[2].input.targets == BlockOnly(1).targets
    ensures Guarded(cycles, {}, Sightings(cycles[1].input.targets))
  {
    var t, u := BlockOnly(1).targets[0], cycles[1].input.targets[0];
    assert cycles[1].input.targets == [u] && [u][1..] == [] && [t][1..] == [];
    assert [t] + [u] == [t, u] && [t, u][1..] == [u];
    assert Safe({}, None, [t]) == [t] && Safe({}, None, [u]) == [u] && Safe({}, Some(2), [u]) == [];
    assert Safe({}, Some(2), [t, u]) == [t];
  }

  lemma NamesProtected(rs: Ruleset)
    requires FilterChain in rs.chains && FirstBlocks(rs.chains[FilterChain], 2)
    ensures !ChainSafe(rs, {}, Some(2))
  {
    var r := rs.chains[FilterChain][0];
    assert r in rs.chains[FilterChain] && r.matches[0] in r.matches && r.matches[0] == IpSaddr(2);
  }

  /** A sync to a policy that blocks device 2 fails at its second rule; then address 2 becomes protected, the guarded
      policy is the earlier one again and skipped, and the rule against the gateway is live. */
  lemma MainFailureTurnsOnGateway(saves: bool, restores: bool) returns (cycles: seq<Cycle>)
    ensures |cycles| == 3 && Guarded(cycles, {}, Sightings(cycles[1].input.targets))
    ensures Fixed(cycles, None, false, false) && OnHost(cycles, saves, restores)
    ensures Confined(NOTHING, cycles, [], None, {8}, true, false)
    ensures !EndsSafe(NOTHING, cycles, [], None, {8}, {}, Sightings(cycles[1].input.targets))
  {
    cycles := MainFailureCutsOff(saves, restores);
    SightingsPass(cycles);
    NamesProtected(After(NOTHING, cycles, [], None, {8}).rules);
  }

  /** The same after a sync whose IPv6 redirect fails: the chain of that policy stays under the earlier signature. */
  lemma RedirectFailureTurnsOnGateway(saves: bool, restores: bool) returns (cycles: seq<Cycle>)
    ensures |cycles| == 3 && Guarded(cycles, {}, Sightings(cycles[1].input.targets))
    ensures Fixed(cycles, None, false, true) && OnHost(cycles, saves, restores)
    ensures Confined(NOTHING, cycles, [], None, {15}, false, true)
    ensures !EndsSafe(NOTHING, cycles, [], None, {15}, {}, Sightings(cycles[1].input.targets))
  {
    cycles := RedirectFailureFrees(saves, restores);
    SightingsPass(cycles);
    NamesProtected(After(NOTHING, cycles, [], None, {15}).rules);
  }

  lemma QuietScriptsNeededForSafety(mainMayFail: bool, redirectMayFail: bool, saves: bool, restores: bool)
    requires mainMayFail || redirectMayFail
    ensures !SafeHost(mainMayFail, redirectMayFail, saves, restores)
  {
    if mainMayFail {
      var cycles := MainFailureTurnsOnGateway(saves, restores);
      ConfinedLess(NOTHING, cycles, [], None, {8}, true, false, mainMayFail, redirectMayFail);
      assert Startable(NOTHING, false, false);
    } else {
      var cycles := RedirectFailureTurnsOnGateway(saves, restores);
      assert Startable(NOTHING, false, true);
    }
  }

  /** Guarded nftables cycles never leave a rule against a protected address exactly on hosts where neither the main
      script nor the IPv6 redirect can fail; the snapshot tools make no difference. */
  lemma SafeIffNothingFails(mainMayFail: bool, redirectMayFail: bool, saves: bool, restores: bool)
    ensures SafeHost(mainMayFail, redirectMayFail, saves, restores) <==> !mainMayFail && !redirectMayFail
  {
    if mainMayFail || redirectMayFail {
      QuietScriptsNeededForSafety(mainMayFail, redirectMayFail, saves, restores);
    } else {
      QuietScriptsSafe(saves, restores);
    }
  }
}
