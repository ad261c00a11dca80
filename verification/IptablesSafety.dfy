/** The iptables filter chain never turns against the gateway's own management address: for which runs, and on which
    hosts. */
module IptablesSafety {
  import opened Options
  import opened Policy
  import opened Signature
  import opened SignatureSound
  import opened ManagementGuard
  import opened Netfilter
  import opened IptablesRules
  import opened IptablesMeaning
  import opened IptablesRuns

  // ---------------------------------------------------------------- firewall rules name targets only

  lemma TargetRuleAddress(t: Target, quicGlobal: bool, ipv6: bool, r: Rule, a: nat)
    requires r in TargetRules(t, quicGlobal, ipv6) && SrcIs(a) in r.matches
    ensures AddressOf(t, ipv6) == Some(a)
  {
    if r in VpnRules(t, ipv6) {
      VpnRuleAddress(t, ipv6, r, a);
    } else {
      assert r in BlockRules(t, ipv6) || r in QuicRules(t, ipv6);
    }
  }

  lemma VpnRuleAddress(t: Target, ipv6: bool, r: Rule, a: nat)
    requires r in VpnRules(t, ipv6) && SrcIs(a) in r.matches
    ensures AddressOf(t, ipv6) == Some(a)
  {
  }

  lemma {:induction false} ChainAddress(ts: seq<Target>, quicGlobal: bool, ipv6: bool, r: Rule, a: nat)
    requires r in BlockChain(ts, quicGlobal, ipv6) && SrcIs(a) in r.matches
    ensures exists t :: t in ts && AddressOf(t, ipv6) == Some(a)
  {
    if r in TargetRules(ts[0], quicGlobal, ipv6) {
      TargetRuleAddress(ts[0], quicGlobal, ipv6, r, a);
      assert ts[0] in ts;
    } else {
      ChainAddress(ts[1..], quicGlobal, ipv6, r, a);
      var t :| t in ts[1..] && AddressOf(t, ipv6) == Some(a);
      assert t in ts;
    }
  }

  /** No rule of the live filter chain names a protected address as its device. */
  predicate ChainSafe(rs: Ruleset, staticIps: set<nat>, detectedIp: Option<nat>) {
    GtBlock in rs.filter ==>
      forall r :: r in rs.filter[GtBlock] ==>
        forall m :: m in r.matches && m.SrcIs? ==> !IsProtected(staticIps, detectedIp, Some(m.addr))
  }

  /** A live ruleset that was written for inputs with the same signature as guarded ones is safe, even if it was
      written in an earlier cycle and only skipped in this one. */
  lemma SkippedChainSafe(rs: Ruleset, live: Inputs, input: Inputs, reputation: seq<nat>,
                         staticIps: set<nat>, detectedIp: Option<nat>, all: seq<Target>)
    requires Deployed(rs, live, reputation) && SummaryOf(live) == SummaryOf(input)
    requires input.targets == Safe(staticIps, detectedIp, all) && !input.enableIpv6
    ensures ChainSafe(rs, staticIps, detectedIp)
  {
    DeployedChains(rs, live, reputation);
    SameSummarySameRules(live, input);
    forall r, m | r in rs.filter[GtBlock] && m in r.matches && m.SrcIs?
      ensures !IsProtected(staticIps, detectedIp, Some(m.addr))
    {
      assert r in multiset(ChainOf(live));
      assert r in ChainOf(input);
      ChainAddress(input.targets, input.enableQuicBlockGlobal, false, r, m.addr);
      var t :| t in input.targets && AddressOf(t, false) == Some(m.addr);
      SafeMembers(staticIps, detectedIp, all, t);
    }
  }

  // ---------------------------------------------------------------- whole runs

  /** After every normal return of a run whose last targets passed the guard, rebuilt or skipped, the chain is safe,
      whatever was protected in earlier cycles, unless a rollback was lost and nothing was rebuilt since. */
  lemma ReturnSafe(s: Family, cycles: seq<Cycle>, reputation: seq<nat>, faults: set<nat>,
                   staticIps: set<nat>, detectedIp: Option<nat>, all: seq<Target>)
    requires HasBuiltins(s.rules) && Faithful(s, reputation)
    requires cycles != [] && Returned(s, cycles, reputation, faults) && !Lost(s, cycles, reputation, faults)
    requires var input := cycles[|cycles| - 1].input;
             input.targets == Safe(staticIps, detectedIp, all) && !input.enableIpv6
    ensures ChainSafe(After(s, cycles, reputation, faults).rules, staticIps, detectedIp)
  {
    var live := ReturnDeployed(s, cycles, reputation, faults);
    SkippedChainSafe(After(s, cycles, reputation, faults).rules, live, cycles[|cycles| - 1].input, reputation,
                     staticIps, detectedIp, all);
  }

  /** Every cycle of the run is given what the guard lets through in it. */
  predicate Guarded(cycles: seq<Cycle>, staticIps: set<nat>, seen: seq<Sighting>) {
    |seen| == |cycles| && forall i :: 0 <= i < |cycles| ==> cycles[i].input.targets == seen[i].Passed(staticIps)
  }

  /** If the run ends with a normal return, no protected address is named. */
  predicate EndsSafe(s: Family, cycles: seq<Cycle>, reputation: seq<nat>, faults: set<nat>, staticIps: set<nat>,
                     seen: seq<Sighting>)
    requires |seen| == |cycles|
  {
    cycles != [] && Returned(s, cycles, reputation, faults) ==>
      ChainSafe(After(s, cycles, reputation, faults).rules, staticIps, seen[|seen| - 1].detectedIp)
  }

  /** Every guarded IPv4 run from every start ends safely on a host with these tools. */
  ghost predicate SafeHost(saves: bool, restores: bool) {
    forall s: Family, cycles: seq<Cycle>, reputation: seq<nat>, faults: set<nat>, doh: bool, dns: bool,
           staticIps: set<nat>, seen: seq<Sighting> ::
      && Startable(s, doh, dns) && Fixed(cycles, doh, dns, false) && OnHost(cycles, saves, restores)
      && Guarded(cycles, staticIps, seen)
      ==> EndsSafe(s, cycles, reputation, faults, staticIps, seen)
  }

  lemma RollbackKeepsSafe()
    ensures SafeHost(true, true)
  {
    forall s: Family, cycles: seq<Cycle>, reputation: seq<nat>, faults: set<nat>, doh: bool, dns: bool,
           staticIps: set<nat>, seen: seq<Sighting> |
      && Startable(s, doh, dns) && Fixed(cycles, doh, dns, false) && OnHost(cycles, true, true)
      && Guarded(cycles, staticIps, seen)
      ensures EndsSafe(s, cycles, reputation, faults, staticIps, seen)
    {
      NothingLost(s, cycles, reputation, faults);
      if cycles != [] && Returned(s, cycles, reputation, faults) {
        var last := seen[|seen| - 1];
        ReturnSafe(s, cycles, reputation, faults, staticIps, last.detectedIp, last.all);
      }
    }
  }

  // ---------------------------------------------------------------- when the rollback is lost

  /** Both devices blocked, the rule of `first` before that of `then_`. */
  function BlockTwo(first: nat, then_: nat): Inputs {
    BlockOnly(first).(targets := BlockOnly(first).targets + BlockOnly(then_).targets)
  }

  lemma BlockTwoScript(first: nat, then_: nat)
    ensures Script(BlockTwo(first, then_), [])
            == Script(BlockOnly(first), []) + [Must(Append(Filter, GtBlock, BlockIpRule("d", then_)))]
  {
    var t, u := BlockOnly(first).targets[0], BlockOnly(then_).targets[0];
    var ts := BlockTwo(first, then_).targets;
    BlockOnlyChain(first);
    BlockOnlyChain(then_);
    assert ts == [t, u] && ts[1..] == [u] && [u][1..] == [] && [t][1..] == [];
    assert TargetRules(t, false, false) + [] == TargetRules(t, false, false);
    assert TargetRules(u, false, false) + [] == TargetRules(u, false, false);
    AppendsConcat(Filter, GtBlock, [BlockIpRule("d", first)], [BlockIpRule("d", then_)]);
    BlockOnlyScript(first);
  }

  lemma BlockTwoDiffers()
    ensures SummaryOf(BlockOnly(1)) != SummaryOf(BlockTwo(2, 1))
  {
    assert |SummaryOf(BlockOnly(1)).targets| == 1 && |SummaryOf(BlockTwo(2, 1)).targets| == 2;
  }

  /** Over the live policy that blocks device 1, the script for devices 2 and 1 is stopped by the failure of call 7,
      with the rule of device 2 written. */
  lemma SecondStops(rs: Ruleset)
    requires Deployed(rs, BlockOnly(1), [])
    ensures var o := RunSteps(rs, Script(BlockTwo(2, 1), []), 4, {7});
            !o.ok && GtBlock in o.rules.filter && o.rules.filter[GtBlock] == [BlockIpRule("d", 2)]
  {
    var last := Must(Append(Filter, GtBlock, BlockIpRule("d", 1)));
    BlockTwoScript(2, 1);
    BlockOnlyScript(2);
    DeployedChains(rs, BlockOnly(1), []);
    FourSteps(rs, Script(BlockOnly(2), []), 4, {7});
    var o := RunSteps(rs, Script(BlockOnly(2), []), 4, {7});
    RunStepsConcat(rs, Script(BlockOnly(2), []), [last], 4, {7});
    RunStepsSingle(o.rules, last, o.clock, {7});
  }

  const NOTHING := Family(EMPTY_RULES, 0, None)

  lemma LostRollbackLeaves(a: Cycle, b: Cycle)
    requires a.input == BlockOnly(1) && b.input == BlockTwo(2, 1) && !b.tools.Work()
    ensures var end := After(NOTHING, [a, b, a], [], {7});
            && Returned(NOTHING, [a, b, a], [], {7})
            && GtBlock in end.rules.filter && end.rules.filter[GtBlock] == [BlockIpRule("d", 2)]
  {
    var s := NOTHING;
    ThreeCycles(s, a, b, a, [], {7});
    BlockOnlyFirst(1, {7});
    ScriptRebuilds(EMPTY_RULES, BlockOnly(1), [], 0, {7});
    RebuiltDeployed(EMPTY_RULES, BlockOnly(1), []);
    BlockTwoDiffers();
    SecondStops(SyncFamily(s, a, [], {7}).state.rules);
  }

  /** What the guard sees in that run: the backend names device 1, then both, and goes on naming both when the address
      of device 2 turns out to be the gateway's own. */
  function Sightings(): seq<Sighting> {
    [Sighting(None, BlockOnly(1).targets), Sighting(None, BlockTwo(2, 1).targets), Sighting(Some(2), BlockTwo(2, 1).targets)]
  }

  lemma SightingsPass(cycles: seq<Cycle>)
    requires |cycles| == 3 && cycles[0].input == cycles[2].input == BlockOnly(1) && cycles[1].input == BlockTwo(2, 1)
    ensures Guarded(cycles, {}, Sightings())
  {
    var t, u := BlockOnly(1).targets[0], BlockOnly(2).targets[0];
    assert BlockTwo(2, 1).targets == [u, t] && [u, t][1..] == [t] && [t][1..] == [];
    assert Safe({}, None, [t]) == [t] && Safe({}, None, [u, t]) == [u, t] && Safe({}, Some(2), [t]) == [t];
    assert Safe({}, Some(2), [u, t]) == [t];
  }

  lemma NamesProtected(rs: Ruleset)
    requires GtBlock in rs.filter && rs.filter[GtBlock] == [BlockIpRule("d", 2)]
    ensures !ChainSafe(rs, {}, Some(2))
  {
    var r := BlockIpRule("d", 2);
    assert r in rs.filter[GtBlock] && r.matches[0] in r.matches && r.matches[0] == SrcIs(2);
  }

  lemma OneHost(a: Cycle, b: Cycle, saves: bool, restores: bool)
    requires a == Cycle(BlockOnly(1), Tools(saves, restores)) && b == Cycle(BlockTwo(2, 1), Tools(saves, restores))
    ensures Fixed([a, b, a], false, false, false) && OnHost([a, b, a], saves, restores)
  {
    assert forall c :: c in [a, b, a] ==> c == a || c == b;
  }

  lemma EndsOnGateway(a: Cycle, b: Cycle)
    requires a.input == BlockOnly(1) && b.input == BlockTwo(2, 1) && !b.tools.Work()
    ensures !EndsSafe(NOTHING, [a, b, a], [], {7}, {}, Sightings())
  {
    LostRollbackLeaves(a, b);
    NamesProtected(After(NOTHING, [a, b, a], [], {7}).rules);
  }

  /** Policy {1} is applied; policy {2, 1} fails after the rule of device 2 and is not undone; then address 2 becomes
      protected, the guarded policy is {1} again and skipped, and the rule against the gateway is live. */
  lemma LostRollbackTurnsOnGateway(saves: bool, restores: bool) returns (cycles: seq<Cycle>)
    requires !(saves && restores)
    ensures |cycles| == 3 && Guarded(cycles, {}, Sightings())
    ensures Fixed(cycles, false, false, false) && OnHost(cycles, saves, restores)
    ensures Startable(NOTHING, false, false)
    ensures !EndsSafe(NOTHING, cycles, [], {7}, {}, Sightings())
  {
    var a, b := Cycle(BlockOnly(1), Tools(saves, restores)), Cycle(BlockTwo(2, 1), Tools(saves, restores));
    cycles := [a, b, a];
    EmptyStartable();
    SightingsPass(cycles);
    OneHost(a, b, saves, restores);
    EndsOnGateway(a, b);
  }

  lemma RollbackNeededForSafety(saves: bool, restores: bool)
    requires !(saves && restores)
    ensures !SafeHost(saves, restores)
  {
    var cycles := LostRollbackTurnsOnGateway(saves, restores);
  }

  /** Guarded firewall cycles never leave a rule against a protected address, over all runs and all failing commands,
      exactly on hosts where both iptables-save and iptables-restore work. */
  lemma SafeIffRollbackWorks(saves: bool, restores: bool)
    ensures SafeHost(saves, restores) <==> saves && restores
  {
    if saves && restores {
      RollbackKeepsSafe();
    } else {
      RollbackNeededForSafety(saves, restores);
    }
  }
}
