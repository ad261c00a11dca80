/** When skipping unchanged policies is sound with nftables: exactly when no call of either script ever fails. */
module NftSound {
  import opened Options
  import opened Patterns
  import opened Policy
  import opened Signature
  import opened SignatureSound
  import opened NftRules
  import opened NftMeaning
  import opened NftRuns

  // ---------------------------------------------------------------- hosts

  function MainRun(s: State, c: Cycle, reputation: seq<nat>, faults: set<nat>): Outcome {
    RunSteps(s.rules, Script(c.input, reputation), s.clock, faults)
  }

  /** The run of the IPv6 redirect, which starts where the main script ended. */
  function RedirectRun(s: State, c: Cycle, reputation: seq<nat>, configured: Option<nat>, faults: set<nat>): Outcome {
    var o := MainRun(s, c, reputation, faults);
    RunSteps(o.rules, Script6(c.input, configured), o.clock, faults)
  }

  /** The calls of this cycle that fail are calls of a script that may fail. */
  predicate CycleConfined(s: State, c: Cycle, reputation: seq<nat>, configured: Option<nat>, faults: set<nat>,
                          mainMayFail: bool, redirectMayFail: bool) {
    var o := MainRun(s, c, reputation, faults);
    || Skipped(s, c)
    || ((mainMayFail || !Faulted(faults, s.clock, o.clock))
        && (redirectMayFail || !o.ok
            || !Faulted(faults, o.clock, RedirectRun(s, c, reputation, configured, faults).clock)))
  }

  predicate Confined(s: State, cycles: seq<Cycle>, reputation: seq<nat>, configured: Option<nat>, faults: set<nat>,
                     mainMayFail: bool, redirectMayFail: bool) {
    cycles == [] ||
    (var init := cycles[..|cycles| - 1];
     && Confined(s, init, reputation, configured, faults, mainMayFail, redirectMayFail)
     && CycleConfined(After(s, init, reputation, configured, faults), cycles[|cycles| - 1], reputation, configured,
                      faults, mainMayFail, redirectMayFail))
  }

  /** The snapshot and the reload of every cycle of the run are as the host's tools allow. */
  predicate OnHost(cycles: seq<Cycle>, saves: bool, restores: bool) {
    forall c :: c in cycles ==> c.tools == Tools(saves, restores)
  }

  /** A normal return at the end of this run enforces its policy. */
  ghost predicate Sound(s: State, cycles: seq<Cycle>, reputation: seq<nat>, configured: Option<nat>, faults: set<nat>) {
    cycles != [] && Last(s, cycles, reputation, configured, faults).ok ==>
      Enforces(After(s, cycles, reputation, configured, faults).rules, cycles[|cycles| - 1].input, reputation, configured)
  }

  predicate Startable(s: State, dns4: bool, dns6: bool) {
    TablesPresent(s.rules) && RedirectsClean(s.rules, dns4, dns6) && s.remembered.None?
  }

  /** Every run from every start is sound on a host where only these scripts may fail. */
  ghost predicate SoundHost(mainMayFail: bool, redirectMayFail: bool, saves: bool, restores: bool) {
    forall s: State, cycles: seq<Cycle>, reputation: seq<nat>, configured: Option<nat>, faults: set<nat>, dns4: bool,
           dns6: bool ::
      && Startable(s, dns4, dns6) && Fixed(cycles, configured, dns4, dns6) && OnHost(cycles, saves, restores)
      && Confined(s, cycles, reputation, configured, faults, mainMayFail, redirectMayFail)
      ==> Sound(s, cycles, reputation, configured, faults)
  }

  // ---------------------------------------------------------------- where nothing fails

  lemma UnfailedComplete(s: State, c: Cycle, reputation: seq<nat>, configured: Option<nat>, faults: set<nat>)
    requires TablesPresent(s.rules) && CycleConfined(s, c, reputation, configured, faults, false, false)
    ensures !Skipped(s, c) ==> Sync(s, c, reputation, configured, faults).complete
  {
    if !Skipped(s, c) {
      var o := MainRun(s, c, reputation, faults);
      ScriptRebuilds(s.rules, c.input, reputation, s.clock, faults);
      Script6Rebuilds(o.rules, c.input, configured, o.clock, faults);
    }
  }

  lemma {:induction false} NeverDirty(s: State, cycles: seq<Cycle>, reputation: seq<nat>, configured: Option<nat>,
                                      faults: set<nat>, dns4: bool, dns6: bool)
    requires Startable(s, dns4, dns6) && Fixed(cycles, configured, dns4, dns6)
    requires Confined(s, cycles, reputation, configured, faults, false, false)
    ensures !Dirty(s, cycles, reputation, configured, faults)
  {
    if cycles != [] {
      var init, c := cycles[..|cycles| - 1], cycles[|cycles| - 1];
      NeverDirty(s, init, reputation, configured, faults, dns4, dns6);
      RunsFaithful(s, init, reputation, configured, faults, dns4, dns6);
      UnfailedComplete(After(s, init, reputation, configured, faults), c, reputation, configured, faults);
    }
  }

  lemma QuietScriptsSuffice(saves: bool, restores: bool)
    ensures SoundHost(false, false, saves, restores)
  {
    forall s: State, cycles: seq<Cycle>, reputation: seq<nat>, configured: Option<nat>, faults: set<nat>, dns4: bool,
           dns6: bool |
      && Startable(s, dns4, dns6) && Fixed(cycles, configured, dns4, dns6) && OnHost(cycles, saves, restores)
      && Confined(s, cycles, reputation, configured, faults, false, false)
      ensures Sound(s, cycles, reputation, configured, faults)
    {
      NeverDirty(s, cycles, reputation, configured, faults, dns4, dns6);
      if cycles != [] && Last(s, cycles, reputation, configured, faults).ok {
        EveryCleanReturnEnforces(s, cycles, reputation, configured, faults, dns4, dns6);
      }
    }
  }

  /** None of the calls a rebuild would make fails. */
  predicate CallsSucceed(s: State, c: Cycle, reputation: seq<nat>, configured: Option<nat>, faults: set<nat>) {
    !Faulted(faults, s.clock, s.clock + |Script(c.input, reputation)| + |Script6(c.input, configured)|)
  }

  lemma ForeseenClean(s: State, c: Cycle, reputation: seq<nat>, configured: Option<nat>, faults: set<nat>)
    requires TablesPresent(s.rules) && (!Skipped(s, c) ==> CallsSucceed(s, c, reputation, configured, faults))
    ensures var r := Sync(s, c, reputation, configured, faults); r.ok && (Skipped(s, c) || r.complete)
  {
    if !Skipped(s, c) {
      QuietSync(s, c, reputation, configured, faults);
    }
  }

  /** What a caller can tell before the call: a call that will be skipped is good when nothing was cut short since the
      last complete rebuild, any other when none of the calls it is about to make fails. */
  lemma ForeseenReturnEnforces(s: State, cycles: seq<Cycle>, c: Cycle, reputation: seq<nat>, configured: Option<nat>,
                               faults: set<nat>, dns4: bool, dns6: bool)
    requires Startable(s, dns4, dns6) && Fixed(cycles + [c], configured, dns4, dns6)
    requires var before := After(s, cycles, reputation, configured, faults);
             if Skipped(before, c) then !Dirty(s, cycles, reputation, configured, faults)
             else CallsSucceed(before, c, reputation, configured, faults)
    ensures var r := Last(s, cycles + [c], reputation, configured, faults);
            r.ok && Enforces(r.state.rules, c.input, reputation, configured)
  {
    var all := cycles + [c];
    var before := After(s, cycles, reputation, configured, faults);
    assert all[..|all| - 1] == cycles && all[|all| - 1] == c;
    assert Fixed(cycles, configured, dns4, dns6) by {
      assert forall d :: d in cycles ==> d in all;
    }
    RunsFaithful(s, cycles, reputation, configured, faults, dns4, dns6);
    ForeseenClean(before, c, reputation, configured, faults);
    EveryCleanReturnEnforces(s, all, reputation, configured, faults, dns4, dns6);
  }

  // ---------------------------------------------------------------- policies and packets that tell

  const NOTHING := State(Ruleset({}, map[]), 0, None)

  /** Blocks its device by address and by MAC address, with two rules. */
  function BlockBoth(addr: nat, mac: string): Inputs {
    var input := BlockOnly(addr);
    input.(targets := [input.targets[0].(macAddress := Some(mac))])
  }

  /** The policy with IPv6 on and its DNS redirected there. */
  function Redirected6(input: Inputs, resolver: nat): Inputs {
    input.(enableIpv6 := true, enableDnsRedirect := true, dnsRedirectIpv6 := Some(resolver))
  }

  function Plain(src: nat): Packet {
    Packet(false, src, 0, "", OtherProto, 0, {})
  }

  lemma OneRule(input: Inputs, addr: nat, enableIpv6: bool)
    requires input.targets == BlockOnly(addr).targets && input.enableIpv6 == enableIpv6
    requires !input.enableQuicBlockGlobal && !input.enableDohBlock
    ensures BlockChain(input, []) == [Rule([IpSaddr(addr)], Drop)]
  {
    var t := input.targets[0];
    assert input.targets[1..] == [];
    assert [IpSaddr(addr)] + [] == [IpSaddr(addr)];
    assert FamilyRule(t, false, enableIpv6, []) == [Rule([IpSaddr(addr)], Drop)];
    assert BlockRules(t, enableIpv6) == [Rule([IpSaddr(addr)], Drop)];
    assert AllTargetRules([], false, enableIpv6) == [];
    assert AllTargetRules(input.targets, false, enableIpv6) == TargetRules(t, false, enableIpv6);
  }

  lemma TwoRules(addr: nat, mac: string)
    ensures BlockChain(BlockBoth(addr, mac), []) == [Rule([IpSaddr(addr)], Drop), Rule([EtherSaddr(mac)], Drop)]
  {
    var t := BlockBoth(addr, mac).targets[0];
    assert BlockBoth(addr, mac).targets[1..] == [];
    assert [IpSaddr(addr)] + [] == [IpSaddr(addr)];
    assert FamilyRule(t, false, false, []) == [Rule([IpSaddr(addr)], Drop)];
    assert BlockRules(t, false) == [Rule([IpSaddr(addr)], Drop), Rule([EtherSaddr(mac)], Drop)];
    assert AllTargetRules([], false, false) == [];
    assert AllTargetRules(BlockBoth(addr, mac).targets, false, false) == TargetRules(t, false, false);
  }

  /** A policy that blocks one address by one rule drops a plain packet exactly if it comes from there. */
  lemma PlainDropped(input: Inputs, addr: nat, src: nat)
    requires input.targets == BlockOnly(addr).targets && !input.enableQuicBlockGlobal && !input.enableDohBlock
    ensures Drops(VisiblePolicy(input), [], Plain(src)) <==> src == addr
  {
    var t := Visible(input.targets[0], input.enableIpv6);
    assert VisiblePolicy(input).targets == [t];
    assert TargetDrops(t, false, Plain(src)) <==> src == addr;
    assert t in [t];
  }

  lemma PlainPasses(addr: nat, src: nat)
    requires src != addr
    ensures ChainWalk([Rule([IpSaddr(addr)], Drop)], Plain(src)) == Pass
  {
    var r := Rule([IpSaddr(addr)], Drop);
    assert r.matches[0] in r.matches && [r][1..] == [];
  }

  /** A chain that disagrees with the policy about one packet shows that it is not enforced. */
  lemma NotEnforced(rs: Ruleset, input: Inputs, reputation: seq<nat>, configured: Option<nat>, p: Packet)
    requires FilterVerdict(rs, p) != if Drops(VisiblePolicy(input), reputation, p) then Dropped else Pass
    ensures !Enforces(rs, input, reputation, configured)
  {
  }

  // ---------------------------------------------------------------- a failing call of the main script

  /** The calls of the run A, B, A in which the second of B's two rules fails: number 8, after A's four. */
  lemma SecondRuleFails(a: Cycle, b: Cycle)
    requires a.input == BlockOnly(1) && b.input == BlockBoth(2, "m")
    ensures var s1 := Sync(NOTHING, a, [], None, {8}).state;
            var o := MainRun(s1, b, [], {8});
            && s1.clock == 4 && TablesPresent(s1.rules) && s1.remembered == Some(SummaryOf(a.input))
            && Sync(NOTHING, a, [], None, {8}).ok && Deployed(s1.rules, a.input, [], None)
            && !o.ok && RulesIn(o.rules, FilterChain) == [Rule([IpSaddr(2)], Drop)]
  {
    var s1 := Sync(NOTHING, a, [], None, {8}).state;
    OneRule(a.input, 1, false);
    TwoRules(2, "m");
    assert |Script(a.input, [])| == 4 && Script6(a.input, None) == [];
    QuietSync(NOTHING, a, [], None, {8});
    SyncFaithful(NOTHING, a, [], None, {8});
    FragmentAfter(s1.rules, b.input, 1, [], 4);
  }

  /** The chain starts with the rule that blocks this address. */
  predicate FirstBlocks(rules: seq<Rule>, addr: nat) {
    rules != [] && rules[0] == Rule([IpSaddr(addr)], Drop)
  }

  /** What that leaves, reloaded or not: the chain starts with B's rule, so device 2 is cut off. */
  lemma FragmentStays(a: Cycle, b: Cycle)
    requires a.input == BlockOnly(1) && b.input == BlockBoth(2, "m")
    ensures var s1 := Sync(NOTHING, a, [], None, {8}).state;
            var r := Sync(s1, b, [], None, {8});
            && !r.ok && r.state.remembered == Some(SummaryOf(a.input))
            && FilterChain in r.state.rules.chains && FirstBlocks(r.state.rules.chains[FilterChain], 2)
  {
    SecondRuleFails(a, b);
    OneKeyDiffers(a.input, b.input);
    var s1 := Sync(NOTHING, a, [], None, {8}).state;
    var r := Sync(s1, b, [], None, {8});
    var first := Rule([IpSaddr(2)], Drop);
    DeployedChains(s1.rules, a.input, [], None);
    if b.tools.Work() {
      RollbackStacks(s1, b, [], None, {8}, FilterChain);
      assert r.state.rules.chains[FilterChain][0] == first;
    }
  }

  lemma FragmentSkipped(a: Cycle, b: Cycle)
    requires a.input == BlockOnly(1) && b.input == BlockBoth(2, "m")
    ensures Last(NOTHING, [a, b, a], [], None, {8}).ok
    ensures var rs := After(NOTHING, [a, b, a], [], None, {8}).rules;
            FilterChain in rs.chains && FirstBlocks(rs.chains[FilterChain], 2)
  {
    FragmentStays(a, b);
    ThreeCycles(NOTHING, a, b, a, [], None, {8});
  }

  lemma FirstDrops(rs: Ruleset, addr: nat)
    requires FilterChain in rs.chains && FirstBlocks(rs.chains[FilterChain], addr)
    ensures FilterVerdict(rs, Plain(addr)) == Dropped
  {
  }

  /** Policy A blocks device 1. A sync to policy B, which blocks device 2 by address and by MAC address, fails at the
      second rule. A comes back and is skipped, and device 2, which A does not mention, stays cut off. */
  lemma MainFailureCutsOff(saves: bool, restores: bool) returns (cycles: seq<Cycle>)
    ensures |cycles| == 3 && cycles[0] == cycles[2]
    ensures cycles[0].input == BlockOnly(1) && cycles[1].input == BlockBoth(2, "m")
    ensures Fixed(cycles, None, false, false) && OnHost(cycles, saves, restores)
    ensures Confined(NOTHING, cycles, [], None, {8}, true, false)
    ensures Last(NOTHING, cycles, [], None, {8}).ok
    ensures var rs := After(NOTHING, cycles, [], None, {8}).rules;
            FilterChain in rs.chains && FirstBlocks(rs.chains[FilterChain], 2)
    ensures !Sound(NOTHING, cycles, [], None, {8})
  {
    var a, b := Cycle(BlockOnly(1), Tools(saves, restores)), Cycle(BlockBoth(2, "m"), Tools(saves, restores));
    cycles := [a, b, a];
    FragmentSkipped(a, b);
    FirstDrops(After(NOTHING, cycles, [], None, {8}).rules, 2);
    PlainDropped(a.input, 1, 2);
    NotEnforced(After(NOTHING, cycles, [], None, {8}).rules, a.input, [], None, Plain(2));
    NoRedirectConfined(NOTHING, cycles, [], None, {8});
  }

  /** Without an IPv6 redirect none of its calls can fail. */
  lemma {:induction false} NoRedirectConfined(s: State, cycles: seq<Cycle>, reputation: seq<nat>, configured: Option<nat>,
                                              faults: set<nat>)
    requires forall c :: c in cycles ==> Script6(c.input, configured) == []
    ensures Confined(s, cycles, reputation, configured, faults, true, false)
  {
    if cycles != [] {
      assert cycles[|cycles| - 1] in cycles;
      NoRedirectConfined(s, cycles[..|cycles| - 1], reputation, configured, faults);
    }
  }

  // ---------------------------------------------------------------- a failing call of the IPv6 redirect

  lemma RedirectedCalls(addr: nat)
    ensures var input := Redirected6(BlockOnly(addr), 9);
            |Script(input, [])| == 4 && |Script6(input, None)| == 5 && Dns6(input, None) && !Dns4(input)
  {
    OneRule(Redirected6(BlockOnly(addr), 9), addr, true);
  }

  /** The first cycle makes calls 0 to 8, all of which succeed. */
  lemma RedirectedFirst(a: Cycle)
    requires a.input == Redirected6(BlockOnly(1), 9)
    ensures var s1 := Sync(NOTHING, a, [], None, {15}).state;
            && s1.clock == 9 && TablesPresent(s1.rules) && s1.remembered == Some(SummaryOf(a.input))
            && CycleConfined(NOTHING, a, [], None, {15}, false, true)
  {
    RedirectedCalls(1);
    QuietRemembers(NOTHING, a, [], None, {15});
    CallsCounted(NOTHING.rules, Script(a.input, []), 0, {15});
  }

  /** In the second, from call 9 on, call 15 is the flush of the IPv6 redirect. */
  lemma RedirectedSecond(s: State, a: Cycle, b: Cycle)
    requires a.input == Redirected6(BlockOnly(1), 9) && b.input == Redirected6(BlockOnly(2), 9)
    requires s.clock == 9 && TablesPresent(s.rules) && s.remembered == Some(SummaryOf(a.input))
    ensures var r := Sync(s, b, [], None, {15});
            && r.state.remembered == s.remembered
            && FilterChain in r.state.rules.chains && r.state.rules.chains[FilterChain] == [Rule([IpSaddr(2)], Drop)]
            && CycleConfined(s, b, [], None, {15}, false, true)
  {
    RedirectedCalls(2);
    OneKeyDiffers(a.input, b.input);
    FlushOf6Fails(s, b, [], None);
    CallsCounted(s.rules, Script(b.input, []), 9, {15});
    OneRule(b.input, 2, true);
  }

  lemma FlushConfined(a: Cycle, b: Cycle)
    requires a.input == Redirected6(BlockOnly(1), 9) && b.input == Redirected6(BlockOnly(2), 9)
    ensures Confined(NOTHING, [a, b, a], [], None, {15}, false, true)
    ensures Last(NOTHING, [a, b, a], [], None, {15}).ok
    ensures var rs := After(NOTHING, [a, b, a], [], None, {15}).rules;
            FilterChain in rs.chains && rs.chains[FilterChain] == [Rule([IpSaddr(2)], Drop)]
  {
    RedirectedFirst(a);
    RedirectedSecond(Sync(NOTHING, a, [], None, {15}).state, a, b);
    ThreeCycles(NOTHING, a, b, a, [], None, {15});
    ConfinedThrice(NOTHING, a, b, a, [], None, {15}, false, true);
  }

  lemma ConfinedThrice(s: State, a: Cycle, b: Cycle, c: Cycle, reputation: seq<nat>, configured: Option<nat>,
                       faults: set<nat>, mainMayFail: bool, redirectMayFail: bool)
    requires CycleConfined(s, a, reputation, configured, faults, mainMayFail, redirectMayFail)
    requires var s1 := Sync(s, a, reputation, configured, faults).state;
             var s2 := Sync(s1, b, reputation, configured, faults).state;
             && CycleConfined(s1, b, reputation, configured, faults, mainMayFail, redirectMayFail)
             && CycleConfined(s2, c, reputation, configured, faults, mainMayFail, redirectMayFail)
    ensures Confined(s, [a, b, c], reputation, configured, faults, mainMayFail, redirectMayFail)
  {
    assert [a, b, c][..2] == [a, b] && [a, b][..1] == [a] && [a][..0] == [];
    assert After(s, [], reputation, configured, faults) == s;
    assert After(s, [a], reputation, configured, faults) == Sync(s, a, reputation, configured, faults).state;
    assert Confined(s, [a], reputation, configured, faults, mainMayFail, redirectMayFail);
    assert Confined(s, [a, b], reputation, configured, faults, mainMayFail, redirectMayFail);
  }

  /** Policy A blocks device 1, policy B device 2, both with an IPv6 redirect. B's redirect fails, A comes back and is
      skipped, and device 1 is free. */
  lemma RedirectFailureFrees(saves: bool, restores: bool) returns (cycles: seq<Cycle>)
    ensures |cycles| == 3 && cycles[0] == cycles[2]
    ensures cycles[0].input == Redirected6(BlockOnly(1), 9) && cycles[1].input == Redirected6(BlockOnly(2), 9)
    ensures Fixed(cycles, None, false, true) && OnHost(cycles, saves, restores)
    ensures Confined(NOTHING, cycles, [], None, {15}, false, true)
    ensures Last(NOTHING, cycles, [], None, {15}).ok
    ensures var rs := After(NOTHING, cycles, [], None, {15}).rules;
            FilterChain in rs.chains && FirstBlocks(rs.chains[FilterChain], 2)
    ensures !Sound(NOTHING, cycles, [], None, {15})
  {
    var a := Cycle(Redirected6(BlockOnly(1), 9), Tools(saves, restores));
    var b := Cycle(Redirected6(BlockOnly(2), 9), Tools(saves, restores));
    cycles := [a, b, a];
    RedirectedCalls(1);
    RedirectedCalls(2);
    FlushConfined(a, b);
    PlainPasses(2, 1);
    PlainDropped(a.input, 1, 1);
    NotEnforced(After(NOTHING, cycles, [], None, {15}).rules, a.input, [], None, Plain(1));
  }

  // ---------------------------------------------------------------- the exact condition

  /** What a host where less may fail guarantees. */
  lemma {:induction false} ConfinedLess(s: State, cycles: seq<Cycle>, reputation: seq<nat>, configured: Option<nat>,
                                        faults: set<nat>, main: bool, redirect: bool, mainMore: bool, redirectMore: bool)
    requires (main ==> mainMore) && (redirect ==> redirectMore)
    requires Confined(s, cycles, reputation, configured, faults, main, redirect)
    ensures Confined(s, cycles, reputation, configured, faults, mainMore, redirectMore)
  {
    if cycles != [] {
      ConfinedLess(s, cycles[..|cycles| - 1], reputation, configured, faults, main, redirect, mainMore, redirectMore);
    }
  }

  lemma QuietScriptsNeeded(mainMayFail: bool, redirectMayFail: bool, saves: bool, restores: bool)
    requires mainMayFail || redirectMayFail
    ensures !SoundHost(mainMayFail, redirectMayFail, saves, restores)
  {
    if mainMayFail {
      var cycles := MainFailureCutsOff(saves, restores);
      ConfinedLess(NOTHING, cycles, [], None, {8}, true, false, mainMayFail, redirectMayFail);
      assert Startable(NOTHING, false, false);
    } else {
      var cycles := RedirectFailureFrees(saves, restores);
      assert Startable(NOTHING, false, true);
    }
  }

  /** Skipping unchanged policies is sound over every run exactly on a host where neither the main script nor the IPv6
      redirect can fail. Whether snapshots and reloads work makes no difference. */
  lemma CacheSoundIffNothingFails(mainMayFail: bool, redirectMayFail: bool, saves: bool, restores: bool)
    ensures SoundHost(mainMayFail, redirectMayFail, saves, restores) <==> !mainMayFail && !redirectMayFail
  {
    if mainMayFail || redirectMayFail {
      QuietScriptsNeeded(mainMayFail, redirectMayFail, saves, restores);
    } else {
      QuietScriptsSuffice(saves, restores);
    }
  }
}
