/** nftables-controller.js: the controller that edits the live nftables ruleset step by step, proved to do exactly
    what its script does, failing calls included. */
module NftController {
  import opened Options
  import opened Patterns
  import opened Policy
  import opened Signature
  import opened NftRules
  import Runs = NftRuns

  datatype Config = Config(enableIpv6: bool, dnsRedirectIpv6: Option<nat>, dohReputationIps: seq<nat>)

  /** Adding a non-empty list starts with adding its head. */
  lemma AddsHead(rs: Ruleset, c: Chain, r: Rule, rest: seq<Rule>, clock: nat, faults: set<nat>)
    ensures var first := RunCommand(rs, AddRule(c, r), clock, faults);
            RunSteps(rs, Adds(c, [r] + rest), clock, faults)
            == if first.ok then RunSteps(first.rules, Adds(c, rest), first.clock, faults) else first
  {
    assert Adds(c, [r] + rest) == [Must(AddRule(c, r))] + Adds(c, rest);
    RunStepsCons(rs, Must(AddRule(c, r)), Adds(c, rest), clock, faults);
  }

  class Controller {
    const config: Config
    const faults: set<nat>
    var rules: Ruleset
    var clock: nat
    var lastSyncSignature: Option<Summary>

    constructor (config: Config, rules: Ruleset, faults: set<nat>)
      ensures this.config == config && this.faults == faults && State() == Runs.State(rules, 0, None)
    {
      this.config, this.faults, this.rules := config, faults, rules;
      clock, lastSyncSignature := 0, None;
    }

    ghost function State(): Runs.State
      reads this
    {
      Runs.State(rules, clock, lastSyncSignature)
    }

    /** Whether running `steps` from the given state ends as the kernel is now. */
    ghost predicate Did(rules0: Ruleset, clock0: nat, steps: seq<Step>, ok: bool)
      reads this
    {
      Outcome(ok, rules, clock) == RunSteps(rules0, steps, clock0, faults)
    }

    method Run(cmd: Command) returns (ok: bool)
      modifies this`rules, this`clock
      ensures Outcome(ok, rules, clock) == RunCommand(old(rules), cmd, old(clock), faults)
    {
      var result := Exec(cmd, rules);
      ok := clock !in faults && result.Some?;
      if ok {
        rules := result.value;
      }
      clock := clock + 1;
    }

    /** The listing of the ruleset, if listing works this time. */
    method Snapshot(works: bool) returns (listing: Option<Ruleset>)
      ensures listing == if works then Some(rules) else None
    {
      listing := if works then Some(rules) else None;
    }

    /** Loads a listing back, if there is one and loading works. */
    method Restore(listing: Option<Ruleset>, works: bool)
      modifies this`rules
      ensures rules == if listing.Some? && works then Runs.Reload(old(rules), listing.value) else old(rules)
    {
      if listing.Some? && works {
        rules := Runs.Reload(rules, listing.value);
      }
    }

    method EmptyChain(c: Chain) returns (ok: bool)
      modifies this`rules, this`clock
      ensures Did(old(rules), old(clock), EmptyScript(c), ok)
    {
      ghost var s0, s1, s2 := Try(AddTable(TableOf(c))), Try(AddChain(c)), Must(FlushChain(c));
      RunStepsCons(rules, s0, [s1] + [s2], clock, faults);
      var _ := Run(AddTable(TableOf(c)));
      RunStepsCons(rules, s1, [s2], clock, faults);
      var _ := Run(AddChain(c));
      assert [s2] == [s2] + [];
      RunStepsCons(rules, s2, [], clock, faults);
      ok := Run(FlushChain(c));
    }

    /** One rule of one family, where the target has an address there and the family is enforced. */
    method AddFamilyRule(t: Target, ipv6: bool, enableIpv6: bool, extra: seq<Match>) returns (ok: bool)
      modifies this`rules, this`clock
      ensures Did(old(rules), old(clock), Adds(FilterChain, FamilyRule(t, ipv6, enableIpv6, extra)), ok)
    {
      var address := AddressOf(t, ipv6);
      ok := true;
      if address.Some? && (ipv6 ==> enableIpv6) {
        var rule := Rule([if ipv6 then Ip6Saddr(address.value) else IpSaddr(address.value)] + extra, Drop);
        assert FamilyRule(t, ipv6, enableIpv6, extra) == [rule] + [];
        AddsHead(rules, FilterChain, rule, [], clock, faults);
        ok := Run(AddRule(FilterChain, rule));
      }
    }

    method AddFamilyRules(t: Target, extra: seq<Match>) returns (ok: bool)
      modifies this`rules, this`clock
      ensures Did(old(rules), old(clock), Adds(FilterChain, FamilyRule(t, false, config.enableIpv6, extra)
                                                            + FamilyRule(t, true, config.enableIpv6, extra)), ok)
    {
      ghost var a, b := FamilyRule(t, false, config.enableIpv6, extra), FamilyRule(t, true, config.enableIpv6, extra);
      AddsConcat(FilterChain, a, b);
      RunStepsConcat(rules, Adds(FilterChain, a), Adds(FilterChain, b), clock, faults);
      ok := AddFamilyRule(t, false, config.enableIpv6, extra);
      if ok {
        ok := AddFamilyRule(t, true, config.enableIpv6, extra);
      }
    }

    method AddBlockRules(t: Target) returns (ok: bool)
      modifies this`rules, this`clock
      ensures Did(old(rules), old(clock), Adds(FilterChain, BlockRules(t, config.enableIpv6)), ok)
    {
      ghost var ips := FamilyRule(t, false, config.enableIpv6, []) + FamilyRule(t, true, config.enableIpv6, []);
      ghost var macs := if t.macAddress.Some? then [Rule([EtherSaddr(t.macAddress.value)], Drop)] else [];
      AddsConcat(FilterChain, ips, macs);
      RunStepsConcat(rules, Adds(FilterChain, ips), Adds(FilterChain, macs), clock, faults);
      ok := AddFamilyRules(t, []);
      if ok && t.macAddress.Some? {
        var rule := Rule([EtherSaddr(t.macAddress.value)], Drop);
        assert [rule] == [rule] + [];
        AddsHead(rules, FilterChain, rule, [], clock, faults);
        ok := Run(AddRule(FilterChain, rule));
      }
    }

    method AddVpnBlockRules(t: Target) returns (ok: bool)
      modifies this`rules, this`clock
      ensures Did(old(rules), old(clock), Adds(FilterChain, VpnRules(t, config.enableIpv6)), ok)
    {
      var sigs, ranges, v6 := VPN_PORT_SIGNATURES, VPN_IP_RANGES, config.enableIpv6;
      AddsConcat(FilterChain, VpnPortRules(t, v6, sigs), VpnRangeRules(t, ranges));
      RunStepsConcat(rules, Adds(FilterChain, VpnPortRules(t, v6, sigs)), Adds(FilterChain, VpnRangeRules(t, ranges)), clock, faults);
      ok := AddVpnPortRules(t, sigs);
      if ok {
        ok := AddVpnRangeRules(t, ranges);
      }
    }

    method AddVpnPortRules(t: Target, sigs: seq<PortSignature>) returns (ok: bool)
      modifies this`rules, this`clock
      ensures Did(old(rules), old(clock), Adds(FilterChain, VpnPortRules(t, config.enableIpv6, sigs)), ok)
    {
      var v6 := config.enableIpv6;
      assert sigs[0..] == sigs;
      for i := 0 to |sigs|
        invariant RunSteps(old(rules), Adds(FilterChain, VpnPortRules(t, v6, sigs)), old(clock), faults)
               == RunSteps(rules, Adds(FilterChain, VpnPortRules(t, v6, sigs[i..])), clock, faults)
      {
        var extra := [Dport(sigs[i].proto, sigs[i].port)];
        ghost var now := FamilyRule(t, false, v6, extra) + FamilyRule(t, true, v6, extra);
        ghost var rest := VpnPortRules(t, v6, sigs[i + 1..]);
        assert sigs[i..][1..] == sigs[i + 1..];
        AddsConcat(FilterChain, now, rest);
        RunStepsConcat(rules, Adds(FilterChain, now), Adds(FilterChain, rest), clock, faults);
        ok := AddFamilyRules(t, extra);
        if !ok { return; }
      }
      ok := true;
    }

    method AddVpnRangeRules(t: Target, ranges: seq<Range>) returns (ok: bool)
      modifies this`rules, this`clock
      ensures Did(old(rules), old(clock), Adds(FilterChain, VpnRangeRules(t, ranges)), ok)
    {
      assert ranges[0..] == ranges;
      for i := 0 to |ranges|
        invariant RunSteps(old(rules), Adds(FilterChain, VpnRangeRules(t, ranges)), old(clock), faults)
               == RunSteps(rules, Adds(FilterChain, VpnRangeRules(t, ranges[i..])), clock, faults)
      {
        var extra := [IpDaddrIn(ranges[i].base, ranges[i].prefix)];
        ghost var now, rest := FamilyRule(t, false, false, extra), VpnRangeRules(t, ranges[i + 1..]);
        assert ranges[i..][1..] == ranges[i + 1..];
        AddsConcat(FilterChain, now, rest);
        RunStepsConcat(rules, Adds(FilterChain, now), Adds(FilterChain, rest), clock, faults);
        ok := AddFamilyRule(t, false, false, extra);
        if !ok { return; }
      }
      ok := true;
    }

    method AddQuicBlockRule(t: Target) returns (ok: bool)
      modifies this`rules, this`clock
      ensures Did(old(rules), old(clock), Adds(FilterChain, QuicRules(t, config.enableIpv6)), ok)
    {
      ok := AddFamilyRules(t, [Dport(Udp, 443)]);
    }

    method AddTargetRules(t: Target, quicGlobal: bool) returns (ok: bool)
      modifies this`rules, this`clock
      ensures Did(old(rules), old(clock), Adds(FilterChain, TargetRules(t, quicGlobal, config.enableIpv6)), ok)
    {
      ghost var block := if t.action.Block? then BlockRules(t, config.enableIpv6) else [];
      ghost var vpn := if t.vpnBlock then VpnRules(t, config.enableIpv6) else [];
      ghost var quic := if quicGlobal || t.quicBlock then QuicRules(t, config.enableIpv6) else [];
      ghost var a, b, c := Adds(FilterChain, block), Adds(FilterChain, vpn), Adds(FilterChain, quic);
      AddsConcat(FilterChain, block + vpn, quic);
      AddsConcat(FilterChain, block, vpn);
      RunStepsConcat(rules, a + b, c, clock, faults);
      RunStepsConcat(rules, a, b, clock, faults);
      ok := true;
      if t.action.Block? {
        ok := AddBlockRules(t);
        if !ok { return; }
      }
      if t.vpnBlock {
        ok := AddVpnBlockRules(t);
        if !ok { return; }
      }
      if quicGlobal || t.quicBlock {
        ok := AddQuicBlockRule(t);
      }
    }

    method AddAllTargets(ts: seq<Target>, quicGlobal: bool) returns (ok: bool)
      modifies this`rules, this`clock
      ensures Did(old(rules), old(clock), Adds(FilterChain, AllTargetRules(ts, quicGlobal, config.enableIpv6)), ok)
    {
      var v6 := config.enableIpv6;
      assert ts[0..] == ts;
      for i := 0 to |ts|
        invariant RunSteps(old(rules), Adds(FilterChain, AllTargetRules(ts, quicGlobal, v6)), old(clock), faults)
               == RunSteps(rules, Adds(FilterChain, AllTargetRules(ts[i..], quicGlobal, v6)), clock, faults)
      {
        ghost var now, rest := TargetRules(ts[i], quicGlobal, v6), AllTargetRules(ts[i + 1..], quicGlobal, v6);
        assert ts[i..][1..] == ts[i + 1..];
        AddsConcat(FilterChain, now, rest);
        RunStepsConcat(rules, Adds(FilterChain, now), Adds(FilterChain, rest), clock, faults);
        ok := AddTargetRules(ts[i], quicGlobal);
        if !ok { return; }
      }
      ok := true;
    }

    method AddDotRules(ports: seq<nat>) returns (ok: bool)
      modifies this`rules, this`clock
      ensures Did(old(rules), old(clock), Adds(FilterChain, DotRules(ports)), ok)
    {
      assert ports[0..] == ports;
      for i := 0 to |ports|
        invariant RunSteps(old(rules), Adds(FilterChain, DotRules(ports)), old(clock), faults)
               == RunSteps(rules, Adds(FilterChain, DotRules(ports[i..])), clock, faults)
      {
        var tcp, udp := Rule([Dport(Tcp, ports[i])], Drop), Rule([Dport(Udp, ports[i])], Drop);
        ghost var rest := DotRules(ports[i + 1..]);
        assert ports[i..][1..] == ports[i + 1..];
        assert DotRules(ports[i..]) == [tcp] + ([udp] + rest);
        AddsHead(rules, FilterChain, tcp, [udp] + rest, clock, faults);
        ok := Run(AddRule(FilterChain, tcp));
        if !ok { return; }
        AddsHead(rules, FilterChain, udp, rest, clock, faults);
        ok := Run(AddRule(FilterChain, udp));
        if !ok { return; }
      }
      ok := true;
    }

    method AddProviderRules(providers: seq<Provider>) returns (ok: bool)
      modifies this`rules, this`clock
      ensures Did(old(rules), old(clock), Adds(FilterChain, ProviderRules(providers)), ok)
    {
      assert providers[0..] == providers;
      for i := 0 to |providers|
        invariant RunSteps(old(rules), Adds(FilterChain, ProviderRules(providers)), old(clock), faults)
               == RunSteps(rules, Adds(FilterChain, ProviderRules(providers[i..])), clock, faults)
      {
        var rule := ProviderRule(providers[i]);
        ghost var rest := ProviderRules(providers[i + 1..]);
        assert ProviderRules(providers[i..]) == [rule] + rest;
        AddsHead(rules, FilterChain, rule, rest, clock, faults);
        ok := Run(AddRule(FilterChain, rule));
        if !ok { return; }
      }
      ok := true;
    }

    method AddDohDotBlockRules() returns (ok: bool)
      modifies this`rules, this`clock
      ensures Did(old(rules), old(clock), Adds(FilterChain, DohRules(config.dohReputationIps)), ok)
    {
      var providers := DohProviders(config.dohReputationIps);
      AddsConcat(FilterChain, DotRules(DOT_PORTS), ProviderRules(providers));
      RunStepsConcat(rules, Adds(FilterChain, DotRules(DOT_PORTS)), Adds(FilterChain, ProviderRules(providers)), clock, faults);
      ok := AddDotRules(DOT_PORTS);
      if ok {
        ok := AddProviderRules(providers);
      }
    }

    method EnsureDnsRedirect(c: Chain, resolver: Option<nat>) returns (ok: bool)
      modifies this`rules, this`clock
      ensures Did(old(rules), old(clock), DnsScript(c, resolver), ok)
    {
      if resolver.None? { return true; }
      var udp, tcp := Rule([Dport(Udp, 53)], Dnat(resolver.value)), Rule([Dport(Tcp, 53)], Dnat(resolver.value));
      assert DnsRules(resolver.value) == [udp] + [tcp] && [tcp] == [tcp] + [];
      RunStepsConcat(rules, EmptyScript(c), Adds(c, DnsRules(resolver.value)), clock, faults);
      ok := EmptyChain(c);
      if !ok { return; }
      AddsHead(rules, c, udp, [tcp], clock, faults);
      ok := Run(AddRule(c, udp));
      if !ok { return; }
      AddsHead(rules, c, tcp, [], clock, faults);
      ok := Run(AddRule(c, tcp));
    }

    /** The rebuild inside sync, up to the first failing call. */
    method Rebuild(input: Inputs) returns (ok: bool)
      requires input.enableIpv6 == config.enableIpv6
      modifies this`rules, this`clock
      ensures Did(old(rules), old(clock), Script(input, config.dohReputationIps), ok)
    {
      ghost var targets := AllTargetRules(input.targets, input.enableQuicBlockGlobal, input.enableIpv6);
      ghost var doh := if input.enableDohBlock then DohRules(config.dohReputationIps) else [];
      ghost var a, b := Adds(FilterChain, targets), Adds(FilterChain, doh);
      ghost var dns := if input.enableDnsRedirect then DnsScript(Redirect, input.dnsRedirectIp) else [];
      AddsConcat(FilterChain, targets, doh);
      assert EmptyScript(FilterChain) + (a + b) + dns == EmptyScript(FilterChain) + (a + (b + dns));
      RunStepsConcat(rules, EmptyScript(FilterChain), a + (b + dns), clock, faults);
      ok := EmptyChain(FilterChain);
      if !ok { return; }
      RunStepsConcat(rules, a, b + dns, clock, faults);
      ok := AddAllTargets(input.targets, input.enableQuicBlockGlobal);
      if !ok { return; }
      RunStepsConcat(rules, b, dns, clock, faults);
      if input.enableDohBlock {
        ok := AddDohDotBlockRules();
        if !ok { return; }
      }
      if input.enableDnsRedirect {
        ok := EnsureDnsRedirect(Redirect, input.dnsRedirectIp);
      }
    }

    /** One synchronisation: the outcome is exactly that of the state machine, whether listing and loading work this
        time or not. */
    method Sync(input: Inputs, tools: Tools) returns (ok: bool)
      requires input.enableIpv6 == config.enableIpv6
      modifies this
      ensures var r := Runs.Sync(old(State()), Runs.Cycle(input, tools), config.dohReputationIps, config.dnsRedirectIpv6, faults);
              State() == r.state && ok == r.ok
    {
      var signature := SummaryOf(input);
      if lastSyncSignature == Some(signature) {
        return true;
      }
      var listing := Snapshot(tools.save);
      ok := Rebuild(input);
      if !ok {
        Restore(listing, tools.restore);
        return;
      }
      var v6RedirectFailed := false;
      if config.enableIpv6 {
        var resolver := Resolver6(input, config.dnsRedirectIpv6);
        if input.enableDnsRedirect && resolver.Some? {
          var done := EnsureDnsRedirect(Redirect6, resolver);
          v6RedirectFailed := !done;
        }
      }
      if !v6RedirectFailed {
        lastSyncSignature := Some(signature);
      }
    }
  }
}
