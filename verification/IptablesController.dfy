/** iptables-controller.js: the controller that edits the live rulesets of both families step by step. Every
    method is proved to do exactly what its script does, failing calls included. */
module IptablesController {
  import opened Options
  import opened Patterns
  import opened Policy
  import opened Signature
  import opened Netfilter
  import opened IptablesRules
  import Runs = IptablesRuns

  datatype Config = Config(enableIpv6: bool, dnsRedirectIpv6: Option<nat>, dohReputationIps: seq<nat>)

  /** The live ruleset of one family, behind the iptables tools. */
  class Kernel {
    var rules: Ruleset
    var clock: nat
    const faults: set<nat>

    constructor (rules: Ruleset, faults: set<nat>)
      ensures this.rules == rules && this.clock == 0 && this.faults == faults
    {
      this.rules, this.clock, this.faults := rules, 0, faults;
    }

    /** Whether running `steps` from the given state ends as this kernel is now. */
    ghost predicate Did(rules0: Ruleset, clock0: nat, steps: seq<Step>, ok: bool)
      reads this
    {
      Outcome(ok, rules, clock) == RunSteps(rules0, steps, clock0, faults)
    }

    method Run(cmd: Command) returns (ok: bool)
      modifies this
      ensures Outcome(ok, rules, clock) == RunCommand(old(rules), cmd, old(clock), faults)
    {
      var result := Exec(cmd, rules);
      ok := clock !in faults && result.Some?;
      if ok {
        rules := result.value;
      }
      clock := clock + 1;
    }

    /** The check form of the tool answers truthfully. */
    method Check(t: Table, c: Chain, r: Rule) returns (found: bool)
      ensures found == Holds(rules, t, c, r)
    {
      found := Holds(rules, t, c, r);
    }

    /** The snapshot, if the save tool works this time. */
    method Save(works: bool) returns (snapshot: Option<Ruleset>)
      ensures snapshot == if works then Some(rules) else None
    {
      snapshot := if works then Some(rules) else None;
    }

    /** Puts the snapshot back, if there is one and the restore tool works this time. */
    method Restore(snapshot: Option<Ruleset>, works: bool)
      modifies this`rules
      ensures rules == if snapshot.Some? && works then snapshot.value else old(rules)
    {
      if snapshot.Some? && works {
        rules := snapshot.value;
      }
    }
  }

  /** Appending a non-empty list starts with appending its head. */
  lemma AppendsHead(rs: Ruleset, t: Table, c: Chain, r: Rule, rest: seq<Rule>, clock: nat, faults: set<nat>)
    ensures var first := RunCommand(rs, Append(t, c, r), clock, faults);
            RunSteps(rs, Appends(t, c, [r] + rest), clock, faults)
            == if first.ok then RunSteps(first.rules, Appends(t, c, rest), first.clock, faults) else first
  {
    assert Appends(t, c, [r] + rest) == [Must(Append(t, c, r))] + Appends(t, c, rest);
    RunStepsCons(rs, Must(Append(t, c, r)), Appends(t, c, rest), clock, faults);
  }

  class Controller {
    const config: Config
    const v4: Kernel
    const v6: Kernel
    var lastSyncSignatures: map<bool, Summary>

    constructor (config: Config, v4: Kernel, v6: Kernel)
      requires v4 != v6
      ensures this.config == config && this.v4 == v4 && this.v6 == v6 && Valid()
      ensures lastSyncSignatures == map[]
    {
      this.config, this.v4, this.v6 := config, v4, v6;
      lastSyncSignatures := map[];
    }

    ghost predicate Valid() {
      v4 != v6
    }

    function KernelOf(ipv6: bool): Kernel {
      if ipv6 then v6 else v4
    }

    /** One family's part of the state. */
    ghost function State(ipv6: bool): Runs.Family
      reads this, KernelOf(ipv6)
    {
      Runs.Family(KernelOf(ipv6).rules, KernelOf(ipv6).clock,
                  if ipv6 in lastSyncSignatures then Some(lastSyncSignatures[ipv6]) else None)
    }

    method EnsureRule(t: Table, c: Chain, r: Rule, ipv6: bool) returns (ok: bool)
      modifies KernelOf(ipv6)
      ensures KernelOf(ipv6).Did(old(KernelOf(ipv6).rules), old(KernelOf(ipv6).clock), [EnsureFirst(t, c, r)], ok)
    {
      var k := KernelOf(ipv6);
      RunStepsSingle(k.rules, EnsureFirst(t, c, r), k.clock, k.faults);
      var exists_ := k.Check(t, c, r);
      ok := true;
      if !exists_ {
        ok := k.Run(InsertFirst(t, c, r));
      }
    }

    method EnsureFilterChain(ipv6: bool) returns (ok: bool)
      modifies KernelOf(ipv6)
      ensures KernelOf(ipv6).Did(old(KernelOf(ipv6).rules), old(KernelOf(ipv6).clock),
                                 [Try(NewChain(Filter, GtBlock)), EnsureFirst(Filter, FORWARD, BLOCK_HOOK)], ok)
    {
      var k := KernelOf(ipv6);
      ghost var hook := EnsureFirst(Filter, FORWARD, BLOCK_HOOK);
      RunStepsCons(k.rules, Try(NewChain(Filter, GtBlock)), [hook], k.clock, k.faults);
      assert [Try(NewChain(Filter, GtBlock)), hook] == [Try(NewChain(Filter, GtBlock))] + [hook];
      var _ := k.Run(NewChain(Filter, GtBlock));
      ok := EnsureRule(Filter, FORWARD, BLOCK_HOOK, ipv6);
    }

    method FlushFilterChain(ipv6: bool) returns (ok: bool)
      modifies KernelOf(ipv6)
      ensures KernelOf(ipv6).Did(old(KernelOf(ipv6).rules), old(KernelOf(ipv6).clock), [Must(Flush(Filter, GtBlock))], ok)
    {
      var k := KernelOf(ipv6);
      RunStepsSingle(k.rules, Must(Flush(Filter, GtBlock)), k.clock, k.faults);
      ok := k.Run(Flush(Filter, GtBlock));
    }

    method AddBlockRules(t: Target, ipv6: bool) returns (ok: bool)
      modifies KernelOf(ipv6)
      ensures KernelOf(ipv6).Did(old(KernelOf(ipv6).rules), old(KernelOf(ipv6).clock), Appends(Filter, GtBlock, BlockRules(t, ipv6)), ok)
    {
      var k := KernelOf(ipv6);
      var address := AddressOf(t, ipv6);
      assert [] + MacRules(t) == MacRules(t);
      ok := true;
      if address.Some? {
        var rule := BlockIpRule(t.deviceId, address.value);
        AppendsHead(k.rules, Filter, GtBlock, rule, MacRules(t), k.clock, k.faults);
        ok := k.Run(Append(Filter, GtBlock, rule));
        if !ok { return; }
      }
      if t.macAddress.Some? {
        var rule := BlockMacRule(t.deviceId, t.macAddress.value);
        assert MacRules(t) == [rule] + [];
        AppendsHead(k.rules, Filter, GtBlock, rule, [], k.clock, k.faults);
        ok := k.Run(Append(Filter, GtBlock, rule));
      }
    }

    method AddVpnPortRules(id: string, address: nat, ipv6: bool) returns (ok: bool)
      modifies KernelOf(ipv6)
      ensures KernelOf(ipv6).Did(old(KernelOf(ipv6).rules), old(KernelOf(ipv6).clock),
                                 Appends(Filter, GtBlock, VpnPortRules(id, address, VPN_PORT_SIGNATURES)), ok)
    {
      var k, sigs := KernelOf(ipv6), VPN_PORT_SIGNATURES;
      assert sigs[0..] == sigs;
      for i := 0 to |sigs|
        invariant RunSteps(old(k.rules), Appends(Filter, GtBlock, VpnPortRules(id, address, sigs)), old(k.clock), k.faults)
               == RunSteps(k.rules, Appends(Filter, GtBlock, VpnPortRules(id, address, sigs[i..])), k.clock, k.faults)
      {
        var rule := VpnPortRule(id, address, sigs[i]);
        ghost var rest := VpnPortRules(id, address, sigs[i + 1..]);
        assert VpnPortRules(id, address, sigs[i..]) == [rule] + rest;
        AppendsHead(k.rules, Filter, GtBlock, rule, rest, k.clock, k.faults);
        ok := k.Run(Append(Filter, GtBlock, rule));
        if !ok { return; }
      }
      ok := true;
    }

    method AddVpnRangeRules(id: string, address: nat, ipv6: bool) returns (ok: bool)
      modifies KernelOf(ipv6)
      ensures KernelOf(ipv6).Did(old(KernelOf(ipv6).rules), old(KernelOf(ipv6).clock),
                                 Appends(Filter, GtBlock, VpnRangeRules(id, address, VPN_IP_RANGES)), ok)
    {
      var k, ranges := KernelOf(ipv6), VPN_IP_RANGES;
      assert ranges[0..] == ranges;
      for i := 0 to |ranges|
        invariant RunSteps(old(k.rules), Appends(Filter, GtBlock, VpnRangeRules(id, address, ranges)), old(k.clock), k.faults)
               == RunSteps(k.rules, Appends(Filter, GtBlock, VpnRangeRules(id, address, ranges[i..])), k.clock, k.faults)
      {
        var rule := VpnRangeRule(id, address, ranges[i]);
        ghost var rest := VpnRangeRules(id, address, ranges[i + 1..]);
        assert VpnRangeRules(id, address, ranges[i..]) == [rule] + rest;
        AppendsHead(k.rules, Filter, GtBlock, rule, rest, k.clock, k.faults);
        ok := k.Run(Append(Filter, GtBlock, rule));
        if !ok { return; }
      }
      ok := true;
    }

    method AddVpnBlockRules(t: Target, ipv6: bool) returns (ok: bool)
      modifies KernelOf(ipv6)
      ensures KernelOf(ipv6).Did(old(KernelOf(ipv6).rules), old(KernelOf(ipv6).clock), Appends(Filter, GtBlock, VpnRules(t, ipv6)), ok)
    {
      var k := KernelOf(ipv6);
      var address := AddressOf(t, ipv6);
      if address.None? { return true; }
      ghost var ports := VpnPortRules(t.deviceId, address.value, VPN_PORT_SIGNATURES);
      ghost var ranges := if ipv6 then [] else VpnRangeRules(t.deviceId, address.value, VPN_IP_RANGES);
      AppendsConcat(Filter, GtBlock, ports, ranges);
      RunStepsConcat(k.rules, Appends(Filter, GtBlock, ports), Appends(Filter, GtBlock, ranges), k.clock, k.faults);
      ok := AddVpnPortRules(t.deviceId, address.value, ipv6);
      if ok && !ipv6 {
        ok := AddVpnRangeRules(t.deviceId, address.value, ipv6);
      }
    }

    method AddQuicBlockRule(t: Target, ipv6: bool) returns (ok: bool)
      modifies KernelOf(ipv6)
      ensures KernelOf(ipv6).Did(old(KernelOf(ipv6).rules), old(KernelOf(ipv6).clock), Appends(Filter, GtBlock, QuicRules(t, ipv6)), ok)
    {
      var k := KernelOf(ipv6);
      var address := AddressOf(t, ipv6);
      if address.None? { return true; }
      var rule := QuicRule(t.deviceId, address.value);
      assert QuicRules(t, ipv6) == [rule] + [];
      AppendsHead(k.rules, Filter, GtBlock, rule, [], k.clock, k.faults);
      ok := k.Run(Append(Filter, GtBlock, rule));
    }

    /** The body of the target loop: the rules of one target. */
    method AddTargetRules(t: Target, quicGlobal: bool, ipv6: bool) returns (ok: bool)
      modifies KernelOf(ipv6)
      ensures KernelOf(ipv6).Did(old(KernelOf(ipv6).rules), old(KernelOf(ipv6).clock),
                                 Appends(Filter, GtBlock, TargetRules(t, quicGlobal, ipv6)), ok)
    {
      var k := KernelOf(ipv6);
      ghost var block := if t.action.Block? then BlockRules(t, ipv6) else [];
      ghost var vpn := if t.vpnBlock then VpnRules(t, ipv6) else [];
      ghost var quic := if quicGlobal || t.quicBlock then QuicRules(t, ipv6) else [];
      ghost var a, b, c := Appends(Filter, GtBlock, block), Appends(Filter, GtBlock, vpn), Appends(Filter, GtBlock, quic);
      AppendsConcat(Filter, GtBlock, block + vpn, quic);
      AppendsConcat(Filter, GtBlock, block, vpn);
      RunStepsConcat(k.rules, a + b, c, k.clock, k.faults);
      RunStepsConcat(k.rules, a, b, k.clock, k.faults);
      ok := true;
      if t.action.Block? {
        ok := AddBlockRules(t, ipv6);
        if !ok { return; }
      }
      if t.vpnBlock {
        ok := AddVpnBlockRules(t, ipv6);
        if !ok { return; }
      }
      if quicGlobal || t.quicBlock {
        ok := AddQuicBlockRule(t, ipv6);
      }
    }

    method AddDotRules(ipv6: bool) returns (ok: bool)
      modifies KernelOf(ipv6)
      ensures KernelOf(ipv6).Did(old(KernelOf(ipv6).rules), old(KernelOf(ipv6).clock), Appends(Filter, GtDoh, DotRules(DOT_PORTS)), ok)
    {
      var k, ports := KernelOf(ipv6), DOT_PORTS;
      assert ports[0..] == ports;
      for i := 0 to |ports|
        invariant RunSteps(old(k.rules), Appends(Filter, GtDoh, DotRules(ports)), old(k.clock), k.faults)
               == RunSteps(k.rules, Appends(Filter, GtDoh, DotRules(ports[i..])), k.clock, k.faults)
      {
        var tcp, udp := DotRule(Tcp, ports[i]), DotRule(Udp, ports[i]);
        ghost var rest := DotRules(ports[i + 1..]);
        assert ports[i..][1..] == ports[i + 1..];
        assert DotRules(ports[i..]) == [tcp] + ([udp] + rest);
        AppendsHead(k.rules, Filter, GtDoh, tcp, [udp] + rest, k.clock, k.faults);
        ok := k.Run(Append(Filter, GtDoh, tcp));
        if !ok { return; }
        AppendsHead(k.rules, Filter, GtDoh, udp, rest, k.clock, k.faults);
        ok := k.Run(Append(Filter, GtDoh, udp));
        if !ok { return; }
      }
      ok := true;
    }

    method AddProviderRules(ipv6: bool) returns (ok: bool)
      modifies KernelOf(ipv6)
      ensures KernelOf(ipv6).Did(old(KernelOf(ipv6).rules), old(KernelOf(ipv6).clock),
                                 Appends(Filter, GtDoh, ProviderRules(DohProviders(config.dohReputationIps))), ok)
    {
      var k, providers := KernelOf(ipv6), DohProviders(config.dohReputationIps);
      assert providers[0..] == providers;
      for i := 0 to |providers|
        invariant RunSteps(old(k.rules), Appends(Filter, GtDoh, ProviderRules(providers)), old(k.clock), k.faults)
               == RunSteps(k.rules, Appends(Filter, GtDoh, ProviderRules(providers[i..])), k.clock, k.faults)
      {
        var rule := DohRule(providers[i]);
        ghost var rest := ProviderRules(providers[i + 1..]);
        assert ProviderRules(providers[i..]) == [rule] + rest;
        AppendsHead(k.rules, Filter, GtDoh, rule, rest, k.clock, k.faults);
        ok := k.Run(Append(Filter, GtDoh, rule));
        if !ok { return; }
      }
      ok := true;
    }

    method EnsureDohDotBlock(ipv6: bool) returns (ok: bool)
      modifies KernelOf(ipv6)
      ensures KernelOf(ipv6).Did(old(KernelOf(ipv6).rules), old(KernelOf(ipv6).clock), DohScript(config.dohReputationIps, ipv6), ok)
    {
      var k := KernelOf(ipv6);
      ghost var new_, flush := Try(NewChain(Filter, GtDoh)), Must(Flush(Filter, GtDoh));
      ghost var hook := [EnsureFirst(Filter, FORWARD, DOH_HOOK)];
      ghost var dot := DotRules(DOT_PORTS);
      ghost var providers := if ipv6 then [] else ProviderRules(DohProviders(config.dohReputationIps));
      ghost var a, b := Appends(Filter, GtDoh, dot), Appends(Filter, GtDoh, providers);
      AppendsConcat(Filter, GtDoh, dot, providers);
      assert HookSteps(Filter, [DOH_HOOK]) == hook;
      RunStepsCons(k.rules, new_, [flush] + (hook + (a + b)), k.clock, k.faults);
      var _ := k.Run(NewChain(Filter, GtDoh));
      RunStepsCons(k.rules, flush, hook + (a + b), k.clock, k.faults);
      ok := k.Run(Flush(Filter, GtDoh));
      if !ok { return; }
      RunStepsConcat(k.rules, hook, a + b, k.clock, k.faults);
      ok := EnsureRule(Filter, FORWARD, DOH_HOOK, ipv6);
      if !ok { return; }
      RunStepsConcat(k.rules, a, b, k.clock, k.faults);
      ok := AddDotRules(ipv6);
      if ok && !ipv6 {
        ok := AddProviderRules(ipv6);
      }
    }

    method EnsureDnsRedirect(resolver: Option<nat>, ipv6: bool) returns (ok: bool)
      modifies KernelOf(ipv6)
      ensures KernelOf(ipv6).Did(old(KernelOf(ipv6).rules), old(KernelOf(ipv6).clock), DnsScript(resolver), ok)
    {
      if resolver.None? { return true; }
      var k := KernelOf(ipv6);
      ghost var new_, flush := Try(NewChain(Nat, GtDns)), Must(Flush(Nat, GtDns));
      ghost var hookUdp := [EnsureFirst(Nat, PREROUTING, DnsHook(Udp))];
      ghost var hookTcp := [EnsureFirst(Nat, PREROUTING, DnsHook(Tcp))];
      var udp, tcp := DnsRule(Udp, resolver.value), DnsRule(Tcp, resolver.value);
      ghost var fill := Appends(Nat, GtDns, [udp, tcp]);
      assert HookSteps(Nat, [DnsHook(Udp), DnsHook(Tcp)]) == hookUdp + hookTcp;
      assert hookUdp + hookTcp + fill == hookUdp + (hookTcp + fill);
      RunStepsCons(k.rules, new_, [flush] + (hookUdp + (hookTcp + fill)), k.clock, k.faults);
      var _ := k.Run(NewChain(Nat, GtDns));
      RunStepsCons(k.rules, flush, hookUdp + (hookTcp + fill), k.clock, k.faults);
      ok := k.Run(Flush(Nat, GtDns));
      if !ok { return; }
      RunStepsConcat(k.rules, hookUdp, hookTcp + fill, k.clock, k.faults);
      ok := EnsureRule(Nat, PREROUTING, DnsHook(Udp), ipv6);
      if !ok { return; }
      RunStepsConcat(k.rules, hookTcp, fill, k.clock, k.faults);
      ok := EnsureRule(Nat, PREROUTING, DnsHook(Tcp), ipv6);
      if !ok { return; }
      assert [udp, tcp] == [udp] + [tcp] && [tcp] == [tcp] + [];
      AppendsHead(k.rules, Nat, GtDns, udp, [tcp], k.clock, k.faults);
      ok := k.Run(Append(Nat, GtDns, udp));
      if !ok { return; }
      AppendsHead(k.rules, Nat, GtDns, tcp, [], k.clock, k.faults);
      ok := k.Run(Append(Nat, GtDns, tcp));
    }

    method AddAllTargets(input: Inputs) returns (ok: bool)
      modifies KernelOf(input.enableIpv6)
      ensures KernelOf(input.enableIpv6).Did(old(KernelOf(input.enableIpv6).rules), old(KernelOf(input.enableIpv6).clock),
                                             Appends(Filter, GtBlock, ChainOf(input)), ok)
    {
      var k, ts, quic, ipv6 := KernelOf(input.enableIpv6), input.targets, input.enableQuicBlockGlobal, input.enableIpv6;
      assert ts[0..] == ts;
      for i := 0 to |ts|
        invariant RunSteps(old(k.rules), Appends(Filter, GtBlock, BlockChain(ts, quic, ipv6)), old(k.clock), k.faults)
               == RunSteps(k.rules, Appends(Filter, GtBlock, BlockChain(ts[i..], quic, ipv6)), k.clock, k.faults)
      {
        ghost var now, rest := TargetRules(ts[i], quic, ipv6), BlockChain(ts[i + 1..], quic, ipv6);
        assert ts[i..][1..] == ts[i + 1..];
        AppendsConcat(Filter, GtBlock, now, rest);
        RunStepsConcat(k.rules, Appends(Filter, GtBlock, now), Appends(Filter, GtBlock, rest), k.clock, k.faults);
        ok := AddTargetRules(ts[i], quic, ipv6);
        if !ok { return; }
      }
      ok := true;
    }

    method RefillFilterChain(input: Inputs) returns (ok: bool)
      modifies KernelOf(input.enableIpv6)
      ensures KernelOf(input.enableIpv6).Did(old(KernelOf(input.enableIpv6).rules), old(KernelOf(input.enableIpv6).clock),
                                             FilterScript() + Appends(Filter, GtBlock, ChainOf(input)), ok)
    {
      var ipv6 := input.enableIpv6;
      var k := KernelOf(ipv6);
      ghost var ensure := [Try(NewChain(Filter, GtBlock)), EnsureFirst(Filter, FORWARD, BLOCK_HOOK)];
      ghost var flush := [Must(Flush(Filter, GtBlock))];
      ghost var chain := Appends(Filter, GtBlock, ChainOf(input));
      assert FilterScript() + chain == ensure + (flush + chain);
      RunStepsConcat(k.rules, ensure, flush + chain, k.clock, k.faults);
      ok := EnsureFilterChain(ipv6);
      if !ok { return; }
      RunStepsConcat(k.rules, flush, chain, k.clock, k.faults);
      ok := FlushFilterChain(ipv6);
      if !ok { return; }
      ok := AddAllTargets(input);
    }

    /** The rebuild inside syncFamily, up to the first failing call. */
    method Rebuild(input: Inputs) returns (ok: bool)
      modifies KernelOf(input.enableIpv6)
      ensures KernelOf(input.enableIpv6).Did(old(KernelOf(input.enableIpv6).rules), old(KernelOf(input.enableIpv6).clock),
                                             Script(input, config.dohReputationIps), ok)
    {
      var ipv6 := input.enableIpv6;
      var k := KernelOf(ipv6);
      ghost var filter := FilterScript() + Appends(Filter, GtBlock, ChainOf(input));
      ghost var doh := if input.enableDohBlock then DohScript(config.dohReputationIps, ipv6) else [];
      ghost var dns := if input.enableDnsRedirect then DnsScript(input.dnsRedirectIp) else [];
      RunStepsConcat(k.rules, filter + doh, dns, k.clock, k.faults);
      RunStepsConcat(k.rules, filter, doh, k.clock, k.faults);
      ok := RefillFilterChain(input);
      if !ok { return; }
      if input.enableDohBlock {
        ok := EnsureDohDotBlock(ipv6);
        if !ok { return; }
      }
      if input.enableDnsRedirect {
        ok := EnsureDnsRedirect(input.dnsRedirectIp, ipv6);
      }
    }

    /** One family: skipped when the signature is the remembered one; otherwise rebuilt, and put back if that fails.
        The outcome is exactly that of the state machine, whether the snapshot and restore tools work this time or
        not. */
    method SyncFamily(input: Inputs, tools: Tools) returns (ok: bool)
      requires Valid()
      modifies this`lastSyncSignatures, KernelOf(input.enableIpv6)
      ensures Runs.Synced(State(input.enableIpv6), ok)
              == Runs.SyncFamily(old(State(input.enableIpv6)), Runs.Cycle(input, tools), config.dohReputationIps,
                                 KernelOf(input.enableIpv6).faults)
      ensures State(!input.enableIpv6) == old(State(!input.enableIpv6))
    {
      var ipv6 := input.enableIpv6;
      var k := KernelOf(ipv6);
      var signature := SummaryOf(input);
      if ipv6 in lastSyncSignatures && lastSyncSignatures[ipv6] == signature {
        return true;
      }
      var snapshot := k.Save(tools.save);
      ok := Rebuild(input);
      if ok {
        lastSyncSignatures := lastSyncSignatures[ipv6 := signature];
      } else {
        k.Restore(snapshot, tools.restore);
      }
    }

    /** Both families. An IPv4 failure is the caller's; an IPv6 failure is contained and touches neither the IPv4
        ruleset nor its remembered signature. `ok6` is whether the IPv6 pass ran and returned. */
    method Sync(request: Inputs, tools4: Tools, tools6: Tools) returns (ok: bool, ghost ok6: bool)
      requires Valid()
      modifies this`lastSyncSignatures, v4, v6
      ensures Runs.Synced(State(false), ok)
              == Runs.SyncFamily(old(State(false)), Runs.Cycle(PassInputs(request, config.dnsRedirectIpv6, false), tools4),
                                 config.dohReputationIps, v4.faults)
      ensures Runs.Synced(State(true), ok6)
              == if ok && config.enableIpv6
                 then Runs.SyncFamily(old(State(true)), Runs.Cycle(PassInputs(request, config.dnsRedirectIpv6, true), tools6),
                                      config.dohReputationIps, v6.faults)
                 else Runs.Synced(old(State(true)), false)
    {
      ok6 := false;
      ok := SyncFamily(PassInputs(request, config.dnsRedirectIpv6, false), tools4);
      if ok && config.enableIpv6 {
        var done := SyncFamily(PassInputs(request, config.dnsRedirectIpv6, true), tools6);
        ok6 := done;
      }
    }
  }
}
