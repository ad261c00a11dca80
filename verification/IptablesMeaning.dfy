/** What GuardTime's iptables rules mean for packets: a rebuilt ruleset drops and redirects exactly what the
    policy says and leaves everything else to the foreign rules. */
module IptablesMeaning {
  import opened Options
  import opened Patterns
  import opened Policy
  import opened Netfilter
  import opened IptablesRules

  predicate AnyFires(rules: seq<Rule>, p: Packet) {
    exists r :: r in rules && Fires(r, p)
  }

  lemma AnyFiresConcat(a: seq<Rule>, b: seq<Rule>, p: Packet)
    ensures AnyFires(a + b, p) <==> AnyFires(a, p) || AnyFires(b, p)
  {
    if AnyFires(a, p) {
      var r :| r in a && Fires(r, p);
      assert r in a + b;
    }
    if AnyFires(b, p) {
      var r :| r in b && Fires(r, p);
      assert r in a + b;
    }
  }

  lemma AnyFiresOne(r: Rule, p: Packet)
    ensures AnyFires([r], p) <==> Fires(r, p)
  {
    assert r in [r];
  }

  lemma FiresOne(m: Match, e: Effect, c: Comment, p: Packet)
    ensures Fires(Rule([m], e, c), p) <==> Matches(m, p)
  {
    assert [m][0] in [m];
  }

  lemma FiresTwo(m: Match, n: Match, e: Effect, c: Comment, p: Packet)
    ensures Fires(Rule([m, n], e, c), p) <==> Matches(m, p) && Matches(n, p)
  {
    assert [m, n][0] in [m, n] && [m, n][1] in [m, n];
  }

  lemma FiresThree(m: Match, n: Match, o: Match, e: Effect, c: Comment, p: Packet)
    ensures Fires(Rule([m, n, o], e, c), p) <==> Matches(m, p) && Matches(n, p) && Matches(o, p)
  {
    assert [m, n, o][0] in [m, n, o] && [m, n, o][1] in [m, n, o] && [m, n, o][2] in [m, n, o];
  }

  lemma BlockFires(t: Target, p: Packet)
    ensures AnyFires(BlockRules(t, p.ipv6), p)
            <==> AddressOf(t, p.ipv6) == Some(p.src) || t.macAddress == Some(p.mac)
  {
    AnyFiresConcat(IpRules(t, p.ipv6), MacRules(t), p);
    var addr := AddressOf(t, p.ipv6);
    if addr.Some? {
      AnyFiresOne(BlockIpRule(t.deviceId, addr.value), p);
      FiresOne(SrcIs(addr.value), Drop, BlockIp(t.deviceId), p);
    }
    if t.macAddress.Some? {
      AnyFiresOne(BlockMacRule(t.deviceId, t.macAddress.value), p);
      FiresOne(MacIs(t.macAddress.value), Drop, BlockMac(t.deviceId), p);
    }
  }

  lemma VpnPortsFire(id: string, addr: nat, sigs: seq<PortSignature>, p: Packet)
    ensures AnyFires(VpnPortRules(id, addr, sigs), p)
            <==> p.src == addr && exists s :: s in sigs && s.proto == p.proto && s.port == p.dport
  {
    var rules := VpnPortRules(id, addr, sigs);
    forall i | 0 <= i < |sigs|
      ensures Fires(rules[i], p) <==> p.src == addr && p.proto == sigs[i].proto && p.dport == sigs[i].port
    {
      FiresThree(SrcIs(addr), ProtoIs(sigs[i].proto), DportIs(sigs[i].port), Drop, VpnPort(id, sigs[i].port), p);
    }
    if exists s :: s in sigs && s.proto == p.proto && s.port == p.dport {
      var i :| 0 <= i < |sigs| && sigs[i].proto == p.proto && sigs[i].port == p.dport;
      assert rules[i] in rules;
    }
  }

  lemma VpnRangesFire(id: string, addr: nat, ranges: seq<Range>, p: Packet)
    ensures AnyFires(VpnRangeRules(id, addr, ranges), p)
            <==> p.src == addr && exists r :: r in ranges && InPrefix(p.dst, r.base, r.prefix)
  {
    var rules := VpnRangeRules(id, addr, ranges);
    forall i | 0 <= i < |ranges|
      ensures Fires(rules[i], p) <==> p.src == addr && InPrefix(p.dst, ranges[i].base, ranges[i].prefix)
    {
      FiresTwo(SrcIs(addr), DstIn(ranges[i].base, ranges[i].prefix), Drop, VpnRange(id), p);
    }
    if exists r :: r in ranges && InPrefix(p.dst, r.base, r.prefix) {
      var i :| 0 <= i < |ranges| && InPrefix(p.dst, ranges[i].base, ranges[i].prefix);
      assert rules[i] in rules;
    }
  }

  lemma VpnFires(t: Target, p: Packet)
    ensures AnyFires(VpnRules(t, p.ipv6), p)
            <==> AddressOf(t, p.ipv6) == Some(p.src)
                 && (VpnPortListed(p.proto, p.dport) || (!p.ipv6 && VpnRangeListed(p.dst)))
  {
    var addr := AddressOf(t, p.ipv6);
    if addr.Some? {
      var ports := VpnPortRules(t.deviceId, addr.value, VPN_PORT_SIGNATURES);
      var ranges := if p.ipv6 then [] else VpnRangeRules(t.deviceId, addr.value, VPN_IP_RANGES);
      AnyFiresConcat(ports, ranges, p);
      VpnPortsFire(t.deviceId, addr.value, VPN_PORT_SIGNATURES, p);
      VpnRangesFire(t.deviceId, addr.value, VPN_IP_RANGES, p);
    }
  }

  lemma QuicFires(t: Target, p: Packet)
    ensures AnyFires(QuicRules(t, p.ipv6), p)
            <==> AddressOf(t, p.ipv6) == Some(p.src) && p.proto.Udp? && p.dport == 443
  {
    var addr := AddressOf(t, p.ipv6);
    if addr.Some? {
      AnyFiresOne(QuicRule(t.deviceId, addr.value), p);
      FiresThree(SrcIs(addr.value), ProtoIs(Udp), DportIs(443), Drop, Quic(t.deviceId), p);
    }
  }

  /** The rules of one target fire on exactly the packets its policy drops. */
  lemma TargetFires(t: Target, quicGlobal: bool, p: Packet)
    ensures AnyFires(TargetRules(t, quicGlobal, p.ipv6), p) <==> TargetDrops(t, quicGlobal, p)
  {
    var block := if t.action.Block? then BlockRules(t, p.ipv6) else [];
    var vpn := if t.vpnBlock then VpnRules(t, p.ipv6) else [];
    var quic := if quicGlobal || t.quicBlock then QuicRules(t, p.ipv6) else [];
    AnyFiresConcat(block + vpn, quic, p);
    AnyFiresConcat(block, vpn, p);
    BlockFires(t, p);
    VpnFires(t, p);
    QuicFires(t, p);
  }

  predicate AnyTargetDrops(ts: seq<Target>, quicGlobal: bool, p: Packet) {
    exists t :: t in ts && TargetDrops(t, quicGlobal, p)
  }

  lemma {:induction false} BlockChainFires(ts: seq<Target>, quicGlobal: bool, p: Packet)
    ensures AnyFires(BlockChain(ts, quicGlobal, p.ipv6), p) <==> AnyTargetDrops(ts, quicGlobal, p)
  {
    if ts != [] {
      TargetFires(ts[0], quicGlobal, p);
      BlockChainFires(ts[1..], quicGlobal, p);
      AnyFiresConcat(TargetRules(ts[0], quicGlobal, p.ipv6), BlockChain(ts[1..], quicGlobal, p.ipv6), p);
      assert forall t :: t in ts <==> t == ts[0] || t in ts[1..];
    }
  }

  lemma {:induction false} DotFires(ports: seq<nat>, p: Packet)
    ensures AnyFires(DotRules(ports), p) <==> !p.proto.OtherProto? && p.dport in ports
  {
    if ports != [] {
      var tcp, udp := DotRule(Tcp, ports[0]), DotRule(Udp, ports[0]);
      DotFires(ports[1..], p);
      AnyFiresConcat([tcp, udp], DotRules(ports[1..]), p);
      AnyFiresConcat([tcp], [udp], p);
      assert [tcp] + [udp] == [tcp, udp];
      AnyFiresOne(tcp, p);
      AnyFiresOne(udp, p);
      FiresTwo(ProtoIs(Tcp), DportIs(ports[0]), Drop, NoComment, p);
      FiresTwo(ProtoIs(Udp), DportIs(ports[0]), Drop, NoComment, p);
    }
  }

  lemma ProvidersFire(providers: seq<Provider>, p: Packet)
    ensures AnyFires(ProviderRules(providers), p)
            <==> p.proto.Tcp? && p.dport == 443 && exists q :: q in providers && q.ip == p.dst
  {
    var rules := ProviderRules(providers);
    forall i | 0 <= i < |providers|
      ensures Fires(rules[i], p) <==> p.dst == providers[i].ip && p.proto.Tcp? && p.dport == 443
    {
      FiresThree(DstIs(providers[i].ip), ProtoIs(Tcp), DportIs(443), Drop, Doh(providers[i].name), p);
    }
    if exists q :: q in providers && q.ip == p.dst {
      var i :| 0 <= i < |providers| && providers[i].ip == p.dst;
      assert rules[i] in rules;
    }
  }

  lemma DohChainFires(reputation: seq<nat>, p: Packet)
    ensures AnyFires(DohChain(reputation, p.ipv6), p) <==> DohDrops(reputation, p)
  {
    var providers := if p.ipv6 then [] else ProviderRules(DohProviders(reputation));
    AnyFiresConcat(DotRules(DOT_PORTS), providers, p);
    DotFires(DOT_PORTS, p);
    ProvidersFire(DohProviders(reputation), p);
    ProvidersListed(p.dst, reputation);
  }

  // ---------------------------------------------------------------- the deployed ruleset

  /** The ruleset is one a rebuild for these inputs would not change. */
  predicate Deployed(rs: Ruleset, input: Inputs, reputation: seq<nat>) {
    HasBuiltins(rs) && Rebuilt(rs, input, reputation) == rs
  }

  /** Nothing is hooked in that the switches of this process would never refresh. */
  predicate FlagsClean(rs: Ruleset, doh: bool, dns: bool) {
    && HasBuiltins(rs)
    && (!doh ==> forall r :: r in rs.filter[FORWARD] && IsHook(r) ==> r.effect != Jump(GtDoh))
    && (!dns ==> forall r :: r in rs.dnat[PREROUTING] ==> !IsHook(r))
    && (forall r :: r in rs.filter[FORWARD] && IsHook(r) ==> r == BLOCK_HOOK || r == DOH_HOOK)
    && (forall r :: r in rs.dnat[PREROUTING] && IsHook(r) ==> r == DnsHook(Udp) || r == DnsHook(Tcp))
  }

  lemma RebuiltDeployed(rs: Ruleset, input: Inputs, reputation: seq<nat>)
    requires HasBuiltins(rs)
    ensures Deployed(Rebuilt(rs, input, reputation), input, reputation)
  {
    var f := WithBlock(rs.filter, input);
    var out := Rebuilt(rs, input, reputation);
    assert BLOCK_HOOK in f[FORWARD];
    assert BLOCK_HOOK in out.filter[FORWARD];
    assert WithBlock(out.filter, input) == out.filter;
    assert WithDoh(out.filter, input, reputation) == out.filter;
    if Redirects(input) {
      var h := Hook(Hook(rs.dnat, PREROUTING, DnsHook(Udp)), PREROUTING, DnsHook(Tcp));
      assert DnsHook(Udp) in h[PREROUTING] && DnsHook(Tcp) in h[PREROUTING];
      assert WithDns(out.dnat, input) == out.dnat;
    }
  }

  lemma DeployedChains(rs: Ruleset, input: Inputs, reputation: seq<nat>)
    requires Deployed(rs, input, reputation)
    ensures BLOCK_HOOK in rs.filter[FORWARD]
    ensures GtBlock in rs.filter && rs.filter[GtBlock] == ChainOf(input)
    ensures input.enableDohBlock ==>
              && DOH_HOOK in rs.filter[FORWARD]
              && GtDoh in rs.filter && rs.filter[GtDoh] == DohChain(reputation, input.enableIpv6)
    ensures Redirects(input) ==>
              && DnsHook(Udp) in rs.dnat[PREROUTING] && DnsHook(Tcp) in rs.dnat[PREROUTING]
              && GtDns in rs.dnat && rs.dnat[GtDns] == DnsChain(input.dnsRedirectIp.value)
  {
    var out := Rebuilt(rs, input, reputation);
    var f := WithBlock(rs.filter, input);
    assert BLOCK_HOOK in f[FORWARD] && f[GtBlock] == ChainOf(input);
    assert BLOCK_HOOK in out.filter[FORWARD];
    if Redirects(input) {
      var h := Hook(Hook(rs.dnat, PREROUTING, DnsHook(Udp)), PREROUTING, DnsHook(Tcp));
      assert DnsHook(Udp) in h[PREROUTING] && DnsHook(Tcp) in h[PREROUTING];
    }
  }

  lemma HookAlwaysFires(h: Rule, p: Packet)
    requires h.matches == []
    ensures Fires(h, p)
  {
  }

  /** What the two filter chains say of a packet. */
  lemma FilterChainsSay(cs: Chains, input: Inputs, reputation: seq<nat>, p: Packet, depth: nat)
    requires p.ipv6 == input.enableIpv6
    ensures Walk(cs, ChainOf(input), p, depth)
            == if AnyTargetDrops(input.targets, input.enableQuicBlockGlobal, p) then Dropped else FallThrough
    ensures Walk(cs, DohChain(reputation, input.enableIpv6), p, depth)
            == if DohDrops(reputation, p) then Dropped else FallThrough
  {
    BlockChainDrops(input.targets, input.enableQuicBlockGlobal, input.enableIpv6);
    WalkDrops(cs, ChainOf(input), p, depth);
    BlockChainFires(input.targets, input.enableQuicBlockGlobal, p);
    DohChainDrops(reputation, input.enableIpv6);
    WalkDrops(cs, DohChain(reputation, input.enableIpv6), p, depth);
    DohChainFires(reputation, p);
  }

  /** The chains a filter hook can lead to drop only what the policy drops. */
  lemma HookSays(cs: Chains, input: Inputs, reputation: seq<nat>, p: Packet, depth: nat, c: Chain)
    requires p.ipv6 == input.enableIpv6 && c in cs && (c.GtBlock? || (c.GtDoh? && input.enableDohBlock))
    requires c.GtBlock? ==> cs[c] == ChainOf(input)
    requires c.GtDoh? ==> cs[c] == DohChain(reputation, input.enableIpv6)
    ensures Walk(cs, cs[c], p, depth) in {Dropped, FallThrough}
    ensures Walk(cs, cs[c], p, depth).Dropped? ==> Drops(input, reputation, p)
  {
    FilterChainsSay(cs, input, reputation, p, depth);
  }

  /** Each packet the policy drops, the hook of one of its chains decides. */
  lemma HookFound(cs: Chains, input: Inputs, reputation: seq<nat>, p: Packet, depth: nat)
    requires p.ipv6 == input.enableIpv6 && depth > 0 && Drops(input, reputation, p)
    requires GtBlock in cs && cs[GtBlock] == ChainOf(input)
    requires input.enableDohBlock ==> GtDoh in cs && cs[GtDoh] == DohChain(reputation, input.enableIpv6)
    ensures HookDecides(cs, BLOCK_HOOK, p, depth, Dropped) || (input.enableDohBlock && HookDecides(cs, DOH_HOOK, p, depth, Dropped))
  {
    FilterChainsSay(cs, input, reputation, p, depth - 1);
    if AnyTargetDrops(input.targets, input.enableQuicBlockGlobal, p) {
      HookAlwaysFires(BLOCK_HOOK, p);
    } else {
      HookAlwaysFires(DOH_HOOK, p);
    }
  }

  /** Walking FORWARD drops a packet if the policy does, and otherwise does what the foreign rules alone do. */
  lemma ForwardRefinesPolicy(rs: Ruleset, input: Inputs, reputation: seq<nat>, p: Packet, depth: nat)
    requires Deployed(rs, input, reputation) && Hooked(rs.filter, FORWARD)
    requires FlagsClean(rs, input.enableDohBlock, Redirects(input))
    requires p.ipv6 == input.enableIpv6 && depth > 0
    ensures Walk(rs.filter, rs.filter[FORWARD], p, depth)
            == if Drops(input, reputation, p) then Dropped
               else Walk(Foreign(rs).filter, Foreign(rs).filter[FORWARD], p, depth)
  {
    var cs := rs.filter;
    DeployedChains(rs, input, reputation);
    forall r | r in cs[FORWARD] && IsHook(r) && r.effect.chain in cs
      ensures Walk(cs, cs[r.effect.chain], p, depth - 1) in {Dropped, FallThrough}
      ensures HookDecides(cs, r, p, depth, Dropped) ==> Drops(input, reputation, p)
    {
      HookSays(cs, input, reputation, p, depth - 1, r.effect.chain);
    }
    WalkHooked(cs, FORWARD, cs[FORWARD], p, depth, Dropped);
    if Drops(input, reputation, p) {
      HookFound(cs, input, reputation, p, depth);
    }
  }

  lemma DnsChainRewrites(cs: Chains, addr: nat, p: Packet, depth: nat)
    ensures Walk(cs, DnsChain(addr), p, depth) == if IsDns(p) then Rewritten(addr, 53) else FallThrough
  {
    FiresTwo(ProtoIs(Udp), DportIs(53), Dnat(addr, 53), NoComment, p);
    FiresTwo(ProtoIs(Tcp), DportIs(53), Dnat(addr, 53), NoComment, p);
    var tcp := [DnsRule(Tcp, addr)];
    assert DnsChain(addr)[1..] == tcp && tcp[1..] == [];
    assert Walk(cs, tcp, p, depth) == if p.proto.Tcp? && p.dport == 53 then Rewritten(addr, 53) else FallThrough;
  }

  /** The hook of a DNS query's transport sends it to the resolver, and no hook does anything else. */
  lemma DnsHooksSay(cs: Chains, addr: nat, p: Packet, depth: nat)
    requires depth > 0 && GtDns in cs && cs[GtDns] == DnsChain(addr)
    ensures Walk(cs, cs[GtDns], p, depth - 1) in {Rewritten(addr, 53), FallThrough}
    ensures HookDecides(cs, DnsHook(Udp), p, depth, Rewritten(addr, 53)) <==> p.proto.Udp? && IsDns(p)
    ensures HookDecides(cs, DnsHook(Tcp), p, depth, Rewritten(addr, 53)) <==> p.proto.Tcp? && IsDns(p)
  {
    FiresTwo(ProtoIs(Udp), DportIs(53), Jump(GtDns), NoComment, p);
    FiresTwo(ProtoIs(Tcp), DportIs(53), Jump(GtDns), NoComment, p);
    DnsChainRewrites(cs, addr, p, depth - 1);
  }

  /** Walking PREROUTING sends every DNS query to the configured resolver and nothing else. */
  lemma PreroutingRedirects(rs: Ruleset, input: Inputs, reputation: seq<nat>, p: Packet, depth: nat)
    requires Deployed(rs, input, reputation) && Hooked(rs.dnat, PREROUTING)
    requires FlagsClean(rs, input.enableDohBlock, Redirects(input))
    requires depth > 0
    ensures Walk(rs.dnat, rs.dnat[PREROUTING], p, depth)
            == if Redirects(input) && IsDns(p) then Rewritten(input.dnsRedirectIp.value, 53)
               else Walk(Foreign(rs).dnat, Foreign(rs).dnat[PREROUTING], p, depth)
  {
    var cs := rs.dnat;
    if Redirects(input) {
      DeployedChains(rs, input, reputation);
      var addr := input.dnsRedirectIp.value;
      DnsHooksSay(cs, addr, p, depth);
      WalkHooked(cs, PREROUTING, cs[PREROUTING], p, depth, Rewritten(addr, 53));
    } else {
      WalkForeign(cs, PREROUTING, cs[PREROUTING], p, depth);
      NotOursIdentity(cs[PREROUTING]);
    }
  }
}
