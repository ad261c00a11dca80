/** What GuardTime's nftables rules mean for packets. */
module NftMeaning {
  import opened Options
  import opened Patterns
  import opened Policy
  import opened NftRules

  predicate AnyFires(rules: seq<Rule>, p: Packet) {
    exists r :: r in rules && Fires(r, p)
  }

  predicate AllDrop(rules: seq<Rule>) {
    forall r :: r in rules ==> r.effect.Drop?
  }

  lemma AnyFiresConcat(a: seq<Rule>, b: seq<Rule>, p: Packet)
    ensures AnyFires(a + b, p) <==> AnyFires(a, p) || AnyFires(b, p)
  {
    if AnyFires(a, p) {
      var r :| r in a && Fires(r, p);
      assert r in a + b;
    }
    if AnyFires(b, p) {
      var r :| r in b && Fires(r, p);
      assert r in a + b;
    }
  }

  lemma AnyFiresOne(r: Rule, p: Packet)
    ensures AnyFires([r], p) <==> Fires(r, p)
  {
    assert r in [r];
  }

  lemma {:induction false} WalkOfDrops(rules: seq<Rule>, p: Packet)
    requires AllDrop(rules)
    ensures ChainWalk(rules, p) == if AnyFires(rules, p) then Dropped else Pass
  {
    if rules != [] {
      WalkOfDrops(rules[1..], p);
      assert rules == [rules[0]] + rules[1..];
      AnyFiresConcat([rules[0]], rules[1..], p);
      AnyFiresOne(rules[0], p);
      assert rules[0] in rules;
    }
  }

  /** A target as this backend sees it: its IPv6 address counts only when the family is enforced. */
  function Visible(t: Target, enableIpv6: bool): Target {
    if enableIpv6 then t else t.(ipv6Address := None)
  }

  predicate Mine(t: Target, enableIpv6: bool, p: Packet) {
    AddressOf(Visible(t, enableIpv6), p.ipv6) == Some(p.src)
  }

  predicate MatchesAll(ms: seq<Match>, p: Packet) {
    forall m :: m in ms ==> Matches(m, p)
  }

  lemma FamilyFires(t: Target, ipv6: bool, enableIpv6: bool, extra: seq<Match>, p: Packet)
    ensures AllDrop(FamilyRule(t, ipv6, enableIpv6, extra))
    ensures AnyFires(FamilyRule(t, ipv6, enableIpv6, extra), p)
            <==> p.ipv6 == ipv6 && Mine(t, enableIpv6 || !ipv6, p) && MatchesAll(extra, p)
  {
    var addr := AddressOf(t, ipv6);
    if addr.Some? && (ipv6 ==> enableIpv6) {
      var own := if ipv6 then Ip6Saddr(addr.value) else IpSaddr(addr.value);
      var r := Rule([own] + extra, Drop);
      AnyFiresOne(r, p);
      assert Fires(r, p) <==> Matches(own, p) && MatchesAll(extra, p) by {
        assert own in r.matches && forall m :: m in extra ==> m in r.matches;
      }
    }
  }

  /** The pair of rules, one a family, that most of the policy is written with. */
  lemma BothFire(t: Target, enableIpv6: bool, extra: seq<Match>, p: Packet)
    ensures var rules := FamilyRule(t, false, enableIpv6, extra) + FamilyRule(t, true, enableIpv6, extra);
            && AllDrop(rules)
            && (AnyFires(rules, p) <==> Mine(t, enableIpv6, p) && MatchesAll(extra, p))
  {
    FamilyFires(t, false, enableIpv6, extra, p);
    FamilyFires(t, true, enableIpv6, extra, p);
    AnyFiresConcat(FamilyRule(t, false, enableIpv6, extra), FamilyRule(t, true, enableIpv6, extra), p);
  }

  lemma BlockFires(t: Target, enableIpv6: bool, p: Packet)
    ensures AllDrop(BlockRules(t, enableIpv6))
    ensures AnyFires(BlockRules(t, enableIpv6), p) <==> Mine(t, enableIpv6, p) || t.macAddress == Some(p.mac)
  {
    var ips := FamilyRule(t, false, enableIpv6, []) + FamilyRule(t, true, enableIpv6, []);
    BothFire(t, enableIpv6, [], p);
    if t.macAddress.Some? {
      var r := Rule([EtherSaddr(t.macAddress.value)], Drop);
      AnyFiresConcat(ips, [r], p);
      AnyFiresOne(r, p);
      assert Fires(r, p) <==> t.macAddress == Some(p.mac) by {
        assert EtherSaddr(t.macAddress.value) in r.matches;
      }
    } else {
      AnyFiresConcat(ips, [], p);
    }
  }

  lemma {:induction false} VpnPortsFire(t: Target, enableIpv6: bool, sigs: seq<PortSignature>, p: Packet)
    ensures AllDrop(VpnPortRules(t, enableIpv6, sigs))
    ensures AnyFires(VpnPortRules(t, enableIpv6, sigs), p)
            <==> Mine(t, enableIpv6, p) && exists s :: s in sigs && s.proto == p.proto && s.port == p.dport
  {
    if sigs != [] {
      var extra := [Dport(sigs[0].proto, sigs[0].port)];
      assert extra[0] in extra;
      BothFire(t, enableIpv6, extra, p);
      VpnPortsFire(t, enableIpv6, sigs[1..], p);
      AnyFiresConcat(FamilyRule(t, false, enableIpv6, extra) + FamilyRule(t, true, enableIpv6, extra),
                     VpnPortRules(t, enableIpv6, sigs[1..]), p);
      assert forall s :: s in sigs <==> s == sigs[0] || s in sigs[1..];
    }
  }

  lemma {:induction false} VpnRangesFire(t: Target, ranges: seq<Range>, p: Packet)
    ensures AllDrop(VpnRangeRules(t, ranges))
    ensures AnyFires(VpnRangeRules(t, ranges), p)
            <==> !p.ipv6 && t.ipAddress == Some(p.src) && exists r :: r in ranges && InPrefix(p.dst, r.base, r.prefix)
  {
    if ranges != [] {
      var extra := [IpDaddrIn(ranges[0].base, ranges[0].prefix)];
      assert extra[0] in extra;
      FamilyFires(t, false, false, extra, p);
      VpnRangesFire(t, ranges[1..], p);
      AnyFiresConcat(FamilyRule(t, false, false, extra), VpnRangeRules(t, ranges[1..]), p);
      assert forall r :: r in ranges <==> r == ranges[0] || r in ranges[1..];
    }
  }

  lemma VpnFires(t: Target, enableIpv6: bool, p: Packet)
    ensures AllDrop(VpnRules(t, enableIpv6))
    ensures AnyFires(VpnRules(t, enableIpv6), p)
            <==> Mine(t, enableIpv6, p) && (VpnPortListed(p.proto, p.dport) || (!p.ipv6 && VpnRangeListed(p.dst)))
  {
    VpnPortsFire(t, enableIpv6, VPN_PORT_SIGNATURES, p);
    VpnRangesFire(t, VPN_IP_RANGES, p);
    AnyFiresConcat(VpnPortRules(t, enableIpv6, VPN_PORT_SIGNATURES), VpnRangeRules(t, VPN_IP_RANGES), p);
  }

  lemma QuicFires(t: Target, enableIpv6: bool, p: Packet)
    ensures AllDrop(QuicRules(t, enableIpv6))
    ensures AnyFires(QuicRules(t, enableIpv6), p) <==> Mine(t, enableIpv6, p) && p.proto.Udp? && p.dport == 443
  {
    var extra := [Dport(Udp, 443)];
    assert extra[0] in extra;
    BothFire(t, enableIpv6, extra, p);
  }

  lemma TargetFires(t: Target, quicGlobal: bool, enableIpv6: bool, p: Packet)
    ensures AllDrop(TargetRules(t, quicGlobal, enableIpv6))
    ensures AnyFires(TargetRules(t, quicGlobal, enableIpv6), p) <==> TargetDrops(Visible(t, enableIpv6), quicGlobal, p)
  {
    var block := if t.action.Block? then BlockRules(t, enableIpv6) else [];
    var vpn := if t.vpnBlock then VpnRules(t, enableIpv6) else [];
    var quic := if quicGlobal || t.quicBlock then QuicRules(t, enableIpv6) else [];
    AnyFiresConcat(block + vpn, quic, p);
    AnyFiresConcat(block, vpn, p);
    BlockFires(t, enableIpv6, p);
    VpnFires(t, enableIpv6, p);
    QuicFires(t, enableIpv6, p);
  }

  function AllVisible(ts: seq<Target>, enableIpv6: bool): (vs: seq<Target>)
    ensures |vs| == |ts|
    ensures forall i :: 0 <= i < |ts| ==> vs[i] == Visible(ts[i], enableIpv6)
  {
    seq(|ts|, i requires 0 <= i < |ts| => Visible(ts[i], enableIpv6))
  }

  predicate AnyTargetDrops(ts: seq<Target>, quicGlobal: bool, p: Packet) {
    exists t :: t in ts && TargetDrops(t, quicGlobal, p)
  }

  lemma {:induction false} TargetsFire(ts: seq<Target>, quicGlobal: bool, enableIpv6: bool, p: Packet)
    ensures AllDrop(AllTargetRules(ts, quicGlobal, enableIpv6))
    ensures AnyFires(AllTargetRules(ts, quicGlobal, enableIpv6), p)
            <==> AnyTargetDrops(AllVisible(ts, enableIpv6), quicGlobal, p)
  {
    if ts != [] {
      TargetFires(ts[0], quicGlobal, enableIpv6, p);
      TargetsFire(ts[1..], quicGlobal, enableIpv6, p);
      AnyFiresConcat(TargetRules(ts[0], quicGlobal, enableIpv6), AllTargetRules(ts[1..], quicGlobal, enableIpv6), p);
      assert AllVisible(ts, enableIpv6) == [Visible(ts[0], enableIpv6)] + AllVisible(ts[1..], enableIpv6);
      var vs := AllVisible(ts[1..], enableIpv6);
      assert forall t :: t in AllVisible(ts, enableIpv6) <==> t == Visible(ts[0], enableIpv6) || t in vs;
    }
  }

  lemma {:induction false} DotFires(ports: seq<nat>, p: Packet)
    ensures AllDrop(DotRules(ports))
    ensures AnyFires(DotRules(ports), p) <==> !p.proto.OtherProto? && p.dport in ports
  {
    if ports != [] {
      var tcp, udp := Rule([Dport(Tcp, ports[0])], Drop), Rule([Dport(Udp, ports[0])], Drop);
      DotFires(ports[1..], p);
      AnyFiresConcat([tcp, udp], DotRules(ports[1..]), p);
      assert [tcp, udp] == [tcp] + [udp];
      AnyFiresConcat([tcp], [udp], p);
      AnyFiresOne(tcp, p);
      AnyFiresOne(udp, p);
      assert tcp.matches[0] in tcp.matches && udp.matches[0] in udp.matches;
    }
  }

  lemma ProvidersFire(providers: seq<Provider>, p: Packet)
    ensures AllDrop(ProviderRules(providers))
    ensures AnyFires(ProviderRules(providers), p)
            <==> !p.ipv6 && p.proto.Tcp? && p.dport == 443 && exists q :: q in providers && q.ip == p.dst
  {
    var rules := ProviderRules(providers);
    forall i | 0 <= i < |providers|
      ensures Fires(rules[i], p) <==> !p.ipv6 && p.dst == providers[i].ip && p.proto.Tcp? && p.dport == 443
    {
      assert rules[i].matches[0] in rules[i].matches && rules[i].matches[1] in rules[i].matches;
    }
    if exists q :: q in providers && q.ip == p.dst {
      var i :| 0 <= i < |providers| && providers[i].ip == p.dst;
      assert rules[i] in rules;
    }
  }

  lemma DohFires(reputation: seq<nat>, p: Packet)
    ensures AllDrop(DohRules(reputation))
    ensures AnyFires(DohRules(reputation), p) <==> DohDrops(reputation, p)
  {
    DotFires(DOT_PORTS, p);
    ProvidersFire(DohProviders(reputation), p);
    ProvidersListed(p.dst, reputation);
    AnyFiresConcat(DotRules(DOT_PORTS), ProviderRules(DohProviders(reputation)), p);
  }

  /** The policy this backend enforces: the given one, but blind to IPv6 addresses when the family is off. */
  function VisiblePolicy(input: Inputs): Inputs {
    input.(targets := AllVisible(input.targets, input.enableIpv6))
  }

  /** The filter chain drops exactly the packets of the visible policy, of either family. */
  lemma FilterRefinesPolicy(input: Inputs, reputation: seq<nat>, p: Packet)
    ensures ChainWalk(BlockChain(input, reputation), p)
            == if Drops(VisiblePolicy(input), reputation, p) then Dropped else Pass
  {
    var targets := AllTargetRules(input.targets, input.enableQuicBlockGlobal, input.enableIpv6);
    var doh := if input.enableDohBlock then DohRules(reputation) else [];
    TargetsFire(input.targets, input.enableQuicBlockGlobal, input.enableIpv6, p);
    DohFires(reputation, p);
    AnyFiresConcat(targets, doh, p);
    WalkOfDrops(targets + doh, p);
  }

  /** Where the family is enforced the visible policy is the policy. */
  lemma VisibleDrops(input: Inputs, reputation: seq<nat>, p: Packet)
    requires !p.ipv6 || input.enableIpv6
    ensures Drops(VisiblePolicy(input), reputation, p) == Drops(input, reputation, p)
  {
    var vs := AllVisible(input.targets, input.enableIpv6);
    var q := input.enableQuicBlockGlobal;
    forall i | 0 <= i < |vs| ensures TargetDrops(vs[i], q, p) == TargetDrops(input.targets[i], q, p) {
    }
    if t :| t in input.targets && TargetDrops(t, q, p) {
      var i :| 0 <= i < |vs| && input.targets[i] == t;
      assert vs[i] in vs;
    }
  }

  lemma DnsWalk(addr: nat, p: Packet)
    ensures ChainWalk(DnsRules(addr), p) == if IsDns(p) then Rewritten(addr, 53) else Pass
  {
    var udp, tcp := DnsRules(addr)[0], DnsRules(addr)[1];
    assert udp.matches[0] in udp.matches && tcp.matches[0] in tcp.matches;
    assert DnsRules(addr)[1..] == [tcp] && [tcp][1..] == [];
    assert ChainWalk([tcp], p) == if p.proto.Tcp? && p.dport == 53 then Rewritten(addr, 53) else Pass;
  }
}
