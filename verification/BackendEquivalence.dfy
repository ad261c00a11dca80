/** The two firewall backends, compiled independently from the same policy, treat every packet alike. */
module BackendEquivalence {
  import opened Options
  import opened Policy
  import IR = IptablesRules
  import Ipt = IptablesRuns
  import NF = Netfilter
  import NR = NftRules
  import NM = NftMeaning
  import Nft = NftRuns

  /** A family no call of which fails returns normally. */
  lemma QuietFamily(s: Ipt.Family, c: Ipt.Cycle, reputation: seq<nat>)
    requires NF.HasBuiltins(s.rules)
    ensures Ipt.SyncFamily(s, c, reputation, {}).ok
  {
    IR.ScriptRebuilds(s.rules, c.input, reputation, s.clock, {});
  }

  /** The iptables side of one family after a sync in which nothing fails. */
  lemma FamilyEnforces(s: Ipt.Family, input: Inputs, tools: Tools, reputation: seq<nat>)
    requires Ipt.Startable(s, input.enableDohBlock, IR.Redirects(input))
    ensures var r := Ipt.SyncFamily(s, Ipt.Cycle(input, tools), reputation, {});
            r.ok && Ipt.Enforces(r.state.rules, NF.Foreign(s.rules), input, reputation)
  {
    var c := Ipt.Cycle(input, tools);
    QuietFamily(s, c, reputation);
    assert [c][..0] == [];
    assert Ipt.After(s, [], reputation, {}) == s;
    Ipt.EveryReturnEnforces(s, [c], reputation, {}, input.enableDohBlock, IR.Redirects(input), input.enableIpv6);
  }

  /** What the whole iptables side says of a packet: the ruleset of its family. */
  function IptablesForward(r4: NF.Ruleset, r6: NF.Ruleset, p: Packet, depth: nat): NF.Verdict
    requires NF.HasBuiltins(r4) && NF.HasBuiltins(r6)
  {
    var rs := if p.ipv6 then r6 else r4;
    NF.Walk(rs.filter, rs.filter[NF.FORWARD], p, depth)
  }

  function IptablesPrerouting(r4: NF.Ruleset, r6: NF.Ruleset, p: Packet, depth: nat): NF.Verdict
    requires NF.HasBuiltins(r4) && NF.HasBuiltins(r6)
  {
    var rs := if p.ipv6 then r6 else r4;
    NF.Walk(rs.dnat, rs.dnat[NF.PREROUTING], p, depth)
  }

  /** Policies the two passes and the single nftables sync are given. */
  lemma PassesAgree(request: Inputs, configured: Option<nat>, reputation: seq<nat>, p: Packet)
    ensures Drops(IR.PassInputs(request, configured, p.ipv6), reputation, p) == Drops(request, reputation, p)
    ensures IR.Redirects(IR.PassInputs(request, configured, false)) == Nft.Dns4(request)
    ensures request.enableIpv6 ==> IR.Redirects(IR.PassInputs(request, configured, true)) == Nft.Dns6(request, configured)
  {
  }

  /** From kernels whose start is clean, and when no call fails, every IPv4 packet, and every IPv6 packet when the
      family is enabled, is dropped by GuardTime's part of iptables exactly when nftables drops it, and is rewritten
      to the same destination; where GuardTime is silent the foreign rules of the start decide. */
  lemma BackendsAgree(s4: Ipt.Family, s6: Ipt.Family, n: Nft.State, request: Inputs, tools: Tools,
                      configured: Option<nat>, reputation: seq<nat>, p: Packet, depth: nat)
    requires Ipt.Startable(s4, request.enableDohBlock, Nft.Dns4(request))
    requires Ipt.Startable(s6, request.enableDohBlock, IR.Redirects(IR.PassInputs(request, configured, true)))
    requires n.remembered.None? && NR.TablesPresent(n.rules)
    requires Nft.RedirectsClean(n.rules, Nft.Dns4(request), Nft.Dns6(request, configured))
    requires depth > 0 && (!p.ipv6 || request.enableIpv6)
    ensures var t4 := Ipt.SyncFamily(s4, Ipt.Cycle(IR.PassInputs(request, configured, false), tools), reputation, {});
            var t6 := Ipt.SyncFamily(s6, Ipt.Cycle(IR.PassInputs(request, configured, true), tools), reputation, {});
            var m := Nft.Sync(n, Nft.Cycle(request, tools), reputation, configured, {});
            var f4, f6 := NF.Foreign(s4.rules), NF.Foreign(s6.rules);
            var r4, r6, rn := t4.state.rules, t6.state.rules, m.state.rules;
            && t4.ok && t6.ok && m.ok && m.complete
            && NF.HasBuiltins(f4) && NF.HasBuiltins(f6) && NF.HasBuiltins(r4) && NF.HasBuiltins(r6)
            && IptablesForward(r4, r6, p, depth)
               == (if NR.FilterVerdict(rn, p).Dropped? then NF.Dropped else IptablesForward(f4, f6, p, depth))
            && IptablesPrerouting(r4, r6, p, depth)
               == (if NR.NatVerdict(rn, p).Rewritten? then NF.Rewritten(NR.NatVerdict(rn, p).addr, NR.NatVerdict(rn, p).port)
                   else IptablesPrerouting(f4, f6, p, depth))
  {
    var in4, in6 := IR.PassInputs(request, configured, false), IR.PassInputs(request, configured, true);
    PassesAgree(request, configured, reputation, p);
    FamilyEnforces(s4, in4, tools, reputation);
    FamilyEnforces(s6, in6, tools, reputation);
    var c := Nft.Cycle(request, tools);
    Nft.QuietSync(n, c, reputation, configured, {});
    Nft.SyncFaithful(n, c, reputation, configured, {});
    Nft.SyncKeeps(n, c, reputation, configured, {});
    var rn := Nft.Sync(n, c, reputation, configured, {}).state.rules;
    Nft.DeployedEnforces(rn, request, request, reputation, configured);
    NM.VisibleDrops(request, reputation, p);
    assert NR.FilterVerdict(rn, p).Dropped? <==> Drops(request, reputation, p);
  }
}
