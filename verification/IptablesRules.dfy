/** The rules the iptables backend writes for a policy, the script of commands that writes them, and what a
    completed script leaves in the kernel (iptables-controller.js). */
module IptablesRules {
  import opened Options
  import opened Patterns
  import opened Policy
  import opened Netfilter

  const BLOCK_HOOK: Rule := Rule([], Jump(GtBlock), NoComment)

  const DOH_HOOK: Rule := Rule([], Jump(GtDoh), NoComment)

  function DnsHook(proto: Proto): Rule {
    Rule([ProtoIs(proto), DportIs(53)], Jump(GtDns), NoComment)
  }

  // ---------------------------------------------------------------- rules

  function BlockIpRule(id: string, addr: nat): Rule {
    Rule([SrcIs(addr)], Drop, BlockIp(id))
  }

  function BlockMacRule(id: string, mac: string): Rule {
    Rule([MacIs(mac)], Drop, BlockMac(id))
  }

  function VpnPortRule(id: string, addr: nat, sig: PortSignature): Rule {
    Rule([SrcIs(addr), ProtoIs(sig.proto), DportIs(sig.port)], Drop, VpnPort(id, sig.port))
  }

  function VpnRangeRule(id: string, addr: nat, range: Range): Rule {
    Rule([SrcIs(addr), DstIn(range.base, range.prefix)], Drop, VpnRange(id))
  }

  function QuicRule(id: string, addr: nat): Rule {
    Rule([SrcIs(addr), ProtoIs(Udp), DportIs(443)], Drop, Quic(id))
  }

  function DotRule(proto: Proto, port: nat): Rule {
    Rule([ProtoIs(proto), DportIs(port)], Drop, NoComment)
  }

  function DohRule(provider: Provider): Rule {
    Rule([DstIs(provider.ip), ProtoIs(Tcp), DportIs(443)], Drop, Doh(provider.name))
  }

  function DnsRule(proto: Proto, addr: nat): Rule {
    Rule([ProtoIs(proto), DportIs(53)], Dnat(addr, 53), NoComment)
  }

  function IpRules(t: Target, ipv6: bool): seq<Rule> {
    var addr := AddressOf(t, ipv6);
    if addr.Some? then [BlockIpRule(t.deviceId, addr.value)] else []
  }

  function MacRules(t: Target): seq<Rule> {
    if t.macAddress.Some? then [BlockMacRule(t.deviceId, t.macAddress.value)] else []
  }

  function BlockRules(t: Target, ipv6: bool): seq<Rule> {
    IpRules(t, ipv6) + MacRules(t)
  }

  function VpnPortRules(id: string, addr: nat, sigs: seq<PortSignature>): (rules: seq<Rule>)
    ensures |rules| == |sigs|
  {
    seq(|sigs|, i requires 0 <= i < |sigs| => VpnPortRule(id, addr, sigs[i]))
  }

  function VpnRangeRules(id: string, addr: nat, ranges: seq<Range>): (rules: seq<Rule>)
    ensures |rules| == |ranges|
  {
    seq(|ranges|, i requires 0 <= i < |ranges| => VpnRangeRule(id, addr, ranges[i]))
  }

  function VpnRules(t: Target, ipv6: bool): seq<Rule> {
    var addr := AddressOf(t, ipv6);
    if addr.None? then []
    else
      VpnPortRules(t.deviceId, addr.value, VPN_PORT_SIGNATURES)
      + if ipv6 then [] else VpnRangeRules(t.deviceId, addr.value, VPN_IP_RANGES)
  }

  function QuicRules(t: Target, ipv6: bool): seq<Rule> {
    var addr := AddressOf(t, ipv6);
    if addr.Some? then [QuicRule(t.deviceId, addr.value)] else []
  }

  function TargetRules(t: Target, quicGlobal: bool, ipv6: bool): seq<Rule> {
    (if t.action.Block? then BlockRules(t, ipv6) else [])
    + (if t.vpnBlock then VpnRules(t, ipv6) else [])
    + (if quicGlobal || t.quicBlock then QuicRules(t, ipv6) else [])
  }

  /** The filter chain of a list of targets. */
  function BlockChain(ts: seq<Target>, quicGlobal: bool, ipv6: bool): seq<Rule> {
    if ts == [] then []
    else TargetRules(ts[0], quicGlobal, ipv6) + BlockChain(ts[1..], quicGlobal, ipv6)
  }

  function DotRules(ports: seq<nat>): seq<Rule> {
    if ports == [] then []
    else [DotRule(Tcp, ports[0]), DotRule(Udp, ports[0])] + DotRules(ports[1..])
  }

  function ProviderRules(providers: seq<Provider>): (rules: seq<Rule>)
    ensures |rules| == |providers|
  {
    seq(|providers|, i requires 0 <= i < |providers| => DohRule(providers[i]))
  }

  function DohChain(reputation: seq<nat>, ipv6: bool): seq<Rule> {
    DotRules(DOT_PORTS) + if ipv6 then [] else ProviderRules(DohProviders(reputation))
  }

  function DnsChain(addr: nat): seq<Rule> {
    [DnsRule(Udp, addr), DnsRule(Tcp, addr)]
  }

  // ---------------------------------------------------------------- the script

  function FilterScript(): seq<Step> {
    [Try(NewChain(Filter, GtBlock)), EnsureFirst(Filter, FORWARD, BLOCK_HOOK), Must(Flush(Filter, GtBlock))]
  }

  function HookSteps(t: Table, hooks: seq<Rule>): (steps: seq<Step>)
    ensures |steps| == |hooks|
    ensures forall i :: 0 <= i < |hooks| ==> steps[i] == EnsureFirst(t, Root(t), hooks[i])
  {
    seq(|hooks|, i requires 0 <= i < |hooks| => EnsureFirst(t, Root(t), hooks[i]))
  }

  /** Making sure a chain exists, emptying it, hooking it in and filling it again. */
  function RefillScript(t: Table, c: Chain, hooks: seq<Rule>, rules: seq<Rule>): seq<Step> {
    [Try(NewChain(t, c))] + ([Must(Flush(t, c))] + (HookSteps(t, hooks) + Appends(t, c, rules)))
  }

  function DohScript(reputation: seq<nat>, ipv6: bool): seq<Step> {
    RefillScript(Filter, GtDoh, [DOH_HOOK], DohChain(reputation, ipv6))
  }

  /** Without a resolver there is nothing to redirect to. In the IPv4 pass there always is one: the
      configuration refuses to start otherwise (gateway-agent/src/config.js:183-185). */
  function DnsScript(resolver: Option<nat>): seq<Step> {
    if resolver.None? then []
    else RefillScript(Nat, GtDns, [DnsHook(Udp), DnsHook(Tcp)], DnsChain(resolver.value))
  }

  function ChainOf(input: Inputs): seq<Rule> {
    BlockChain(input.targets, input.enableQuicBlockGlobal, input.enableIpv6)
  }

  function Script(input: Inputs, reputation: seq<nat>): seq<Step> {
    FilterScript()
    + Appends(Filter, GtBlock, ChainOf(input))
    + (if input.enableDohBlock then DohScript(reputation, input.enableIpv6) else [])
    + (if input.enableDnsRedirect then DnsScript(input.dnsRedirectIp) else [])
  }

  /** The inputs of the pass over one family; `configured` is the IPv6 resolver of the configuration. */
  function PassInputs(request: Inputs, configured: Option<nat>, ipv6: bool): Inputs {
    if !ipv6 then request.(dnsRedirectIpv6 := None, enableIpv6 := false)
    else
      var resolver := if request.dnsRedirectIpv6.Some? then request.dnsRedirectIpv6 else configured;
      request.(dnsRedirectIp := resolver, dnsRedirectIpv6 := None, enableIpv6 := true,
               enableDnsRedirect := request.enableDnsRedirect && resolver.Some?)
  }

  // ---------------------------------------------------------------- what a completed script leaves

  /** A hook is put at the top of its root chain unless it is somewhere in it already. */
  function Hook(cs: Chains, root: Chain, r: Rule): Chains
    requires root in cs
  {
    if r in cs[root] then cs else cs[root := [r] + cs[root]]
  }

  function HookAll(cs: Chains, root: Chain, hooks: seq<Rule>): (r: Chains)
    requires root in cs
    ensures root in r
  {
    if hooks == [] then cs else HookAll(Hook(cs, root, hooks[0]), root, hooks[1..])
  }

  lemma TwoHooks(cs: Chains, root: Chain, a: Rule, b: Rule)
    requires root in cs
    ensures HookAll(cs, root, [a]) == Hook(cs, root, a)
    ensures HookAll(cs, root, [a, b]) == Hook(Hook(cs, root, a), root, b)
  {
    assert [a][1..] == [] && [a, b][1..] == [b] && [b][1..] == [];
    var ca := Hook(cs, root, a);
    assert HookAll(ca, root, [b]) == HookAll(Hook(ca, root, b), root, []);
    assert HookAll(ca, root, []) == ca;
  }

  function WithBlock(cs: Chains, input: Inputs): Chains
    requires FORWARD in cs
  {
    Hook(cs, FORWARD, BLOCK_HOOK)[GtBlock := ChainOf(input)]
  }

  function WithDoh(cs: Chains, input: Inputs, reputation: seq<nat>): Chains
    requires FORWARD in cs
  {
    if input.enableDohBlock
    then Hook(cs, FORWARD, DOH_HOOK)[GtDoh := DohChain(reputation, input.enableIpv6)]
    else cs
  }

  predicate Redirects(input: Inputs) {
    input.enableDnsRedirect && input.dnsRedirectIp.Some?
  }

  function WithDns(cs: Chains, input: Inputs): Chains
    requires PREROUTING in cs
  {
    if Redirects(input)
    then Hook(Hook(cs, PREROUTING, DnsHook(Udp)), PREROUTING, DnsHook(Tcp))[GtDns := DnsChain(input.dnsRedirectIp.value)]
    else cs
  }

  /** The ruleset after a rebuild: GuardTime's chains are exactly those of the policy, hooked in once. */
  function Rebuilt(rs: Ruleset, input: Inputs, reputation: seq<nat>): Ruleset
    requires HasBuiltins(rs)
  {
    Ruleset(WithDoh(WithBlock(rs.filter, input), input, reputation), WithDns(rs.dnat, input))
  }

  /** Some external call numbered in [lo, hi) was made to fail. */
  predicate Faulted(faults: set<nat>, lo: nat, hi: nat) {
    exists i :: lo <= i < hi && i in faults
  }

  lemma TargetRulesDrop(t: Target, quicGlobal: bool, ipv6: bool)
    ensures forall r :: r in TargetRules(t, quicGlobal, ipv6) ==> r.effect.Drop?
  {
    assert forall r :: r in BlockRules(t, ipv6) ==> r.effect.Drop?;
    assert forall r :: r in VpnRules(t, ipv6) ==> r.effect.Drop?;
    assert forall r :: r in QuicRules(t, ipv6) ==> r.effect.Drop?;
  }

  lemma {:induction false} BlockChainDrops(ts: seq<Target>, quicGlobal: bool, ipv6: bool)
    ensures forall r :: r in BlockChain(ts, quicGlobal, ipv6) ==> r.effect.Drop?
  {
    if ts != [] {
      TargetRulesDrop(ts[0], quicGlobal, ipv6);
      BlockChainDrops(ts[1..], quicGlobal, ipv6);
    }
  }

  lemma {:induction false} DotRulesDrop(ports: seq<nat>)
    ensures forall r :: r in DotRules(ports) ==> r.effect.Drop?
  {
    if ports != [] {
      DotRulesDrop(ports[1..]);
    }
  }

  lemma DohChainDrops(reputation: seq<nat>, ipv6: bool)
    ensures forall r :: r in DohChain(reputation, ipv6) ==> r.effect.Drop?
  {
    DotRulesDrop(DOT_PORTS);
  }

  /** Two steps in a row. */
  lemma RunStepsCons(rs: Ruleset, step: Step, rest: seq<Step>, clock: nat, faults: set<nat>)
    ensures var first := RunStep(rs, step, clock, faults);
            RunSteps(rs, [step] + rest, clock, faults)
            == if first.ok then RunSteps(first.rules, rest, first.clock, faults) else first
  {
    assert ([step] + rest)[0] == step && ([step] + rest)[1..] == rest;
  }

  /** A phase that ended `o` after `clock` either did what `rs` says or was stopped by a failed call. */
  predicate Completes(o: Outcome, rs: Ruleset, clock: nat, faults: set<nat>) {
    clock <= o.clock && if o.ok then o.rules == rs else Faulted(faults, clock, o.clock)
  }

  /** Appending to a chain that was just emptied fills it with exactly the given rules. */
  lemma FillCompletes(rs: Ruleset, t: Table, c: Chain, rules: seq<Rule>, clock: nat, faults: set<nat>)
    requires c in rs.At(t) && rs.At(t)[c] == [] && NoJumps(rules)
    ensures Completes(RunSteps(rs, Appends(t, c, rules), clock, faults), rs.With(t, rs.At(t)[c := rules]), clock, faults)
  {
    RunAppends(rs, t, c, rules, clock, faults);
    var n := Unfailed(clock, |rules|, faults);
    if n == |rules| {
      assert rules[..n] == rules && [] + rules == rules;
    } else {
      assert clock + n in faults;
    }
  }

  lemma FilterScriptCompletes(rs: Ruleset, clock: nat, faults: set<nat>)
    requires HasBuiltins(rs)
    ensures Completes(RunSteps(rs, FilterScript(), clock, faults),
                      rs.(filter := Hook(rs.filter, FORWARD, BLOCK_HOOK)[GtBlock := []]), clock, faults)
  {
    var steps := FilterScript();
    var a := RunStep(rs, steps[0], clock, faults);
    var b := RunStep(a.rules, steps[1], a.clock, faults);
    RunStepsCons(rs, steps[0], steps[1..], clock, faults);
    RunStepsCons(a.rules, steps[1], steps[2..], a.clock, faults);
    RunStepsSingle(b.rules, steps[2], b.clock, faults);
    assert steps == [steps[0]] + steps[1..] && steps[1..] == [steps[1]] + steps[2..] && steps[2..] == [steps[2]];
  }

  lemma {:induction false} HooksComplete(rs: Ruleset, t: Table, hooks: seq<Rule>, clock: nat, faults: set<nat>)
    requires Root(t) in rs.At(t) && forall h :: h in hooks ==> Resolves(rs.At(t), h)
    ensures Completes(RunSteps(rs, HookSteps(t, hooks), clock, faults),
                      rs.With(t, HookAll(rs.At(t), Root(t), hooks)), clock, faults)
    decreases |hooks|
  {
    if hooks != [] {
      var steps := HookSteps(t, hooks);
      var first := RunStep(rs, steps[0], clock, faults);
      assert steps[1..] == HookSteps(t, hooks[1..]) && hooks[0] in hooks;
      if first.ok {
        assert first.rules == rs.With(t, Hook(rs.At(t), Root(t), hooks[0]));
        assert forall h :: h in hooks[1..] ==> h in hooks && Resolves(rs.At(t), h);
        HooksComplete(first.rules, t, hooks[1..], first.clock, faults);
      }
    }
  }

  lemma {:induction false} HookAllElsewhere(cs: Chains, root: Chain, hooks: seq<Rule>, c: Chain, rules: seq<Rule>)
    requires root in cs && c != root
    ensures HookAll(cs[c := rules], root, hooks) == HookAll(cs, root, hooks)[c := rules]
  {
    if hooks != [] {
      var next := Hook(cs, root, hooks[0]);
      assert Hook(cs[c := rules], root, hooks[0]) == next[c := rules];
      HookAllElsewhere(next, root, hooks[1..], c, rules);
    }
  }

  /** A refill leaves the chain with exactly its rules, hooked in. */
  lemma RefillCompletes(rs: Ruleset, t: Table, c: Chain, hooks: seq<Rule>, rules: seq<Rule>, clock: nat, faults: set<nat>)
    requires Root(t) in rs.At(t) && c != Root(t) && NoJumps(rules)
    requires forall h :: h in hooks ==> h.effect == Jump(c)
    ensures Completes(RunSteps(rs, RefillScript(t, c, hooks, rules), clock, faults),
                      rs.With(t, HookAll(rs.At(t), Root(t), hooks)[c := rules]), clock, faults)
  {
    var fill, hook := Appends(t, c, rules), HookSteps(t, hooks);
    var new_, flush := Try(NewChain(t, c)), Must(Flush(t, c));
    var a := RunStep(rs, new_, clock, faults);
    var b := RunStep(a.rules, flush, a.clock, faults);
    RunStepsCons(rs, new_, [flush] + (hook + fill), clock, faults);
    RunStepsCons(a.rules, flush, hook + fill, a.clock, faults);
    if b.ok {
      var cs := rs.At(t);
      assert b.rules == rs.With(t, cs[c := []]);
      RunStepsConcat(b.rules, hook, fill, b.clock, faults);
      HooksComplete(b.rules, t, hooks, b.clock, faults);
      HookAllElsewhere(cs, Root(t), hooks, c, []);
      var d := RunSteps(b.rules, hook, b.clock, faults);
      if d.ok {
        FillCompletes(d.rules, t, c, rules, d.clock, faults);
        assert HookAll(cs, Root(t), hooks)[c := []][c := rules] == HookAll(cs, Root(t), hooks)[c := rules];
      }
    }
  }

  lemma DohScriptCompletes(rs: Ruleset, reputation: seq<nat>, ipv6: bool, clock: nat, faults: set<nat>)
    requires HasBuiltins(rs)
    ensures Completes(RunSteps(rs, DohScript(reputation, ipv6), clock, faults),
                      rs.(filter := Hook(rs.filter, FORWARD, DOH_HOOK)[GtDoh := DohChain(reputation, ipv6)]), clock, faults)
  {
    DohChainDrops(reputation, ipv6);
    RefillCompletes(rs, Filter, GtDoh, [DOH_HOOK], DohChain(reputation, ipv6), clock, faults);
    TwoHooks(rs.filter, FORWARD, DOH_HOOK, DOH_HOOK);
  }

  lemma DnsScriptCompletes(rs: Ruleset, addr: nat, clock: nat, faults: set<nat>)
    requires HasBuiltins(rs)
    ensures Completes(RunSteps(rs, DnsScript(Some(addr)), clock, faults),
                      rs.(dnat := Hook(Hook(rs.dnat, PREROUTING, DnsHook(Udp)), PREROUTING, DnsHook(Tcp))[GtDns := DnsChain(addr)]),
                      clock, faults)
  {
    RefillCompletes(rs, Nat, GtDns, [DnsHook(Udp), DnsHook(Tcp)], DnsChain(addr), clock, faults);
    TwoHooks(rs.dnat, PREROUTING, DnsHook(Udp), DnsHook(Tcp));
  }

  /** Two phases in a row. */
  lemma ThenCompletes(rs: Ruleset, a: seq<Step>, mid: Ruleset, b: seq<Step>, end: Ruleset, clock: nat, faults: set<nat>)
    requires Completes(RunSteps(rs, a, clock, faults), mid, clock, faults)
    requires forall clock' :: Completes(RunSteps(mid, b, clock', faults), end, clock', faults)
    ensures Completes(RunSteps(rs, a + b, clock, faults), end, clock, faults)
  {
    RunStepsConcat(rs, a, b, clock, faults);
    var first := RunSteps(rs, a, clock, faults);
    if first.ok {
      assert Completes(RunSteps(mid, b, first.clock, faults), end, first.clock, faults);
    }
  }

  /** The whole script rebuilds GuardTime's part of the ruleset, and only a failed call can stop it. */
  lemma ScriptRebuilds(rs: Ruleset, input: Inputs, reputation: seq<nat>, clock: nat, faults: set<nat>)
    requires HasBuiltins(rs)
    ensures Completes(RunSteps(rs, Script(input, reputation), clock, faults),
                      Rebuilt(rs, input, reputation), clock, faults)
  {
    var rs1 := rs.(filter := Hook(rs.filter, FORWARD, BLOCK_HOOK)[GtBlock := []]);
    var rs2 := rs.(filter := WithBlock(rs.filter, input));
    var rs3 := rs.(filter := WithDoh(WithBlock(rs.filter, input), input, reputation));
    var fill := Appends(Filter, GtBlock, ChainOf(input));
    var doh := if input.enableDohBlock then DohScript(reputation, input.enableIpv6) else [];
    var dns := if input.enableDnsRedirect then DnsScript(input.dnsRedirectIp) else [];
    FilterScriptCompletes(rs, clock, faults);
    BlockChainDrops(input.targets, input.enableQuicBlockGlobal, input.enableIpv6);
    forall k: nat ensures Completes(RunSteps(rs1, fill, k, faults), rs2, k, faults) {
      FillCompletes(rs1, Filter, GtBlock, ChainOf(input), k, faults);
      assert rs1.filter[GtBlock := ChainOf(input)] == rs2.filter;
    }
    ThenCompletes(rs, FilterScript(), rs1, fill, rs2, clock, faults);
    forall k: nat ensures Completes(RunSteps(rs2, doh, k, faults), rs3, k, faults) {
      if input.enableDohBlock {
        DohScriptCompletes(rs2, reputation, input.enableIpv6, k, faults);
      }
    }
    ThenCompletes(rs, FilterScript() + fill, rs2, doh, rs3, clock, faults);
    forall k: nat ensures Completes(RunSteps(rs3, dns, k, faults), Rebuilt(rs, input, reputation), k, faults) {
      if Redirects(input) {
        DnsScriptCompletes(rs3, input.dnsRedirectIp.value, k, faults);
      }
    }
    ThenCompletes(rs, FilterScript() + fill + doh, rs3, dns, Rebuilt(rs, input, reputation), clock, faults);
  }
}
