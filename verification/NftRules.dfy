/** The nftables backend: its kernel tables, the rules it writes for a policy, the script that writes them and
    what a completed script leaves (nftables-controller.js). */
module NftRules {
  import opened Options
  import opened Patterns
  import opened Policy

  datatype Table = Guardtime | GuardtimeNat | GuardtimeNat6 | OtherTable(name: string)

  /** GuardTime's three chains, one a table, and everybody else's. */
  datatype Chain = FilterChain | Redirect | Redirect6 | OtherChain(table: Table, name: string)

  function TableOf(c: Chain): Table {
    match c
    case FilterChain => Guardtime
    case Redirect => GuardtimeNat
    case Redirect6 => GuardtimeNat6
    case OtherChain(t, _) => t
  }

  datatype Match =
    | IpSaddr(addr: nat)
    | Ip6Saddr(addr: nat)
    | EtherSaddr(mac: string)
    | IpDaddr(addr: nat)
    | IpDaddrIn(base: nat, prefix: nat)
    | Dport(proto: Proto, port: nat)
    | Other(mark: nat)

  datatype Effect = Drop | Dnat(addr: nat) | OtherEffect

  datatype Rule = Rule(matches: seq<Match>, effect: Effect)

  datatype Ruleset = Ruleset(tables: set<Table>, chains: map<Chain, seq<Rule>>)

  // ---------------------------------------------------------------- commands

  datatype Command =
    | AddTable(table: Table)
    | AddChain(chain: Chain)
    | FlushChain(chain: Chain)
    | AddRule(chain: Chain, rule: Rule)

  /** Adding a table or a chain that exists succeeds and changes nothing. */
  function Exec(cmd: Command, rs: Ruleset): Option<Ruleset> {
    match cmd
    case AddTable(t) => Some(rs.(tables := rs.tables + {t}))
    case AddChain(c) =>
      if TableOf(c) !in rs.tables then None
      else if c in rs.chains then Some(rs)
      else Some(rs.(chains := rs.chains[c := []]))
    case FlushChain(c) => if c in rs.chains then Some(rs.(chains := rs.chains[c := []])) else None
    case AddRule(c, r) => if c in rs.chains then Some(rs.(chains := rs.chains[c := rs.chains[c] + [r]])) else None
  }

  datatype Step = Must(cmd: Command) | Try(cmd: Command)

  datatype Outcome = Outcome(ok: bool, rules: Ruleset, clock: nat)

  function RunCommand(rs: Ruleset, cmd: Command, clock: nat, faults: set<nat>): Outcome {
    if clock in faults || Exec(cmd, rs).None?
    then Outcome(false, rs, clock + 1)
    else Outcome(true, Exec(cmd, rs).value, clock + 1)
  }

  function RunStep(rs: Ruleset, step: Step, clock: nat, faults: set<nat>): Outcome {
    var o := RunCommand(rs, step.cmd, clock, faults);
    if step.Try? then o.(ok := true) else o
  }

  function RunSteps(rs: Ruleset, steps: seq<Step>, clock: nat, faults: set<nat>): Outcome
    decreases |steps|
  {
    if steps == [] then Outcome(true, rs, clock)
    else
      var first := RunStep(rs, steps[0], clock, faults);
      if first.ok then RunSteps(first.rules, steps[1..], first.clock, faults) else first
  }

  lemma {:induction false} RunStepsConcat(rs: Ruleset, a: seq<Step>, b: seq<Step>, clock: nat, faults: set<nat>)
    ensures var first := RunSteps(rs, a, clock, faults);
            RunSteps(rs, a + b, clock, faults)
            == if first.ok then RunSteps(first.rules, b, first.clock, faults) else first
    decreases |a|
  {
    if a == [] {
      assert a + b == b;
    } else {
      var first := RunStep(rs, a[0], clock, faults);
      assert (a + b)[0] == a[0] && (a + b)[1..] == a[1..] + b;
      if first.ok {
        RunStepsConcat(first.rules, a[1..], b, first.clock, faults);
      }
    }
  }

  lemma RunStepsCons(rs: Ruleset, step: Step, rest: seq<Step>, clock: nat, faults: set<nat>)
    ensures var first := RunStep(rs, step, clock, faults);
            RunSteps(rs, [step] + rest, clock, faults)
            == if first.ok then RunSteps(first.rules, rest, first.clock, faults) else first
  {
    assert ([step] + rest)[0] == step && ([step] + rest)[1..] == rest;
  }

  function Adds(c: Chain, rules: seq<Rule>): (steps: seq<Step>)
    ensures |steps| == |rules|
    ensures forall i :: 0 <= i < |rules| ==> steps[i] == Must(AddRule(c, rules[i]))
  {
    seq(|rules|, i requires 0 <= i < |rules| => Must(AddRule(c, rules[i])))
  }

  lemma AddsConcat(c: Chain, a: seq<Rule>, b: seq<Rule>)
    ensures Adds(c, a + b) == Adds(c, a) + Adds(c, b)
  {
  }

  predicate Faulted(faults: set<nat>, lo: nat, hi: nat) {
    exists i :: lo <= i < hi && i in faults
  }

  /** A phase that ended `o` after `clock` either left `rs` or was stopped by a failed call. */
  predicate Completes(o: Outcome, rs: Ruleset, clock: nat, faults: set<nat>) {
    clock <= o.clock && if o.ok then o.rules == rs else Faulted(faults, clock, o.clock)
  }

  function Extend(rs: Ruleset, c: Chain, rules: seq<Rule>): Ruleset
    requires c in rs.chains
  {
    rs.(chains := rs.chains[c := rs.chains[c] + rules])
  }

  lemma {:induction false} AddsComplete(rs: Ruleset, c: Chain, rules: seq<Rule>, clock: nat, faults: set<nat>)
    requires c in rs.chains
    ensures Completes(RunSteps(rs, Adds(c, rules), clock, faults), Extend(rs, c, rules), clock, faults)
    decreases |rules|
  {
    if rules == [] {
      assert rs.chains[c] + rules == rs.chains[c];
      assert rs.chains[c := rs.chains[c]] == rs.chains;
    } else {
      var steps := Adds(c, rules);
      assert steps[1..] == Adds(c, rules[1..]);
      var first := RunStep(rs, steps[0], clock, faults);
      if first.ok {
        AddsComplete(first.rules, c, rules[1..], first.clock, faults);
        assert rs.chains[c] + [rules[0]] + rules[1..] == rs.chains[c] + rules;
        assert Extend(first.rules, c, rules[1..]).chains == Extend(rs, c, rules).chains;
      }
    }
  }

  // ---------------------------------------------------------------- rules

  /** One rule for one family, if the target has an address there and the family is enforced. */
  function FamilyRule(t: Target, ipv6: bool, enableIpv6: bool, extra: seq<Match>): seq<Rule> {
    var addr := AddressOf(t, ipv6);
    if addr.None? || (ipv6 && !enableIpv6) then []
    else [Rule([if ipv6 then Ip6Saddr(addr.value) else IpSaddr(addr.value)] + extra, Drop)]
  }

  function BlockRules(t: Target, enableIpv6: bool): seq<Rule> {
    FamilyRule(t, false, enableIpv6, [])
    + FamilyRule(t, true, enableIpv6, [])
    + if t.macAddress.Some? then [Rule([EtherSaddr(t.macAddress.value)], Drop)] else []
  }

  function VpnPortRules(t: Target, enableIpv6: bool, sigs: seq<PortSignature>): seq<Rule> {
    if sigs == [] then []
    else
      FamilyRule(t, false, enableIpv6, [Dport(sigs[0].proto, sigs[0].port)])
      + FamilyRule(t, true, enableIpv6, [Dport(sigs[0].proto, sigs[0].port)])
      + VpnPortRules(t, enableIpv6, sigs[1..])
  }

  function VpnRangeRules(t: Target, ranges: seq<Range>): seq<Rule> {
    if ranges == [] then []
    else FamilyRule(t, false, false, [IpDaddrIn(ranges[0].base, ranges[0].prefix)]) + VpnRangeRules(t, ranges[1..])
  }

  function VpnRules(t: Target, enableIpv6: bool): seq<Rule> {
    VpnPortRules(t, enableIpv6, VPN_PORT_SIGNATURES) + VpnRangeRules(t, VPN_IP_RANGES)
  }

  function QuicRules(t: Target, enableIpv6: bool): seq<Rule> {
    FamilyRule(t, false, enableIpv6, [Dport(Udp, 443)]) + FamilyRule(t, true, enableIpv6, [Dport(Udp, 443)])
  }

  function TargetRules(t: Target, quicGlobal: bool, enableIpv6: bool): seq<Rule> {
    (if t.action.Block? then BlockRules(t, enableIpv6) else [])
    + (if t.vpnBlock then VpnRules(t, enableIpv6) else [])
    + (if quicGlobal || t.quicBlock then QuicRules(t, enableIpv6) else [])
  }

  function AllTargetRules(ts: seq<Target>, quicGlobal: bool, enableIpv6: bool): seq<Rule> {
    if ts == [] then []
    else TargetRules(ts[0], quicGlobal, enableIpv6) + AllTargetRules(ts[1..], quicGlobal, enableIpv6)
  }

  function DotRules(ports: seq<nat>): seq<Rule> {
    if ports == [] then []
    else [Rule([Dport(Tcp, ports[0])], Drop), Rule([Dport(Udp, ports[0])], Drop)] + DotRules(ports[1..])
  }

  function ProviderRule(provider: Provider): Rule {
    Rule([IpDaddr(provider.ip), Dport(Tcp, 443)], Drop)
  }

  function ProviderRules(providers: seq<Provider>): (rules: seq<Rule>)
    ensures |rules| == |providers|
  {
    seq(|providers|, i requires 0 <= i < |providers| => ProviderRule(providers[i]))
  }

  function DohRules(reputation: seq<nat>): seq<Rule> {
    DotRules(DOT_PORTS) + ProviderRules(DohProviders(reputation))
  }

  function DnsRules(addr: nat): seq<Rule> {
    [Rule([Dport(Udp, 53)], Dnat(addr)), Rule([Dport(Tcp, 53)], Dnat(addr))]
  }

  // ---------------------------------------------------------------- the script

  function EmptyScript(c: Chain): seq<Step> {
    [Try(AddTable(TableOf(c)))] + ([Try(AddChain(c))] + [Must(FlushChain(c))])
  }

  function DnsScript(c: Chain, resolver: Option<nat>): seq<Step> {
    if resolver.None? then [] else EmptyScript(c) + Adds(c, DnsRules(resolver.value))
  }

  function BlockChain(input: Inputs, reputation: seq<nat>): seq<Rule> {
    AllTargetRules(input.targets, input.enableQuicBlockGlobal, input.enableIpv6)
    + if input.enableDohBlock then DohRules(reputation) else []
  }

  function Script(input: Inputs, reputation: seq<nat>): seq<Step> {
    EmptyScript(FilterChain)
    + Adds(FilterChain, BlockChain(input, reputation))
    + if input.enableDnsRedirect then DnsScript(Redirect, input.dnsRedirectIp) else []
  }

  /** The IPv6 resolver: the request's or, failing that, the configured one. */
  function Resolver6(input: Inputs, configured: Option<nat>): Option<nat> {
    if input.dnsRedirectIpv6.Some? then input.dnsRedirectIpv6 else configured
  }

  /** The DNS redirect of IPv6, run after the main script; its failure is contained. */
  function Script6(input: Inputs, configured: Option<nat>): seq<Step> {
    if input.enableIpv6 && input.enableDnsRedirect then DnsScript(Redirect6, Resolver6(input, configured)) else []
  }

  // ---------------------------------------------------------------- what completed scripts leave

  function Refilled(rs: Ruleset, c: Chain, rules: seq<Rule>): Ruleset {
    Ruleset(rs.tables + {TableOf(c)}, rs.chains[c := rules])
  }

  function WithDns(rs: Ruleset, c: Chain, on: bool, resolver: Option<nat>): Ruleset {
    if on && resolver.Some? then Refilled(rs, c, DnsRules(resolver.value)) else rs
  }

  function Rebuilt(rs: Ruleset, input: Inputs, reputation: seq<nat>): Ruleset {
    WithDns(Refilled(rs, FilterChain, BlockChain(input, reputation)), Redirect, input.enableDnsRedirect, input.dnsRedirectIp)
  }

  function Rebuilt6(rs: Ruleset, input: Inputs, configured: Option<nat>): Ruleset {
    WithDns(rs, Redirect6, input.enableIpv6 && input.enableDnsRedirect, Resolver6(input, configured))
  }

  /** A table is there whenever one of its chains is. */
  predicate TablesPresent(rs: Ruleset) {
    forall c :: c in rs.chains ==> TableOf(c) in rs.tables
  }

  lemma RefillCompletes(rs: Ruleset, c: Chain, rules: seq<Rule>, clock: nat, faults: set<nat>)
    requires TablesPresent(rs)
    ensures Completes(RunSteps(rs, EmptyScript(c) + Adds(c, rules), clock, faults), Refilled(rs, c, rules), clock, faults)
  {
    var s0, s1, s2 := Try(AddTable(TableOf(c))), Try(AddChain(c)), Must(FlushChain(c));
    var fill := Adds(c, rules);
    assert EmptyScript(c) + fill == [s0] + ([s1] + ([s2] + fill));
    RunStepsCons(rs, s0, [s1] + ([s2] + fill), clock, faults);
    var a := RunStep(rs, s0, clock, faults);
    RunStepsCons(a.rules, s1, [s2] + fill, a.clock, faults);
    var b := RunStep(a.rules, s1, a.clock, faults);
    RunStepsCons(b.rules, s2, fill, b.clock, faults);
    var d := RunStep(b.rules, s2, b.clock, faults);
    if d.ok {
      AddsComplete(d.rules, c, rules, d.clock, faults);
      assert [] + rules == rules;
      assert rs.tables + {TableOf(c)} == d.rules.tables;
      assert d.rules.chains[c := rules] == rs.chains[c := rules];
    }
  }

  /** The main script rebuilds the filter chain and the IPv4 redirect; only a failed call can stop it. */
  lemma ScriptRebuilds(rs: Ruleset, input: Inputs, reputation: seq<nat>, clock: nat, faults: set<nat>)
    requires TablesPresent(rs)
    ensures Completes(RunSteps(rs, Script(input, reputation), clock, faults), Rebuilt(rs, input, reputation), clock, faults)
    ensures TablesPresent(Rebuilt(rs, input, reputation))
  {
    var main := EmptyScript(FilterChain) + Adds(FilterChain, BlockChain(input, reputation));
    var dns := if input.enableDnsRedirect then DnsScript(Redirect, input.dnsRedirectIp) else [];
    RefillCompletes(rs, FilterChain, BlockChain(input, reputation), clock, faults);
    RunStepsConcat(rs, main, dns, clock, faults);
    var first := RunSteps(rs, main, clock, faults);
    if first.ok && input.enableDnsRedirect && input.dnsRedirectIp.Some? {
      RefillCompletes(first.rules, Redirect, DnsRules(input.dnsRedirectIp.value), first.clock, faults);
    }
  }

  lemma Script6Rebuilds(rs: Ruleset, input: Inputs, configured: Option<nat>, clock: nat, faults: set<nat>)
    requires TablesPresent(rs)
    ensures Completes(RunSteps(rs, Script6(input, configured), clock, faults), Rebuilt6(rs, input, configured), clock, faults)
  {
    var resolver := Resolver6(input, configured);
    if input.enableIpv6 && input.enableDnsRedirect && resolver.Some? {
      RefillCompletes(rs, Redirect6, DnsRules(resolver.value), clock, faults);
    }
  }

  // ---------------------------------------------------------------- ownership

  predicate IsOurs(c: Chain) {
    !c.OtherChain?
  }

  function Foreign(rs: Ruleset): map<Chain, seq<Rule>> {
    map c | c in rs.chains && !IsOurs(c) :: rs.chains[c]
  }

  predicate OwnStep(s: Step) {
    match s.cmd
    case AddTable(t) => true
    case AddChain(c) => IsOurs(c)
    case FlushChain(c) => IsOurs(c)
    case AddRule(c, _) => IsOurs(c)
  }

  /** Wherever a script of own steps stops, foreign chains are untouched. */
  lemma {:induction false} ScriptFramed(rs: Ruleset, steps: seq<Step>, clock: nat, faults: set<nat>)
    requires TablesPresent(rs) && forall s :: s in steps ==> OwnStep(s)
    ensures var o := RunSteps(rs, steps, clock, faults);
            Foreign(o.rules) == Foreign(rs) && TablesPresent(o.rules)
    decreases |steps|
  {
    if steps != [] {
      var first := RunStep(rs, steps[0], clock, faults);
      assert steps[0] in steps;
      assert Foreign(first.rules) == Foreign(rs);
      if first.ok {
        ScriptFramed(first.rules, steps[1..], first.clock, faults);
      }
    }
  }

  lemma ScriptsOwn(input: Inputs, reputation: seq<nat>, configured: Option<nat>)
    ensures forall s :: s in Script(input, reputation) ==> OwnStep(s)
    ensures forall s :: s in Script6(input, configured) ==> OwnStep(s)
  {
  }

  // ---------------------------------------------------------------- packets

  predicate Matches(m: Match, p: Packet) {
    match m
    case IpSaddr(a) => !p.ipv6 && p.src == a
    case Ip6Saddr(a) => p.ipv6 && p.src == a
    case EtherSaddr(mac) => p.mac == mac
    case IpDaddr(a) => !p.ipv6 && p.dst == a
    case IpDaddrIn(b, n) => !p.ipv6 && InPrefix(p.dst, b, n)
    case Dport(proto, port) => p.proto == proto && p.dport == port
    case Other(k) => k in p.marks
  }

  predicate Fires(r: Rule, p: Packet) {
    forall m :: m in r.matches ==> Matches(m, p)
  }

  datatype Verdict = Pass | Dropped | Rewritten(addr: nat, port: nat)

  /** A base chain: the first rule that fires and decides. A rewrite without a port keeps the packet's. */
  function ChainWalk(rules: seq<Rule>, p: Packet): Verdict {
    if rules == [] then Pass
    else if !Fires(rules[0], p) || rules[0].effect.OtherEffect? then ChainWalk(rules[1..], p)
    else if rules[0].effect.Drop? then Dropped
    else Rewritten(rules[0].effect.addr, p.dport)
  }

  function ChainVerdict(rs: Ruleset, c: Chain, p: Packet): Verdict {
    if c in rs.chains then ChainWalk(rs.chains[c], p) else Pass
  }

  /** What GuardTime's filter chain says. It hooks into both families. */
  function FilterVerdict(rs: Ruleset, p: Packet): Verdict {
    ChainVerdict(rs, FilterChain, p)
  }

  /** What GuardTime's redirect chains say: each sees the packets of its own family only. */
  function NatVerdict(rs: Ruleset, p: Packet): Verdict {
    ChainVerdict(rs, if p.ipv6 then Redirect6 else Redirect, p)
  }
}
