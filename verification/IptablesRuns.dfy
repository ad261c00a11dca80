/** The synchronisation of one address family as a state machine, and what holds after every run of it:
    whatever commands fail, whether the ruleset was rebuilt or the rebuild was skipped. */
module IptablesRuns {
  import opened Options
  import opened Patterns
  import opened Policy
  import opened Signature
  import opened SignatureSound
  import opened Netfilter
  import opened IptablesRules
  import opened IptablesMeaning

  /** The live ruleset, the number of the next external call, and the remembered signature. */
  datatype Family = Family(rules: Ruleset, clock: nat, remembered: Option<Summary>)

  /** One call of the synchronisation. */
  datatype Cycle = Cycle(input: Inputs, tools: Tools)

  datatype Synced = Synced(state: Family, ok: bool)

  function SyncFamily(s: Family, c: Cycle, reputation: seq<nat>, faults: set<nat>): Synced {
    var summary := SummaryOf(c.input);
    if s.remembered == Some(summary) then Synced(s, true)
    else
      var o := RunSteps(s.rules, Script(c.input, reputation), s.clock, faults);
      if o.ok then Synced(Family(o.rules, o.clock, Some(summary)), true)
      else Synced(Family(if c.tools.Work() then s.rules else o.rules, o.clock, s.remembered), false)
  }

  /** The state after a run of cycles. */
  function After(s: Family, cycles: seq<Cycle>, reputation: seq<nat>, faults: set<nat>): Family {
    if cycles == [] then s
    else SyncFamily(After(s, cycles[..|cycles| - 1], reputation, faults), cycles[|cycles| - 1], reputation, faults).state
  }

  /** Whether the last call of a run returned normally. */
  predicate Returned(s: Family, cycles: seq<Cycle>, reputation: seq<nat>, faults: set<nat>)
    requires cycles != []
  {
    SyncFamily(After(s, cycles[..|cycles| - 1], reputation, faults), cycles[|cycles| - 1], reputation, faults).ok
  }

  // ---------------------------------------------------------------- ownership

  lemma AppendsOurs(t: Table, c: Chain, rules: seq<Rule>)
    requires IsGt(c) && NoJumps(rules)
    ensures AllOurs(Appends(t, c, rules))
  {
    var steps := Appends(t, c, rules);
    forall s | s in steps ensures OursOnly(s) {
      var i :| 0 <= i < |steps| && steps[i] == s;
      assert rules[i] in rules;
    }
  }

  lemma RefillOurs(t: Table, c: Chain, hooks: seq<Rule>, rules: seq<Rule>)
    requires IsGt(c) && NoJumps(rules) && forall h :: h in hooks ==> IsHook(h)
    ensures AllOurs(RefillScript(t, c, hooks, rules))
  {
    AppendsOurs(t, c, rules);
  }

  lemma DohScriptOurs(reputation: seq<nat>, ipv6: bool)
    ensures AllOurs(DohScript(reputation, ipv6))
  {
    DohChainDrops(reputation, ipv6);
    RefillOurs(Filter, GtDoh, [DOH_HOOK], DohChain(reputation, ipv6));
  }

  lemma DnsScriptOurs(resolver: Option<nat>)
    ensures AllOurs(DnsScript(resolver))
  {
    if resolver.Some? {
      RefillOurs(Nat, GtDns, [DnsHook(Udp), DnsHook(Tcp)], DnsChain(resolver.value));
    }
  }

  lemma ScriptAllOurs(input: Inputs, reputation: seq<nat>)
    ensures AllOurs(Script(input, reputation))
  {
    BlockChainDrops(input.targets, input.enableQuicBlockGlobal, input.enableIpv6);
    AppendsOurs(Filter, GtBlock, ChainOf(input));
    DohScriptOurs(reputation, input.enableIpv6);
    DnsScriptOurs(input.dnsRedirectIp);
  }

  /** Over any run, whatever fails and even when a rollback is lost, foreign chains and foreign rules keep
      their contents and order, the hooks stay at the top and none of them is doubled. */
  lemma {:induction false} ForeignRulesSurvive(s: Family, cycles: seq<Cycle>, reputation: seq<nat>, faults: set<nat>)
    ensures Framed(s.rules, After(s, cycles, reputation, faults).rules)
    ensures Foreign(After(s, cycles, reputation, faults).rules) == Foreign(s.rules)
  {
    if cycles != [] {
      var c := cycles[|cycles| - 1];
      var before := After(s, cycles[..|cycles| - 1], reputation, faults);
      ForeignRulesSurvive(s, cycles[..|cycles| - 1], reputation, faults);
      ScriptAllOurs(c.input, reputation);
      ScriptFramed(before.rules, Script(c.input, reputation), before.clock, faults);
    }
  }

  // ---------------------------------------------------------------- hooks of this process only

  /** A step of a script under the given switches. */
  predicate Allowed(step: Step, doh: bool, dns: bool) {
    match step
    case Must(cmd) => OwnEdit(cmd)
    case Try(cmd) => OwnEdit(cmd)
    case EnsureFirst(t, c, r) =>
      || (t == Filter && c == FORWARD && (r == BLOCK_HOOK || (doh && r == DOH_HOOK)))
      || (t == Nat && c == PREROUTING && dns && (r == DnsHook(Tcp) || r == DnsHook(Udp)))
  }

  lemma RefillHooks(t: Table, c: Chain, hooks: seq<Rule>, rules: seq<Rule>)
    ensures forall s :: s in RefillScript(t, c, hooks, rules) && s.EnsureFirst? ==>
              s.table == t && s.chain == Root(t) && s.rule in hooks
  {
    var steps := RefillScript(t, c, hooks, rules);
    forall s | s in steps && s.EnsureFirst? ensures s in HookSteps(t, hooks) {
      assert s !in Appends(t, c, rules);
    }
  }

  lemma ScriptAllowed(input: Inputs, reputation: seq<nat>)
    ensures forall s :: s in Script(input, reputation) ==> Allowed(s, input.enableDohBlock, Redirects(input))
  {
    ScriptAllOurs(input, reputation);
    var d, n := input.enableDohBlock, Redirects(input);
    assert forall s :: s in FilterScript() ==> Allowed(s, d, n);
    if d {
      RefillHooks(Filter, GtDoh, [DOH_HOOK], DohChain(reputation, input.enableIpv6));
    }
    if n {
      RefillHooks(Nat, GtDns, [DnsHook(Udp), DnsHook(Tcp)], DnsChain(input.dnsRedirectIp.value));
    }
  }

  lemma StepClean(rs: Ruleset, step: Step, clock: nat, faults: set<nat>, doh: bool, dns: bool)
    requires Allowed(step, doh, dns) && FlagsClean(rs, doh, dns)
    ensures FlagsClean(RunStep(rs, step, clock, faults).rules, doh, dns)
  {
  }

  lemma {:induction false} StepsClean(rs: Ruleset, steps: seq<Step>, clock: nat, faults: set<nat>, doh: bool, dns: bool)
    requires FlagsClean(rs, doh, dns) && forall s :: s in steps ==> Allowed(s, doh, dns)
    ensures FlagsClean(RunSteps(rs, steps, clock, faults).rules, doh, dns)
    decreases |steps|
  {
    if steps != [] {
      var first := RunStep(rs, steps[0], clock, faults);
      assert steps[0] in steps;
      StepClean(rs, steps[0], clock, faults, doh, dns);
      if first.ok {
        StepsClean(first.rules, steps[1..], first.clock, faults, doh, dns);
      }
    }
  }

  /** The switches and the family are fixed for the life of the process (gateway-agent/src/main.js:127). */
  predicate Fixed(cycles: seq<Cycle>, doh: bool, dns: bool, ipv6: bool) {
    forall c :: c in cycles ==>
      c.input.enableDohBlock == doh && Redirects(c.input) == dns && c.input.enableIpv6 == ipv6
  }

  lemma {:induction false} RunsClean(s: Family, cycles: seq<Cycle>, reputation: seq<nat>, faults: set<nat>,
                                     doh: bool, dns: bool, ipv6: bool)
    requires FlagsClean(s.rules, doh, dns) && Fixed(cycles, doh, dns, ipv6)
    ensures FlagsClean(After(s, cycles, reputation, faults).rules, doh, dns)
  {
    if cycles != [] {
      var c := cycles[|cycles| - 1];
      var before := After(s, cycles[..|cycles| - 1], reputation, faults);
      RunsClean(s, cycles[..|cycles| - 1], reputation, faults, doh, dns, ipv6);
      ScriptClean(before.rules, c.input, reputation, before.clock, faults);
    }
  }

  // ---------------------------------------------------------------- the cache and the rollback

  /** What is remembered describes what is live. */
  ghost predicate Faithful(s: Family, reputation: seq<nat>) {
    s.remembered.Some? ==>
      exists i: Inputs :: SummaryOf(i) == s.remembered.value && Deployed(s.rules, i, reputation)
  }

  /** Whether a lost rollback is pending after one more call: a completed rebuild settles it, a failed one that is not
      undone makes it so. */
  predicate LostBy(lost: bool, s: Family, c: Cycle, reputation: seq<nat>, faults: set<nat>) {
    if SyncFamily(s, c, reputation, faults).ok then lost && s.remembered == Some(SummaryOf(c.input))
    else lost || !c.tools.Work()
  }

  /** Some rebuild of the run failed without being undone, and none has completed since. */
  predicate Lost(s: Family, cycles: seq<Cycle>, reputation: seq<nat>, faults: set<nat>) {
    cycles != [] &&
    (var init := cycles[..|cycles| - 1];
     LostBy(Lost(s, init, reputation, faults), After(s, init, reputation, faults), cycles[|cycles| - 1], reputation, faults))
  }

  /** A call that throws with a working snapshot leaves the ruleset and the memory exactly as they were; a call
      from a kernel on which no command fails never throws. */
  lemma FailedSyncUndone(s: Family, c: Cycle, reputation: seq<nat>, faults: set<nat>)
    requires HasBuiltins(s.rules) && !SyncFamily(s, c, reputation, faults).ok
    ensures SyncFamily(s, c, reputation, faults).state.remembered == s.remembered
    ensures c.tools.Work() ==> SyncFamily(s, c, reputation, faults).state.rules == s.rules
    ensures Faulted(faults, s.clock, SyncFamily(s, c, reputation, faults).state.clock)
  {
    ScriptRebuilds(s.rules, c.input, reputation, s.clock, faults);
  }

  lemma SyncFaithful(s: Family, c: Cycle, reputation: seq<nat>, faults: set<nat>, lost: bool)
    requires HasBuiltins(s.rules) && (!lost ==> Faithful(s, reputation))
    ensures var r := SyncFamily(s, c, reputation, faults);
            (!LostBy(lost, s, c, reputation, faults) ==> Faithful(r.state, reputation)) &&
            (r.ok ==> r.state.remembered == Some(SummaryOf(c.input)))
  {
    ScriptRebuilds(s.rules, c.input, reputation, s.clock, faults);
    RebuiltDeployed(s.rules, c.input, reputation);
    var r := SyncFamily(s, c, reputation, faults);
    if r.ok && s.remembered != Some(SummaryOf(c.input)) {
      assert Deployed(r.state.rules, c.input, reputation);
    }
  }

  lemma {:induction false} RunsFaithful(s: Family, cycles: seq<Cycle>, reputation: seq<nat>, faults: set<nat>)
    requires HasBuiltins(s.rules) && Faithful(s, reputation)
    ensures !Lost(s, cycles, reputation, faults) ==> Faithful(After(s, cycles, reputation, faults), reputation)
  {
    if cycles != [] {
      var init := cycles[..|cycles| - 1];
      RunsFaithful(s, init, reputation, faults);
      ForeignRulesSurvive(s, init, reputation, faults);
      SyncFaithful(After(s, init, reputation, faults), cycles[|cycles| - 1], reputation, faults, Lost(s, init, reputation, faults));
    }
  }

  /** After a normal return with no lost rollback pending, the live ruleset is that of inputs with the signature of the
      last ones. */
  lemma ReturnDeployed(s: Family, cycles: seq<Cycle>, reputation: seq<nat>, faults: set<nat>) returns (live: Inputs)
    requires HasBuiltins(s.rules) && Faithful(s, reputation)
    requires cycles != [] && Returned(s, cycles, reputation, faults) && !Lost(s, cycles, reputation, faults)
    ensures SummaryOf(live) == SummaryOf(cycles[|cycles| - 1].input)
    ensures Deployed(After(s, cycles, reputation, faults).rules, live, reputation)
  {
    var init, c := cycles[..|cycles| - 1], cycles[|cycles| - 1];
    RunsFaithful(s, init, reputation, faults);
    RunsFaithful(s, cycles, reputation, faults);
    ForeignRulesSurvive(s, init, reputation, faults);
    SyncFaithful(After(s, init, reputation, faults), c, reputation, faults, Lost(s, init, reputation, faults));
    var end := After(s, cycles, reputation, faults);
    live :| SummaryOf(live) == SummaryOf(c.input) && Deployed(end.rules, live, reputation);
  }

  /** The live ruleset gives every packet of the family the verdict of the policy, and of the rules in `base`
      where the policy says nothing. */
  ghost predicate Enforces(rs: Ruleset, base: Ruleset, input: Inputs, reputation: seq<nat>) {
    && HasBuiltins(rs) && HasBuiltins(base)
    && forall p: Packet, depth: nat :: p.ipv6 == input.enableIpv6 && depth > 0 ==>
         && Walk(rs.filter, rs.filter[FORWARD], p, depth)
            == (if Drops(input, reputation, p) then Dropped else Walk(base.filter, base.filter[FORWARD], p, depth))
         && Walk(rs.dnat, rs.dnat[PREROUTING], p, depth)
            == (if Redirects(input) && IsDns(p) then Rewritten(input.dnsRedirectIp.value, 53)
                else Walk(base.dnat, base.dnat[PREROUTING], p, depth))
  }

  lemma DeployedEnforces(rs: Ruleset, live: Inputs, input: Inputs, reputation: seq<nat>)
    requires Deployed(rs, live, reputation) && WellHooked(rs)
    requires FlagsClean(rs, live.enableDohBlock, Redirects(live))
    requires SummaryOf(live) == SummaryOf(input)
    ensures Enforces(rs, Foreign(rs), input, reputation)
  {
    forall p: Packet, depth: nat | p.ipv6 == input.enableIpv6 && depth > 0
      ensures Walk(rs.filter, rs.filter[FORWARD], p, depth)
              == (if Drops(input, reputation, p) then Dropped
                  else Walk(Foreign(rs).filter, Foreign(rs).filter[FORWARD], p, depth))
      ensures Walk(rs.dnat, rs.dnat[PREROUTING], p, depth)
              == (if Redirects(input) && IsDns(p) then Rewritten(input.dnsRedirectIp.value, 53)
                  else Walk(Foreign(rs).dnat, Foreign(rs).dnat[PREROUTING], p, depth))
    {
      ForwardRefinesPolicy(rs, live, reputation, p, depth);
      PreroutingRedirects(rs, live, reputation, p, depth);
      SameSummarySameDrops(live, input, reputation, p);
    }
  }

  /** A state this process may start from: nothing remembered, hooks at the top, and no hook left behind by a
      process with other switches. A kernel that never saw GuardTime is such a state, and so is whatever an
      earlier process with the same switches left. */
  ghost predicate Startable(s: Family, doh: bool, dns: bool) {
    s.remembered.None? && WellHooked(s.rules) && FlagsClean(s.rules, doh, dns)
  }

  /** After every call that returns normally, rebuilt or skipped, the live ruleset enforces the current policy on
      top of the foreign rules of the start, whatever policies and failures came before, provided failed rebuilds
      were undone or a completed one came after them. */
  lemma EveryReturnEnforces(s: Family, cycles: seq<Cycle>, reputation: seq<nat>, faults: set<nat>, doh: bool,
                            dns: bool, ipv6: bool)
    requires Startable(s, doh, dns) && Fixed(cycles, doh, dns, ipv6)
    requires cycles != [] && Returned(s, cycles, reputation, faults)
    requires !Lost(s, cycles, reputation, faults)
    ensures Enforces(After(s, cycles, reputation, faults).rules, Foreign(s.rules), cycles[|cycles| - 1].input, reputation)
  {
    var c, end := cycles[|cycles| - 1], After(s, cycles, reputation, faults);
    var live := ReturnDeployed(s, cycles, reputation, faults);
    RunsClean(s, cycles, reputation, faults, doh, dns, ipv6);
    ForeignRulesSurvive(s, cycles, reputation, faults);
    assert Redirects(live) == Redirects(c.input);
    DeployedEnforces(end.rules, live, c.input, reputation);
  }

  /** A call leaves the ruleset as it was or as its script left it. */
  lemma SyncRules(s: Family, c: Cycle, reputation: seq<nat>, faults: set<nat>)
    ensures var rs := SyncFamily(s, c, reputation, faults).state.rules;
            rs == s.rules || rs == RunSteps(s.rules, Script(c.input, reputation), s.clock, faults).rules
  {
  }

  lemma ScriptClean(rs: Ruleset, input: Inputs, reputation: seq<nat>, clock: nat, faults: set<nat>)
    requires FlagsClean(rs, input.enableDohBlock, Redirects(input))
    ensures FlagsClean(RunSteps(rs, Script(input, reputation), clock, faults).rules, input.enableDohBlock, Redirects(input))
  {
    ScriptAllowed(input, reputation);
    StepsClean(rs, Script(input, reputation), clock, faults, input.enableDohBlock, Redirects(input));
  }

  /** One call keeps the hooks in order and the foreign rules as they are. */
  lemma StepKeeps(s: Family, c: Cycle, reputation: seq<nat>, faults: set<nat>)
    requires WellHooked(s.rules) && FlagsClean(s.rules, c.input.enableDohBlock, Redirects(c.input))
    ensures var rs := SyncFamily(s, c, reputation, faults).state.rules;
            WellHooked(rs) && FlagsClean(rs, c.input.enableDohBlock, Redirects(c.input)) && Foreign(rs) == Foreign(s.rules)
  {
    ScriptAllOurs(c.input, reputation);
    ScriptFramed(s.rules, Script(c.input, reputation), s.clock, faults);
    ScriptClean(s.rules, c.input, reputation, s.clock, faults);
    SyncRules(s, c, reputation, faults);
  }

  /** A faithful ruleset that remembers the signature of a policy enforces it. */
  lemma FaithfulEnforces(s: Family, input: Inputs, reputation: seq<nat>)
    requires Faithful(s, reputation) && s.remembered == Some(SummaryOf(input))
    requires WellHooked(s.rules) && FlagsClean(s.rules, input.enableDohBlock, Redirects(input))
    ensures Enforces(s.rules, Foreign(s.rules), input, reputation)
  {
    var live: Inputs :| SummaryOf(live) == SummaryOf(input) && Deployed(s.rules, live, reputation);
    DeployedEnforces(s.rules, live, input, reputation);
  }

  /** One call on its own: it keeps the hooks in order, and if it returns with no lost rollback pending the live ruleset
      enforces its policy over the foreign rules. */
  lemma StepEnforces(s: Family, c: Cycle, reputation: seq<nat>, faults: set<nat>, lost: bool)
    requires WellHooked(s.rules) && FlagsClean(s.rules, c.input.enableDohBlock, Redirects(c.input))
    requires !lost ==> Faithful(s, reputation)
    ensures var r := SyncFamily(s, c, reputation, faults);
            && WellHooked(r.state.rules) && FlagsClean(r.state.rules, c.input.enableDohBlock, Redirects(c.input))
            && (r.ok && !LostBy(lost, s, c, reputation, faults) ==>
                  Enforces(r.state.rules, Foreign(s.rules), c.input, reputation))
  {
    StepKeeps(s, c, reputation, faults);
    SyncFaithful(s, c, reputation, faults, lost);
    var r := SyncFamily(s, c, reputation, faults);
    if r.ok && !LostBy(lost, s, c, reputation, faults) {
      FaithfulEnforces(r.state, c.input, reputation);
    }
  }

  // ---------------------------------------------------------------- one hook each

  predicate HooksIn(rs: Ruleset, doh: bool, dns: bool) {
    && HasBuiltins(rs)
    && BLOCK_HOOK in rs.filter[FORWARD]
    && (doh ==> DOH_HOOK in rs.filter[FORWARD])
    && (dns ==> DnsHook(Udp) in rs.dnat[PREROUTING] && DnsHook(Tcp) in rs.dnat[PREROUTING])
  }

  lemma {:induction false} HooksStay(s: Family, cycles: seq<Cycle>, reputation: seq<nat>, faults: set<nat>,
                                     doh: bool, dns: bool, ipv6: bool)
    requires HasBuiltins(s.rules) && s.remembered.None? && Fixed(cycles, doh, dns, ipv6)
    ensures After(s, cycles, reputation, faults).remembered.Some? ==>
              HooksIn(After(s, cycles, reputation, faults).rules, doh, dns)
  {
    if cycles != [] {
      var init, c := cycles[..|cycles| - 1], cycles[|cycles| - 1];
      var before := After(s, init, reputation, faults);
      HooksStay(s, init, reputation, faults, doh, dns, ipv6);
      ForeignRulesSurvive(s, init, reputation, faults);
      ScriptAllOurs(c.input, reputation);
      ScriptFramed(before.rules, Script(c.input, reputation), before.clock, faults);
      ScriptRebuilds(before.rules, c.input, reputation, before.clock, faults);
      RebuiltDeployed(before.rules, c.input, reputation);
      DeployedChains(Rebuilt(before.rules, c.input, reputation), c.input, reputation);
    }
  }

  /** From the first completed rebuild on, FORWARD holds exactly one jump to each GuardTime filter chain in use and
      PREROUTING exactly one DNS jump per protocol, whatever fails later. */
  lemma ExactlyOneHook(s: Family, cycles: seq<Cycle>, reputation: seq<nat>, faults: set<nat>, doh: bool, dns: bool,
                       ipv6: bool)
    requires UniqueHooks(s.rules) && s.remembered.None? && Fixed(cycles, doh, dns, ipv6)
    requires After(s, cycles, reputation, faults).remembered.Some?
    ensures var rs := After(s, cycles, reputation, faults).rules;
            && HasBuiltins(rs)
            && multiset(rs.filter[FORWARD])[BLOCK_HOOK] == 1
            && (doh ==> multiset(rs.filter[FORWARD])[DOH_HOOK] == 1)
            && (dns ==> multiset(rs.dnat[PREROUTING])[DnsHook(Udp)] == 1 && multiset(rs.dnat[PREROUTING])[DnsHook(Tcp)] == 1)
  {
    HooksStay(s, cycles, reputation, faults, doh, dns, ipv6);
    ForeignRulesSurvive(s, cycles, reputation, faults);
    var rs := After(s, cycles, reputation, faults).rules;
    assert UniqueHooks(rs) && IsHook(BLOCK_HOOK) && IsHook(DOH_HOOK) && IsHook(DnsHook(Udp)) && IsHook(DnsHook(Tcp));
    assert multiset(rs.filter[FORWARD])[BLOCK_HOOK] > 0;
    if doh {
      assert multiset(rs.filter[FORWARD])[DOH_HOOK] > 0;
    }
    if dns {
      assert multiset(rs.dnat[PREROUTING])[DnsHook(Udp)] > 0 && multiset(rs.dnat[PREROUTING])[DnsHook(Tcp)] > 0;
    }
  }

  // ---------------------------------------------------------------- when the rollback is lost

  const EMPTY_RULES: Ruleset := Ruleset(map[FORWARD := []], map[PREROUTING := []])

  lemma BlockOnlyChain(addr: nat)
    ensures ChainOf(BlockOnly(addr)) == [BlockIpRule("d", addr)]
  {
    var t := BlockOnly(addr).targets[0];
    assert BlockOnly(addr).targets[1..] == [];
    assert BlockRules(t, false) == [BlockIpRule("d", addr)];
    assert TargetRules(t, false, false) == [BlockIpRule("d", addr)];
    assert BlockChain([], false, false) == [];
    assert BlockChain([t], false, false) == TargetRules(t, false, false) + BlockChain([t][1..], false, false);
  }

  lemma BlockOnlyScript(addr: nat)
    ensures Script(BlockOnly(addr), [])
            == [Try(NewChain(Filter, GtBlock)), EnsureFirst(Filter, FORWARD, BLOCK_HOOK), Must(Flush(Filter, GtBlock)),
                Must(Append(Filter, GtBlock, BlockIpRule("d", addr)))]
  {
    BlockOnlyChain(addr);
    assert Appends(Filter, GtBlock, [BlockIpRule("d", addr)]) == [Must(Append(Filter, GtBlock, BlockIpRule("d", addr)))];
  }

  lemma FourSteps(rs: Ruleset, steps: seq<Step>, clock: nat, faults: set<nat>)
    requires |steps| == 4
    requires var a := RunStep(rs, steps[0], clock, faults);
             var b := RunStep(a.rules, steps[1], a.clock, faults);
             var c := RunStep(b.rules, steps[2], b.clock, faults);
             a.ok && b.ok && c.ok
    ensures var a := RunStep(rs, steps[0], clock, faults);
            var b := RunStep(a.rules, steps[1], a.clock, faults);
            var c := RunStep(b.rules, steps[2], b.clock, faults);
            RunSteps(rs, steps, clock, faults) == RunStep(c.rules, steps[3], c.clock, faults)
  {
    var a := RunStep(rs, steps[0], clock, faults);
    var b := RunStep(a.rules, steps[1], a.clock, faults);
    var c := RunStep(b.rules, steps[2], b.clock, faults);
    assert steps == [steps[0]] + steps[1..] && steps[1..] == [steps[1]] + steps[2..];
    assert steps[2..] == [steps[2]] + steps[3..] && steps[3..] == [steps[3]];
    RunStepsCons(rs, steps[0], steps[1..], clock, faults);
    RunStepsCons(a.rules, steps[1], steps[2..], a.clock, faults);
    RunStepsCons(b.rules, steps[2], steps[3..], b.clock, faults);
    RunStepsSingle(c.rules, steps[3], c.clock, faults);
  }

  /** On an empty kernel the script for one blocked address makes four calls. */
  lemma BlockOnlyFirst(addr: nat, faults: set<nat>)
    requires 0 !in faults && 1 !in faults && 2 !in faults && 3 !in faults
    ensures var o := RunSteps(EMPTY_RULES, Script(BlockOnly(addr), []), 0, faults); o.ok && o.clock == 4
  {
    BlockOnlyScript(addr);
    FourSteps(EMPTY_RULES, Script(BlockOnly(addr), []), 0, faults);
  }

  /** Run again from call 4, it is stopped by the failure of call 6 with the chain just emptied. */
  lemma BlockOnlyAgain(rs: Ruleset, addr: nat)
    requires Deployed(rs, BlockOnly(1), [])
    ensures var o := RunSteps(rs, Script(BlockOnly(addr), []), 4, {6});
            !o.ok && GtBlock in o.rules.filter && o.rules.filter[GtBlock] == []
  {
    BlockOnlyScript(addr);
    DeployedChains(rs, BlockOnly(1), []);
    FourSteps(rs, Script(BlockOnly(addr), []), 4, {6});
  }

  lemma ThreeCycles(s: Family, a: Cycle, b: Cycle, c: Cycle, reputation: seq<nat>, faults: set<nat>)
    ensures var s1 := SyncFamily(s, a, reputation, faults).state;
            var s2 := SyncFamily(s1, b, reputation, faults).state;
            && After(s, [a, b], reputation, faults) == s2
            && After(s, [a, b, c], reputation, faults) == SyncFamily(s2, c, reputation, faults).state
            && Returned(s, [a, b, c], reputation, faults) == SyncFamily(s2, c, reputation, faults).ok
  {
    assert [a, b, c][..2] == [a, b] && [a, b][..1] == [a] && [a][..0] == [];
    assert After(s, [], reputation, faults) == s;
    assert After(s, [a], reputation, faults) == SyncFamily(s, a, reputation, faults).state;
  }

  lemma EmptyStartable()
    ensures Startable(Family(EMPTY_RULES, 0, None), false, false)
  {
  }

  /** Policy A is applied, policy B fails after the flush and is not undone, policy A comes back and is skipped. */
  lemma LostRollbackSkips(a: Cycle, b: Cycle)
    requires a.input == BlockOnly(1) && b.input == BlockOnly(2) && !b.tools.Work()
    ensures var s := Family(EMPTY_RULES, 0, None);
            var end := After(s, [a, b, a], [], {6});
            && Returned(s, [a, b, a], [], {6})
            && GtBlock in end.rules.filter && end.rules.filter[GtBlock] == []
  {
    var s := Family(EMPTY_RULES, 0, None);
    ThreeCycles(s, a, b, a, [], {6});
    BlockOnlyFirst(1, {6});
    ScriptRebuilds(EMPTY_RULES, BlockOnly(1), [], 0, {6});
    RebuiltDeployed(EMPTY_RULES, BlockOnly(1), []);
    OneKeyDiffers(BlockOnly(1), BlockOnly(2));
    var s1 := SyncFamily(s, a, [], {6}).state;
    BlockOnlyAgain(s1.rules, 2);
  }

  lemma NothingEnforced(s: Family, cycles: seq<Cycle>)
    requires s == Family(EMPTY_RULES, 0, None) && Fixed(cycles, false, false, false)
    requires var rs := After(s, cycles, [], {6}).rules; GtBlock in rs.filter && rs.filter[GtBlock] == []
    ensures !Enforces(After(s, cycles, [], {6}).rules, Foreign(s.rules), BlockOnly(1), [])
  {
    EmptyStartable();
    ForeignRulesSurvive(s, cycles, [], {6});
    RunsClean(s, cycles, [], {6}, false, false, false);
    FreedPacket(After(s, cycles, [], {6}).rules);
  }

  /** Every normal return of this run enforces its policy. */
  ghost predicate Sound(s: Family, cycles: seq<Cycle>, reputation: seq<nat>, faults: set<nat>) {
    cycles != [] && Returned(s, cycles, reputation, faults) ==>
      Enforces(After(s, cycles, reputation, faults).rules, Foreign(s.rules), cycles[|cycles| - 1].input, reputation)
  }

  /** The rollback of every cycle of the run is as the host's tools allow. */
  predicate OnHost(cycles: seq<Cycle>, saves: bool, restores: bool) {
    forall c :: c in cycles ==> c.tools == Tools(saves, restores)
  }

  /** That skip leaves the device policy A blocks free: the run, on a host whose snapshots or restores fail, ends
      with a normal return that does not enforce its policy. */
  lemma LostRollbackFreesDevice(saves: bool, restores: bool) returns (s: Family, cycles: seq<Cycle>)
    requires !(saves && restores)
    ensures s == Family(EMPTY_RULES, 0, None) && Startable(s, false, false)
    ensures |cycles| == 3 && cycles[0] == cycles[2]
    ensures cycles[0].input == BlockOnly(1) && cycles[1].input == BlockOnly(2)
    ensures Fixed(cycles, false, false, false) && OnHost(cycles, saves, restores)
    ensures !Sound(s, cycles, [], {6})
  {
    var a, b := Cycle(BlockOnly(1), Tools(saves, restores)), Cycle(BlockOnly(2), Tools(saves, restores));
    s, cycles := Family(EMPTY_RULES, 0, None), [a, b, a];
    EmptyStartable();
    LostRollbackSkips(a, b);
    NothingEnforced(s, cycles);
  }

  lemma {:induction false} NothingLost(s: Family, cycles: seq<Cycle>, reputation: seq<nat>, faults: set<nat>)
    requires OnHost(cycles, true, true)
    ensures !Lost(s, cycles, reputation, faults)
  {
    if cycles != [] {
      NothingLost(s, cycles[..|cycles| - 1], reputation, faults);
    }
  }

  /** Every run from every start is sound on a host with these tools. */
  ghost predicate SoundHost(saves: bool, restores: bool) {
    forall s: Family, cycles: seq<Cycle>, reputation: seq<nat>, faults: set<nat>, doh: bool, dns: bool, ipv6: bool ::
      Startable(s, doh, dns) && Fixed(cycles, doh, dns, ipv6) && OnHost(cycles, saves, restores)
      ==> Sound(s, cycles, reputation, faults)
  }

  lemma RollbackSuffices()
    ensures SoundHost(true, true)
  {
    forall s: Family, cycles: seq<Cycle>, reputation: seq<nat>, faults: set<nat>, doh: bool, dns: bool, ipv6: bool |
      Startable(s, doh, dns) && Fixed(cycles, doh, dns, ipv6) && OnHost(cycles, true, true)
      ensures Sound(s, cycles, reputation, faults)
    {
      NothingLost(s, cycles, reputation, faults);
      if cycles != [] && Returned(s, cycles, reputation, faults) {
        EveryReturnEnforces(s, cycles, reputation, faults, doh, dns, ipv6);
      }
    }
  }

  lemma RollbackNeeded(saves: bool, restores: bool)
    requires !(saves && restores)
    ensures !SoundHost(saves, restores)
  {
    var s, cycles := LostRollbackFreesDevice(saves, restores);
  }

  /** Skipping unchanged policies is sound over every run and every pattern of command failures on a host exactly
      when both iptables-save and iptables-restore work there. */
  lemma CacheSoundIffRollbackWorks(saves: bool, restores: bool)
    ensures SoundHost(saves, restores) <==> saves && restores
  {
    if saves && restores {
      RollbackSuffices();
    } else {
      RollbackNeeded(saves, restores);
    }
  }

  /** A packet of device 1 walks FORWARD unharmed when the filter chain is empty and nothing else is there. */
  lemma FreedPacket(rs: Ruleset)
    requires Hooked(rs.filter, FORWARD) && FlagsClean(rs, false, false)
    requires Foreign(rs) == Foreign(EMPTY_RULES)
    requires GtBlock in rs.filter && rs.filter[GtBlock] == []
    ensures !Enforces(rs, Foreign(EMPTY_RULES), BlockOnly(1), [])
  {
    var p := Packet(false, 1, 0, "", OtherProto, 0, {});
    var cs := rs.filter;
    assert NotOurs(cs[FORWARD]) == ForeignChains(cs)[FORWARD] == ForeignChains(EMPTY_RULES.filter)[FORWARD] == [];
    WalkHooked(cs, FORWARD, cs[FORWARD], p, 1, Dropped);
    BlockedByOne(p);
    assert Walk(rs.filter, rs.filter[FORWARD], p, 1) != Dropped;
  }

  lemma BlockedByOne(p: Packet)
    requires p.src == 1 && !p.ipv6
    ensures Drops(BlockOnly(1), [], p)
  {
    assert TargetDrops(BlockOnly(1).targets[0], false, p);
  }
}
