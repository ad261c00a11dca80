/** The nftables synchronisation as a state machine, what its runs guarantee, and where its rollback and its
    cache fall short of their promise. */
module NftRuns {
  import opened Options
  import opened Policy
  import opened Signature
  import opened SignatureSound
  import opened NftRules
  import opened NftMeaning

  datatype State = State(rules: Ruleset, clock: nat, remembered: Option<Summary>)

  datatype Cycle = Cycle(input: Inputs, tools: Tools)

  /** `complete` tells whether everything the policy asks for was written, the IPv6 redirect included. */
  datatype Synced = Synced(state: State, ok: bool, complete: bool)

  function RulesIn(rs: Ruleset, c: Chain): seq<Rule> {
    if c in rs.chains then rs.chains[c] else []
  }

  /** Loading a listing back without a flush: the tables and chains are there already, so every listed rule is
      added behind the live ones. */
  function Reload(live: Ruleset, listing: Ruleset): Ruleset {
    Ruleset(live.tables + listing.tables,
            map c | c in live.chains.Keys + listing.chains.Keys :: RulesIn(live, c) + RulesIn(listing, c))
  }

  function Sync(s: State, c: Cycle, reputation: seq<nat>, configured: Option<nat>, faults: set<nat>): Synced {
    var summary := SummaryOf(c.input);
    if s.remembered == Some(summary) then Synced(s, true, false)
    else
      var o := RunSteps(s.rules, Script(c.input, reputation), s.clock, faults);
      if !o.ok then
        Synced(State(if c.tools.Work() then Reload(o.rules, s.rules) else o.rules, o.clock, s.remembered), false, false)
      else
        var o6 := RunSteps(o.rules, Script6(c.input, configured), o.clock, faults);
        Synced(State(o6.rules, o6.clock, if o6.ok then Some(summary) else s.remembered), true, o6.ok)
  }

  function After(s: State, cycles: seq<Cycle>, reputation: seq<nat>, configured: Option<nat>, faults: set<nat>): State {
    if cycles == [] then s
    else
      Sync(After(s, cycles[..|cycles| - 1], reputation, configured, faults), cycles[|cycles| - 1],
           reputation, configured, faults).state
  }

  function Last(s: State, cycles: seq<Cycle>, reputation: seq<nat>, configured: Option<nat>, faults: set<nat>): Synced
    requires cycles != []
  {
    Sync(After(s, cycles[..|cycles| - 1], reputation, configured, faults), cycles[|cycles| - 1],
         reputation, configured, faults)
  }

  predicate Skipped(s: State, c: Cycle) {
    s.remembered == Some(SummaryOf(c.input))
  }

  /** The last cycle that was not skipped was cut short. */
  predicate Dirty(s: State, cycles: seq<Cycle>, reputation: seq<nat>, configured: Option<nat>, faults: set<nat>) {
    cycles != [] &&
    (var init := cycles[..|cycles| - 1];
     if Skipped(After(s, init, reputation, configured, faults), cycles[|cycles| - 1])
     then Dirty(s, init, reputation, configured, faults)
     else !Last(s, cycles, reputation, configured, faults).complete)
  }

  // ---------------------------------------------------------------- soundness of clean runs

  function RebuiltBoth(rs: Ruleset, input: Inputs, reputation: seq<nat>, configured: Option<nat>): Ruleset {
    Rebuilt6(Rebuilt(rs, input, reputation), input, configured)
  }

  predicate Deployed(rs: Ruleset, input: Inputs, reputation: seq<nat>, configured: Option<nat>) {
    RebuiltBoth(rs, input, reputation, configured) == rs
  }

  lemma RebuiltDeployed(rs: Ruleset, input: Inputs, reputation: seq<nat>, configured: Option<nat>)
    ensures Deployed(RebuiltBoth(rs, input, reputation, configured), input, reputation, configured)
  {
    var out := RebuiltBoth(rs, input, reputation, configured);
    var again := RebuiltBoth(out, input, reputation, configured);
    assert again.tables == out.tables;
    assert again.chains == out.chains;
  }

  predicate Dns4(input: Inputs) {
    input.enableDnsRedirect && input.dnsRedirectIp.Some?
  }

  predicate Dns6(input: Inputs, configured: Option<nat>) {
    input.enableIpv6 && input.enableDnsRedirect && Resolver6(input, configured).Some?
  }

  /** No redirect chain is left by a process with other switches. */
  predicate RedirectsClean(rs: Ruleset, dns4: bool, dns6: bool) {
    (Redirect in rs.chains ==> dns4) && (Redirect6 in rs.chains ==> dns6)
  }

  predicate Fixed(cycles: seq<Cycle>, configured: Option<nat>, dns4: bool, dns6: bool) {
    forall c :: c in cycles ==> Dns4(c.input) == dns4 && Dns6(c.input, configured) == dns6
  }

  /** GuardTime's chains give every packet the verdict of the visible policy, and every DNS query of a redirected
      family goes to its resolver. */
  ghost predicate Enforces(rs: Ruleset, input: Inputs, reputation: seq<nat>, configured: Option<nat>) {
    forall p: Packet ::
      && FilterVerdict(rs, p) == (if Drops(VisiblePolicy(input), reputation, p) then Dropped else Pass)
      && NatVerdict(rs, p)
         == (if IsDns(p) && !p.ipv6 && Dns4(input) then Rewritten(input.dnsRedirectIp.value, 53)
             else if IsDns(p) && p.ipv6 && Dns6(input, configured) then Rewritten(Resolver6(input, configured).value, 53)
             else Pass)
  }

  lemma DeployedChains(rs: Ruleset, input: Inputs, reputation: seq<nat>, configured: Option<nat>)
    requires Deployed(rs, input, reputation, configured)
    ensures FilterChain in rs.chains && rs.chains[FilterChain] == BlockChain(input, reputation)
    ensures Dns4(input) ==> Redirect in rs.chains && rs.chains[Redirect] == DnsRules(input.dnsRedirectIp.value)
    ensures Dns6(input, configured) ==>
              Redirect6 in rs.chains && rs.chains[Redirect6] == DnsRules(Resolver6(input, configured).value)
  {
    var mid := Rebuilt(rs, input, reputation);
    assert FilterChain in mid.chains && mid.chains[FilterChain] == BlockChain(input, reputation);
    assert Rebuilt6(mid, input, configured) == rs;
  }

  lemma VisibleSameSummary(a: Inputs, b: Inputs, reputation: seq<nat>, p: Packet)
    requires SummaryOf(a) == SummaryOf(b)
    ensures Drops(VisiblePolicy(a), reputation, p) == Drops(VisiblePolicy(b), reputation, p)
  {
    SummaryKeepsKeys(a, b);
    VisibleMoves(a, b, p);
    VisibleMoves(b, a, p);
  }

  lemma VisibleMoves(a: Inputs, b: Inputs, p: Packet)
    requires multiset(KeysOf(a.targets)) == multiset(KeysOf(b.targets))
    requires a.enableIpv6 == b.enableIpv6
    ensures AnyTargetDrops(AllVisible(a.targets, a.enableIpv6), a.enableQuicBlockGlobal, p)
            ==> AnyTargetDrops(AllVisible(b.targets, b.enableIpv6), a.enableQuicBlockGlobal, p)
  {
    var va, vb, q := AllVisible(a.targets, a.enableIpv6), AllVisible(b.targets, b.enableIpv6), a.enableQuicBlockGlobal;
    if AnyTargetDrops(va, q, p) {
      var i :| 0 <= i < |va| && TargetDrops(va[i], q, p);
      var u := KeyMoves(a.targets, b.targets, a.targets[i]);
      var j :| 0 <= j < |b.targets| && b.targets[j] == u;
      KeyDecides(va[i], vb[j], q, p);
      assert vb[j] in vb;
    }
  }

  lemma DeployedEnforces(rs: Ruleset, live: Inputs, input: Inputs, reputation: seq<nat>, configured: Option<nat>)
    requires Deployed(rs, live, reputation, configured) && SummaryOf(live) == SummaryOf(input)
    requires RedirectsClean(rs, Dns4(input), Dns6(input, configured))
    ensures Enforces(rs, input, reputation, configured)
  {
    DeployedChains(rs, live, reputation, configured);
    forall p: Packet
      ensures FilterVerdict(rs, p) == (if Drops(VisiblePolicy(input), reputation, p) then Dropped else Pass)
    {
      FilterRefinesPolicy(live, reputation, p);
      VisibleSameSummary(live, input, reputation, p);
    }
    forall p: Packet
      ensures NatVerdict(rs, p)
              == (if IsDns(p) && !p.ipv6 && Dns4(input) then Rewritten(input.dnsRedirectIp.value, 53)
                  else if IsDns(p) && p.ipv6 && Dns6(input, configured) then Rewritten(Resolver6(input, configured).value, 53)
                  else Pass)
    {
      var resolver := if p.ipv6 then Resolver6(input, configured) else input.dnsRedirectIp;
      if resolver.Some? {
        DnsWalk(resolver.value, p);
      }
    }
  }

  ghost predicate Faithful(s: State, reputation: seq<nat>, configured: Option<nat>) {
    s.remembered.Some? ==>
      exists i: Inputs :: SummaryOf(i) == s.remembered.value && Deployed(s.rules, i, reputation, configured)
  }

  lemma ScriptChains(input: Inputs, reputation: seq<nat>, configured: Option<nat>)
    ensures forall s :: s in Script(input, reputation) && s.cmd.AddChain? ==>
              s.cmd.chain == FilterChain || (s.cmd.chain == Redirect && Dns4(input))
    ensures forall s :: s in Script6(input, configured) && s.cmd.AddChain? ==>
              s.cmd.chain == Redirect6 && Dns6(input, configured)
  {
    Script6Chains(input, configured);
  }

  lemma Script6Chains(input: Inputs, configured: Option<nat>)
    ensures forall s :: s in Script6(input, configured) && s.cmd.AddChain? ==>
              s.cmd.chain == Redirect6 && Dns6(input, configured)
  {
  }

  lemma ReloadKeeps(live: Ruleset, listing: Ruleset, dns4: bool, dns6: bool)
    requires TablesPresent(live) && TablesPresent(listing)
    requires RedirectsClean(live, dns4, dns6) && RedirectsClean(listing, dns4, dns6)
    ensures TablesPresent(Reload(live, listing)) && RedirectsClean(Reload(live, listing), dns4, dns6)
  {
  }

  /** The frame of every run: foreign chains under every failure that is not rolled back, and no stale redirect. */
  lemma SyncKeeps(s: State, c: Cycle, reputation: seq<nat>, configured: Option<nat>, faults: set<nat>)
    requires TablesPresent(s.rules) && RedirectsClean(s.rules, Dns4(c.input), Dns6(c.input, configured))
    ensures var r := Sync(s, c, reputation, configured, faults);
            && TablesPresent(r.state.rules)
            && RedirectsClean(r.state.rules, Dns4(c.input), Dns6(c.input, configured))
            && (r.ok || !c.tools.Work() ==> Foreign(r.state.rules) == Foreign(s.rules))
  {
    var script, script6 := Script(c.input, reputation), Script6(c.input, configured);
    var dns4, dns6 := Dns4(c.input), Dns6(c.input, configured);
    ScriptsOwn(c.input, reputation, configured);
    ScriptChains(c.input, reputation, configured);
    var o := RunSteps(s.rules, script, s.clock, faults);
    ScriptFramed(s.rules, script, s.clock, faults);
    ScriptAddsOnly(s.rules, script, s.clock, faults, dns4, dns6);
    ScriptFramed(o.rules, script6, o.clock, faults);
    ScriptAddsOnly(o.rules, script6, o.clock, faults, dns4, dns6);
    ReloadKeeps(o.rules, s.rules, dns4, dns6);
  }

  /** A script that adds redirect chains only where they are switched on keeps the others away. */
  lemma {:induction false} ScriptAddsOnly(rs: Ruleset, steps: seq<Step>, clock: nat, faults: set<nat>, dns4: bool,
                                          dns6: bool)
    requires forall s :: s in steps && s.cmd.AddChain? ==>
               (s.cmd.chain == Redirect ==> dns4) && (s.cmd.chain == Redirect6 ==> dns6)
    requires RedirectsClean(rs, dns4, dns6)
    ensures RedirectsClean(RunSteps(rs, steps, clock, faults).rules, dns4, dns6)
    decreases |steps|
  {
    if steps != [] {
      var first := RunStep(rs, steps[0], clock, faults);
      assert steps[0] in steps;
      if first.ok {
        ScriptAddsOnly(first.rules, steps[1..], first.clock, faults, dns4, dns6);
      }
    }
  }

  /** Every call that leaves the state clean leaves it faithful: complete rebuilds by what they write, skips by
      what was there. */
  lemma SyncFaithful(s: State, c: Cycle, reputation: seq<nat>, configured: Option<nat>, faults: set<nat>)
    requires TablesPresent(s.rules)
    ensures var r := Sync(s, c, reputation, configured, faults);
            r.complete ==> r.state.remembered == Some(SummaryOf(c.input)) && Deployed(r.state.rules, c.input, reputation, configured)
  {
    if !Skipped(s, c) {
      var o := RunSteps(s.rules, Script(c.input, reputation), s.clock, faults);
      ScriptRebuilds(s.rules, c.input, reputation, s.clock, faults);
      if o.ok {
        Script6Rebuilds(o.rules, c.input, configured, o.clock, faults);
        RebuiltDeployed(s.rules, c.input, reputation, configured);
      }
    }
  }

  lemma {:induction false} RunsFaithful(s: State, cycles: seq<Cycle>, reputation: seq<nat>, configured: Option<nat>,
                                        faults: set<nat>, dns4: bool, dns6: bool)
    requires TablesPresent(s.rules) && RedirectsClean(s.rules, dns4, dns6) && Faithful(s, reputation, configured)
    requires Fixed(cycles, configured, dns4, dns6)
    ensures var end := After(s, cycles, reputation, configured, faults);
            && TablesPresent(end.rules) && RedirectsClean(end.rules, dns4, dns6)
            && (!Dirty(s, cycles, reputation, configured, faults) ==> Faithful(end, reputation, configured))
  {
    if cycles != [] {
      var init, c := cycles[..|cycles| - 1], cycles[|cycles| - 1];
      var before := After(s, init, reputation, configured, faults);
      RunsFaithful(s, init, reputation, configured, faults, dns4, dns6);
      SyncKeeps(before, c, reputation, configured, faults);
      SyncFaithful(before, c, reputation, configured, faults);
    }
  }

  /** The live chains of such a return are those of some inputs with the current signature. */
  lemma CleanReturnDeployed(s: State, cycles: seq<Cycle>, reputation: seq<nat>, configured: Option<nat>,
                            faults: set<nat>, dns4: bool, dns6: bool) returns (live: Inputs)
    requires TablesPresent(s.rules) && RedirectsClean(s.rules, dns4, dns6) && s.remembered.None?
    requires Fixed(cycles, configured, dns4, dns6) && cycles != []
    requires Last(s, cycles, reputation, configured, faults).ok && !Dirty(s, cycles, reputation, configured, faults)
    ensures SummaryOf(live) == SummaryOf(cycles[|cycles| - 1].input)
    ensures Deployed(After(s, cycles, reputation, configured, faults).rules, live, reputation, configured)
  {
    var init, c := cycles[..|cycles| - 1], cycles[|cycles| - 1];
    var before := After(s, init, reputation, configured, faults);
    RunsFaithful(s, init, reputation, configured, faults, dns4, dns6);
    RunsFaithful(s, cycles, reputation, configured, faults, dns4, dns6);
    SyncFaithful(before, c, reputation, configured, faults);
    var end := After(s, cycles, reputation, configured, faults);
    live :| SummaryOf(live) == SummaryOf(c.input) && Deployed(end.rules, live, reputation, configured);
  }

  /** After every call of a run that returns with nothing cut short since the last complete rebuild, GuardTime's
      chains enforce the current policy, rebuilt or skipped. */
  lemma EveryCleanReturnEnforces(s: State, cycles: seq<Cycle>, reputation: seq<nat>, configured: Option<nat>,
                                 faults: set<nat>, dns4: bool, dns6: bool)
    requires TablesPresent(s.rules) && RedirectsClean(s.rules, dns4, dns6) && s.remembered.None?
    requires Fixed(cycles, configured, dns4, dns6) && cycles != []
    requires Last(s, cycles, reputation, configured, faults).ok && !Dirty(s, cycles, reputation, configured, faults)
    ensures Enforces(After(s, cycles, reputation, configured, faults).rules, cycles[|cycles| - 1].input, reputation, configured)
  {
    var end := After(s, cycles, reputation, configured, faults);
    var live := CleanReturnDeployed(s, cycles, reputation, configured, faults, dns4, dns6);
    RunsFaithful(s, cycles, reputation, configured, faults, dns4, dns6);
    DeployedEnforces(end.rules, live, cycles[|cycles| - 1].input, reputation, configured);
  }

  /** Under a constant policy a cut-short rebuild is retried until one is complete: no cycle is skipped while the
      state is dirty. */
  lemma {:induction false} ConstantPolicyRetries(s: State, cycles: seq<Cycle>, summary: Summary,
                                                 reputation: seq<nat>, configured: Option<nat>, faults: set<nat>)
    requires s.remembered.None? && forall c :: c in cycles ==> SummaryOf(c.input) == summary
    ensures var end := After(s, cycles, reputation, configured, faults);
            end.remembered == (if cycles == [] || Dirty(s, cycles, reputation, configured, faults) then None else Some(summary))
  {
    if cycles != [] {
      var init, c := cycles[..|cycles| - 1], cycles[|cycles| - 1];
      assert c in cycles && forall d :: d in init ==> d in cycles;
      ConstantPolicyRetries(s, init, summary, reputation, configured, faults);
    }
  }

  // ---------------------------------------------------------------- what the rollback leaves

  /** After a failed sync whose snapshot is loaded back, every chain holds what the failed rebuild got done followed
      by everything it held before: foreign rules are there twice, and a packet passes GuardTime's filter chain
      only if both the fragment and the old rules let it. */
  lemma RollbackStacks(s: State, c: Cycle, reputation: seq<nat>, configured: Option<nat>, faults: set<nat>, ch: Chain)
    requires !Sync(s, c, reputation, configured, faults).ok && c.tools.Work()
    requires TablesPresent(s.rules) && ch in s.rules.chains
    ensures var live := Sync(s, c, reputation, configured, faults).state.rules;
            var fragment := RulesIn(RunSteps(s.rules, Script(c.input, reputation), s.clock, faults).rules, ch);
            && ch in live.chains && live.chains[ch] == fragment + s.rules.chains[ch]
            && (!IsOurs(ch) ==> live.chains[ch] == s.rules.chains[ch] + s.rules.chains[ch])
  {
    ScriptsOwn(c.input, reputation, configured);
    ScriptFramed(s.rules, Script(c.input, reputation), s.clock, faults);
    if !IsOurs(ch) {
      assert ch in Foreign(s.rules);
    }
  }

  lemma {:induction false} StackedVerdict(a: seq<Rule>, b: seq<Rule>, p: Packet)
    requires AllDrop(a) && AllDrop(b)
    ensures ChainWalk(a + b, p) == (if ChainWalk(a, p) == Dropped || ChainWalk(b, p) == Dropped then Dropped else Pass)
  {
    WalkOfDrops(a, p);
    WalkOfDrops(b, p);
    WalkOfDrops(a + b, p);
    AnyFiresConcat(a, b, p);
  }

  // ---------------------------------------------------------------- two ways a skip goes wrong

  /** Every step is one call; a failing call that must succeed stops the script there. */
  lemma {:induction false} CallsCounted(rs: Ruleset, steps: seq<Step>, clock: nat, faults: set<nat>)
    ensures var o := RunSteps(rs, steps, clock, faults);
            && clock <= o.clock <= clock + |steps|
            && (o.ok ==> o.clock == clock + |steps|)
            && (o.ok ==> forall k :: 0 <= k < |steps| && steps[k].Must? ==> clock + k !in faults)
    decreases |steps|
  {
    if steps != [] {
      var first := RunStep(rs, steps[0], clock, faults);
      if first.ok {
        CallsCounted(first.rules, steps[1..], first.clock, faults);
        assert forall k :: 0 < k < |steps| ==> steps[k] == steps[1..][k - 1];
      }
    }
  }

  lemma ThreeCycles(s: State, a: Cycle, b: Cycle, c: Cycle, reputation: seq<nat>, configured: Option<nat>,
                    faults: set<nat>)
    ensures var s1 := Sync(s, a, reputation, configured, faults).state;
            var s2 := Sync(s1, b, reputation, configured, faults).state;
            && After(s, [a, b, c], reputation, configured, faults) == Sync(s2, c, reputation, configured, faults).state
            && Last(s, [a, b, c], reputation, configured, faults) == Sync(s2, c, reputation, configured, faults)
  {
    assert [a, b, c][..2] == [a, b] && [a, b][..1] == [a] && [a][..0] == [];
    assert After(s, [], reputation, configured, faults) == s;
    assert After(s, [a], reputation, configured, faults) == Sync(s, a, reputation, configured, faults).state;
    assert After(s, [a, b], reputation, configured, faults)
        == Sync(After(s, [a], reputation, configured, faults), b, reputation, configured, faults).state;
  }

  /** A cycle in which no call fails is complete and advances the call number by the size of its scripts. */
  lemma QuietSync(s: State, c: Cycle, reputation: seq<nat>, configured: Option<nat>, faults: set<nat>)
    requires TablesPresent(s.rules) && !Skipped(s, c)
    requires forall i :: s.clock <= i < s.clock + |Script(c.input, reputation)| + |Script6(c.input, configured)| ==> i !in faults
    ensures var r := Sync(s, c, reputation, configured, faults);
            && r.ok && r.complete && TablesPresent(r.state.rules)
            && r.state.clock == s.clock + |Script(c.input, reputation)| + |Script6(c.input, configured)|
  {
    CallsCounted(s.rules, Script(c.input, reputation), s.clock, faults);
    ScriptRebuilds(s.rules, c.input, reputation, s.clock, faults);
    var o := RunSteps(s.rules, Script(c.input, reputation), s.clock, faults);
    CallsCounted(o.rules, Script6(c.input, configured), o.clock, faults);
    Script6Rebuilds(o.rules, c.input, configured, o.clock, faults);
    ScriptsOwn(c.input, reputation, configured);
    ScriptFramed(o.rules, Script6(c.input, configured), o.clock, faults);
  }

  /** A main script none of whose calls fails leaves the filter chain of its policy. */
  lemma MainPasses(rs: Ruleset, input: Inputs, reputation: seq<nat>, clock: nat, faults: set<nat>)
    requires TablesPresent(rs) && !Faulted(faults, clock, clock + |Script(input, reputation)|)
    ensures var o := RunSteps(rs, Script(input, reputation), clock, faults);
            && o.ok && o.clock == clock + |Script(input, reputation)|
            && FilterChain in o.rules.chains && o.rules.chains[FilterChain] == BlockChain(input, reputation)
  {
    CallsCounted(rs, Script(input, reputation), clock, faults);
    ScriptRebuilds(rs, input, reputation, clock, faults);
  }

  lemma RedirectStopped(rs: Ruleset, input: Inputs, configured: Option<nat>, clock: nat)
    requires Dns6(input, configured)
    ensures var o := RunSteps(rs, Script6(input, configured), clock, {clock + 2});
            && !o.ok
            && (FilterChain in rs.chains ==> FilterChain in o.rules.chains && o.rules.chains[FilterChain] == rs.chains[FilterChain])
  {
    ThirdOf6(input, configured);
    CallsCounted(rs, Script6(input, configured), clock, {clock + 2});
    KeepsFilter(rs, Script6(input, configured), clock, {clock + 2});
  }

  /** In a cycle whose only failing call is the flush of the IPv6 redirect, the call still returns, the filter chain
      is the new policy's and the remembered signature stays the old one. */
  lemma FlushOf6Fails(s: State, c: Cycle, reputation: seq<nat>, configured: Option<nat>)
    requires TablesPresent(s.rules) && !Skipped(s, c) && Dns6(c.input, configured)
    ensures var r := Sync(s, c, reputation, configured, {s.clock + |Script(c.input, reputation)| + 2});
            && r.ok && !r.complete && r.state.remembered == s.remembered
            && FilterChain in r.state.rules.chains && r.state.rules.chains[FilterChain] == BlockChain(c.input, reputation)
  {
    var faults := {s.clock + |Script(c.input, reputation)| + 2};
    MainPasses(s.rules, c.input, reputation, s.clock, faults);
    var o := RunSteps(s.rules, Script(c.input, reputation), s.clock, faults);
    RedirectStopped(o.rules, c.input, configured, o.clock);
  }

  lemma ThirdOf6(input: Inputs, configured: Option<nat>)
    requires Dns6(input, configured)
    ensures var script6 := Script6(input, configured);
            && |script6| > 2 && script6[2] == Must(FlushChain(Redirect6))
            && forall s :: s in script6 && !s.cmd.AddTable? ==> s.cmd.chain != FilterChain
  {
  }

  lemma {:induction false} KeepsFilter(rs: Ruleset, steps: seq<Step>, clock: nat, faults: set<nat>)
    requires forall s :: s in steps && !s.cmd.AddTable? ==> s.cmd.chain != FilterChain
    ensures FilterChain in rs.chains ==>
              var o := RunSteps(rs, steps, clock, faults);
              FilterChain in o.rules.chains && o.rules.chains[FilterChain] == rs.chains[FilterChain]
    decreases |steps|
  {
    if steps != [] {
      var first := RunStep(rs, steps[0], clock, faults);
      assert steps[0] in steps;
      if first.ok {
        KeepsFilter(first.rules, steps[1..], first.clock, faults);
      }
    }
  }

  lemma QuietRemembers(s: State, c: Cycle, reputation: seq<nat>, configured: Option<nat>, faults: set<nat>)
    requires TablesPresent(s.rules) && !Skipped(s, c)
    requires forall i :: s.clock <= i < s.clock + |Script(c.input, reputation)| + |Script6(c.input, configured)| ==> i !in faults
    ensures var s1 := Sync(s, c, reputation, configured, faults).state;
            && TablesPresent(s1.rules) && s1.remembered == Some(SummaryOf(c.input))
            && s1.clock == s.clock + |Script(c.input, reputation)| + |Script6(c.input, configured)|
  {
    QuietSync(s, c, reputation, configured, faults);
    SyncFaithful(s, c, reputation, configured, faults);
  }

  lemma FlushFailsThenSkip(s: State, a: Cycle, b: Cycle, reputation: seq<nat>, configured: Option<nat>, n: nat)
    requires TablesPresent(s.rules) && s.remembered.None? && s.clock == 0
    requires SummaryOf(a.input) != SummaryOf(b.input) && Dns6(b.input, configured)
    requires n == |Script(a.input, reputation)| + |Script6(a.input, configured)| + |Script(b.input, reputation)| + 2
    ensures var r := Last(s, [a, b, a], reputation, configured, {n});
            && r.ok && r.state == After(s, [a, b, a], reputation, configured, {n})
            && FilterChain in r.state.rules.chains && r.state.rules.chains[FilterChain] == BlockChain(b.input, reputation)
  {
    ThreeCycles(s, a, b, a, reputation, configured, {n});
    QuietRemembers(s, a, reputation, configured, {n});
    FlushOf6Fails(Sync(s, a, reputation, configured, {n}).state, b, reputation, configured);
  }

  /** Policy A is applied, policy B with another signature is applied but for its IPv6 redirect, policy A comes
      back: it is skipped, and the filter chain goes on enforcing B. Call `n` is that flush. */
  lemma RedirectFailureThenSkip(s: State, a: Cycle, b: Cycle, reputation: seq<nat>, configured: Option<nat>, p: Packet,
                                n: nat)
    requires TablesPresent(s.rules) && s.remembered.None? && s.clock == 0
    requires SummaryOf(a.input) != SummaryOf(b.input) && Dns6(b.input, configured)
    requires n == |Script(a.input, reputation)| + |Script6(a.input, configured)| + |Script(b.input, reputation)| + 2
    ensures var r := Last(s, [a, b, a], reputation, configured, {n});
            && r.ok && r.state == After(s, [a, b, a], reputation, configured, {n})
            && FilterVerdict(r.state.rules, p) == if Drops(VisiblePolicy(b.input), reputation, p) then Dropped else Pass
  {
    FlushFailsThenSkip(s, a, b, reputation, configured, n);
    FilterRefinesPolicy(b.input, reputation, p);
  }

  /** Policy A is live, a sync to policy B fails after `j` of its rules and is rolled back: when A comes back it is
      skipped, and the `j` rules of B go on dropping packets beside those of A. */
  lemma RollbackLingers(s: State, a: Inputs, c: Cycle, j: nat, reputation: seq<nat>, configured: Option<nat>, p: Packet)
    requires TablesPresent(s.rules) && s.remembered == Some(SummaryOf(a)) && Deployed(s.rules, a, reputation, configured)
    requires SummaryOf(c.input) != SummaryOf(a) && c.tools.Work() && j < |BlockChain(c.input, reputation)|
    ensures var r := Sync(s, c, reputation, configured, {s.clock + 3 + j});
            && !r.ok && Skipped(r.state, Cycle(a, c.tools))
            && (FilterVerdict(r.state.rules, p) == Dropped
                <==> AnyFires(BlockChain(c.input, reputation)[..j], p) || Drops(VisiblePolicy(a), reputation, p))
  {
    var faults := {s.clock + 3 + j};
    var rules := BlockChain(c.input, reputation);
    FragmentAfter(s.rules, c.input, j, reputation, s.clock);
    DeployedChains(s.rules, a, reputation, configured);
    RollbackStacks(s, c, reputation, configured, faults, FilterChain);
    AllBlockRulesDrop(c.input, reputation, p);
    AllBlockRulesDrop(a, reputation, p);
    StackedVerdict(rules[..j], BlockChain(a, reputation), p);
    FilterRefinesPolicy(a, reputation, p);
    WalkOfDrops(rules[..j], p);
  }

  lemma AllBlockRulesDrop(input: Inputs, reputation: seq<nat>, p: Packet)
    ensures AllDrop(BlockChain(input, reputation))
  {
    TargetsFire(input.targets, input.enableQuicBlockGlobal, input.enableIpv6, p);
    DohFires(reputation, p);
  }

  /** When call 3 + j of the main script fails, its first j rules are in the filter chain and nothing else happened. */
  lemma FragmentAfter(rs: Ruleset, input: Inputs, j: nat, reputation: seq<nat>, clock: nat)
    requires TablesPresent(rs) && j < |BlockChain(input, reputation)|
    ensures var o := RunSteps(rs, Script(input, reputation), clock, {clock + 3 + j});
            !o.ok && RulesIn(o.rules, FilterChain) == BlockChain(input, reputation)[..j]
  {
    var faults := {clock + 3 + j};
    var rules := BlockChain(input, reputation);
    var dns := if input.enableDnsRedirect then DnsScript(Redirect, input.dnsRedirectIp) else [];
    var head := EmptyScript(FilterChain) + Adds(FilterChain, rules[..j]);
    var rest := Adds(FilterChain, rules[j..]) + dns;
    SplitScript(EmptyScript(FilterChain), rules, j, dns);
    RunStepsConcat(rs, head, rest, clock, faults);
    RefillCompletes(rs, FilterChain, rules[..j], clock, faults);
    CallsCounted(rs, head, clock, faults);
    var o := RunSteps(rs, head, clock, faults);
    assert o.ok && o.clock == clock + 3 + j;
    assert rest[0] == Must(AddRule(FilterChain, rules[j]));
    assert !RunStep(o.rules, rest[0], o.clock, faults).ok;
  }

  lemma SplitScript(empty: seq<Step>, rules: seq<Rule>, j: nat, dns: seq<Step>)
    requires j <= |rules|
    ensures empty + Adds(FilterChain, rules) + dns
            == (empty + Adds(FilterChain, rules[..j])) + (Adds(FilterChain, rules[j..]) + dns)
  {
    assert rules == rules[..j] + rules[j..];
    AddsConcat(FilterChain, rules[..j], rules[j..]);
  }
}
