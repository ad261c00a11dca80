/** One address family of the kernel's packet filter as iptables sees it: chains of rules, the commands that
    edit them, scripts of commands in which any external call may fail, and the walk of a packet. */
module Netfilter {
  import opened Options
  import opened Patterns
  import opened Policy

  datatype Table = Filter | Nat

  datatype Chain = FORWARD | PREROUTING | GtBlock | GtDns | GtDoh | ForeignChain(name: string)

  datatype Match =
    | SrcIs(addr: nat)
    | DstIs(addr: nat)
    | DstIn(base: nat, prefix: nat)
    | ProtoIs(proto: Proto)
    | DportIs(port: nat)
    | MacIs(mac: string)
    | Marked(mark: nat)

  datatype Effect = Drop | Accept | Return | Jump(chain: Chain) | Dnat(addr: nat, port: nat)

  datatype Comment =
    | NoComment
    | BlockIp(deviceId: string)
    | BlockMac(deviceId: string)
    | VpnPort(deviceId: string, port: nat)
    | VpnRange(deviceId: string)
    | Quic(deviceId: string)
    | Doh(provider: string)

  datatype Rule = Rule(matches: seq<Match>, effect: Effect, comment: Comment)

  type Chains = map<Chain, seq<Rule>>

  datatype Ruleset = Ruleset(filter: Chains, dnat: Chains) {
    function At(t: Table): Chains {
      if t.Filter? then filter else dnat
    }

    function With(t: Table, cs: Chains): Ruleset {
      if t.Filter? then this.(filter := cs) else this.(dnat := cs)
    }
  }

  /** The chains the kernel always has. */
  predicate HasBuiltins(rs: Ruleset) {
    FORWARD in rs.filter && PREROUTING in rs.dnat
  }

  // ---------------------------------------------------------------- commands

  datatype Command =
    | NewChain(table: Table, chain: Chain)
    | Flush(table: Table, chain: Chain)
    | Append(table: Table, chain: Chain, rule: Rule)
    | InsertFirst(table: Table, chain: Chain, rule: Rule)

  predicate Resolves(cs: Chains, r: Rule) {
    r.effect.Jump? ==> r.effect.chain in cs
  }

  /** What one command does to the ruleset; None is the kernel's refusal. */
  function Exec(cmd: Command, rs: Ruleset): Option<Ruleset> {
    var cs := rs.At(cmd.table);
    match cmd
    case NewChain(t, c) => if c in cs then None else Some(rs.With(t, cs[c := []]))
    case Flush(t, c) => if c in cs then Some(rs.With(t, cs[c := []])) else None
    case Append(t, c, r) =>
      if c in cs && Resolves(cs, r) then Some(rs.With(t, cs[c := cs[c] + [r]])) else None
    case InsertFirst(t, c, r) =>
      if c in cs && Resolves(cs, r) then Some(rs.With(t, cs[c := [r] + cs[c]])) else None
  }

  predicate Holds(rs: Ruleset, t: Table, c: Chain, r: Rule) {
    c in rs.At(t) && r in rs.At(t)[c]
  }

  /** Must: a failure aborts. Try: a failure is ignored. EnsureFirst: insert at the top unless the check finds it. */
  datatype Step =
    | Must(cmd: Command)
    | Try(cmd: Command)
    | EnsureFirst(table: Table, chain: Chain, rule: Rule)

  datatype Outcome = Outcome(ok: bool, rules: Ruleset, clock: nat)

  /** One external call; the calls are numbered and those in `faults` fail without effect. */
  function RunCommand(rs: Ruleset, cmd: Command, clock: nat, faults: set<nat>): Outcome {
    if clock in faults || Exec(cmd, rs).None?
    then Outcome(false, rs, clock + 1)
    else Outcome(true, Exec(cmd, rs).value, clock + 1)
  }

  function RunStep(rs: Ruleset, step: Step, clock: nat, faults: set<nat>): Outcome {
    match step
    case Must(cmd) => RunCommand(rs, cmd, clock, faults)
    case Try(cmd) => RunCommand(rs, cmd, clock, faults).(ok := true)
    case EnsureFirst(t, c, r) =>
      if Holds(rs, t, c, r) then Outcome(true, rs, clock) else RunCommand(rs, InsertFirst(t, c, r), clock, faults)
  }

  /** The script up to and including the first step that aborts it. */
  function RunSteps(rs: Ruleset, steps: seq<Step>, clock: nat, faults: set<nat>): Outcome
    decreases |steps|
  {
    if steps == [] then Outcome(true, rs, clock)
    else
      var first := RunStep(rs, steps[0], clock, faults);
      if first.ok then RunSteps(first.rules, steps[1..], first.clock, faults) else first
  }

  lemma {:induction false} RunStepsConcat(rs: Ruleset, a: seq<Step>, b: seq<Step>, clock: nat, faults: set<nat>)
    ensures var first := RunSteps(rs, a, clock, faults);
            RunSteps(rs, a + b, clock, faults)
            == if first.ok then RunSteps(first.rules, b, first.clock, faults) else first
    decreases |a|
  {
    if a == [] {
      assert a + b == b;
    } else {
      var first := RunStep(rs, a[0], clock, faults);
      assert (a + b)[0] == a[0] && (a + b)[1..] == a[1..] + b;
      if first.ok {
        RunStepsConcat(first.rules, a[1..], b, first.clock, faults);
      }
    }
  }

  lemma RunStepsSingle(rs: Ruleset, step: Step, clock: nat, faults: set<nat>)
    ensures RunSteps(rs, [step], clock, faults) == RunStep(rs, step, clock, faults)
  {
    assert [step][1..] == [];
  }

  /** Appending a list of rules to one chain, one call a rule. */
  function Appends(t: Table, c: Chain, rules: seq<Rule>): (steps: seq<Step>)
    ensures |steps| == |rules|
    ensures forall i :: 0 <= i < |rules| ==> steps[i] == Must(Append(t, c, rules[i]))
  {
    seq(|rules|, i requires 0 <= i < |rules| => Must(Append(t, c, rules[i])))
  }

  lemma AppendsConcat(t: Table, c: Chain, a: seq<Rule>, b: seq<Rule>)
    ensures Appends(t, c, a + b) == Appends(t, c, a) + Appends(t, c, b)
  {
  }

  predicate NoJumps(rules: seq<Rule>) {
    forall r :: r in rules ==> !r.effect.Jump?
  }

  function AppendTo(rs: Ruleset, t: Table, c: Chain, rules: seq<Rule>): Ruleset
    requires c in rs.At(t)
  {
    rs.With(t, rs.At(t)[c := rs.At(t)[c] + rules])
  }

  /** How many of `n` calls from `clock` on are made before the first that fails. */
  function Unfailed(clock: nat, n: nat, faults: set<nat>): (k: nat)
    ensures k <= n && (forall i :: clock <= i < clock + k ==> i !in faults) && (k < n ==> clock + k in faults)
    decreases n
  {
    if n == 0 || clock in faults then 0 else 1 + Unfailed(clock + 1, n - 1, faults)
  }

  lemma AppendNothing(rs: Ruleset, t: Table, c: Chain)
    requires c in rs.At(t)
    ensures AppendTo(rs, t, c, []) == rs
  {
    assert rs.At(t)[c] + [] == rs.At(t)[c];
    assert rs.At(t)[c := rs.At(t)[c]] == rs.At(t);
  }

  lemma AppendMore(rs: Ruleset, t: Table, c: Chain, r: Rule, rules: seq<Rule>)
    requires c in rs.At(t)
    ensures AppendTo(AppendTo(rs, t, c, [r]), t, c, rules) == AppendTo(rs, t, c, [r] + rules)
  {
    assert rs.At(t)[c] + [r] + rules == rs.At(t)[c] + ([r] + rules);
  }

  lemma AppendOnce(rs: Ruleset, t: Table, c: Chain, r: Rule, clock: nat, faults: set<nat>)
    requires c in rs.At(t) && !r.effect.Jump?
    ensures RunStep(rs, Must(Append(t, c, r)), clock, faults)
            == if clock in faults then Outcome(false, rs, clock + 1) else Outcome(true, AppendTo(rs, t, c, [r]), clock + 1)
  {
  }

  lemma AppendsFirst(rs: Ruleset, t: Table, c: Chain, rules: seq<Rule>, clock: nat, faults: set<nat>)
    requires c in rs.At(t) && rules != [] && NoJumps(rules)
    ensures RunSteps(rs, Appends(t, c, rules), clock, faults)
            == if clock in faults then Outcome(false, rs, clock + 1)
               else RunSteps(AppendTo(rs, t, c, [rules[0]]), Appends(t, c, rules[1..]), clock + 1, faults)
  {
    var steps := Appends(t, c, rules);
    assert rules[0] in rules && steps[0] == Must(Append(t, c, rules[0])) && steps[1..] == Appends(t, c, rules[1..]);
    AppendOnce(rs, t, c, rules[0], clock, faults);
  }

  /** What appends leave when the first `n` of their calls succeed and the next one, if there is one, fails. */
  function Appended(rs: Ruleset, t: Table, c: Chain, rules: seq<Rule>, clock: nat, n: nat): Outcome
    requires c in rs.At(t) && n <= |rules|
  {
    Outcome(n == |rules|, AppendTo(rs, t, c, rules[..n]), clock + n + if n < |rules| then 1 else 0)
  }

  lemma AppendedFirst(rs: Ruleset, t: Table, c: Chain, rules: seq<Rule>, clock: nat, n: nat)
    requires c in rs.At(t) && n < |rules|
    ensures Appended(rs, t, c, rules, clock, n + 1)
            == Appended(AppendTo(rs, t, c, [rules[0]]), t, c, rules[1..], clock + 1, n)
  {
    AppendMore(rs, t, c, rules[0], rules[1..][..n]);
    assert [rules[0]] + rules[1..][..n] == rules[..n + 1];
  }

  lemma AppendsStop(rs: Ruleset, t: Table, c: Chain, rules: seq<Rule>, clock: nat, faults: set<nat>)
    requires c in rs.At(t) && NoJumps(rules) && (rules == [] || clock in faults)
    ensures RunSteps(rs, Appends(t, c, rules), clock, faults)
            == Appended(rs, t, c, rules, clock, Unfailed(clock, |rules|, faults))
  {
    AppendNothing(rs, t, c);
    assert rules[..0] == [];
    if rules != [] {
      AppendsFirst(rs, t, c, rules, clock, faults);
    }
  }

  lemma AppendsStep(rs: Ruleset, t: Table, c: Chain, rules: seq<Rule>, clock: nat, faults: set<nat>, o: Outcome, n: nat)
    requires c in rs.At(t) && NoJumps(rules) && n < |rules| && clock !in faults
    requires o == RunSteps(AppendTo(rs, t, c, [rules[0]]), Appends(t, c, rules[1..]), clock + 1, faults)
    requires o == Appended(AppendTo(rs, t, c, [rules[0]]), t, c, rules[1..], clock + 1, n)
    ensures RunSteps(rs, Appends(t, c, rules), clock, faults) == Appended(rs, t, c, rules, clock, n + 1)
  {
    AppendsFirst(rs, t, c, rules, clock, faults);
    AppendedFirst(rs, t, c, rules, clock, n);
  }

  /** A run of appends writes exactly the rules before the first failing call, in order, and stops with that call; it
      completes exactly when no call fails. */
  lemma {:induction false} RunAppends(rs: Ruleset, t: Table, c: Chain, rules: seq<Rule>, clock: nat, faults: set<nat>)
    requires c in rs.At(t) && NoJumps(rules)
    ensures RunSteps(rs, Appends(t, c, rules), clock, faults)
            == Appended(rs, t, c, rules, clock, Unfailed(clock, |rules|, faults))
    decreases |rules|
  {
    if rules == [] || clock in faults {
      AppendsStop(rs, t, c, rules, clock, faults);
    } else {
      RunAppends(AppendTo(rs, t, c, [rules[0]]), t, c, rules[1..], clock + 1, faults);
      var rest, n := Appends(t, c, rules[1..]), Unfailed(clock + 1, |rules| - 1, faults);
      AppendsStep(rs, t, c, rules, clock, faults, RunSteps(AppendTo(rs, t, c, [rules[0]]), rest, clock + 1, faults), n);
    }
  }

  // ---------------------------------------------------------------- ownership

  predicate IsGt(c: Chain) {
    c.GtBlock? || c.GtDns? || c.GtDoh?
  }

  predicate IsHook(r: Rule) {
    r.effect.Jump? && IsGt(r.effect.chain)
  }

  /** The rules of a chain that are not jumps into a GuardTime chain, in order. */
  function NotOurs(rules: seq<Rule>): seq<Rule> {
    if rules == [] then []
    else if IsHook(rules[0]) then NotOurs(rules[1..])
    else [rules[0]] + NotOurs(rules[1..])
  }

  function ForeignChains(cs: Chains): Chains {
    map c | c in cs && !IsGt(c) :: NotOurs(cs[c])
  }

  /** What remains of a ruleset once GuardTime's chains and the jumps into them are taken away. */
  function Foreign(rs: Ruleset): Ruleset {
    Ruleset(ForeignChains(rs.filter), ForeignChains(rs.dnat))
  }

  /** Jumps into GuardTime chains occur only at the top of the root chain, and nothing jumps to the root itself. */
  predicate Hooked(cs: Chains, root: Chain) {
    && root in cs
    && (forall i, j :: 0 <= i < j < |cs[root]| && IsHook(cs[root][j]) ==> IsHook(cs[root][i]))
    && (forall c :: c in cs && c != root && !IsGt(c) ==> forall r :: r in cs[c] ==> !IsHook(r))
    && (forall c, r :: c in cs && r in cs[c] ==> r.effect != Jump(root))
  }

  /** No rule occurs twice among the jumps into GuardTime chains. */
  ghost predicate HooksUnique(cs: Chains, root: Chain) {
    root in cs && forall r :: IsHook(r) ==> multiset(cs[root])[r] <= 1
  }

  predicate WellHooked(rs: Ruleset) {
    Hooked(rs.filter, FORWARD) && Hooked(rs.dnat, PREROUTING)
  }

  ghost predicate UniqueHooks(rs: Ruleset) {
    HooksUnique(rs.filter, FORWARD) && HooksUnique(rs.dnat, PREROUTING)
  }

  function Root(t: Table): Chain {
    if t.Filter? then FORWARD else PREROUTING
  }

  /** The commands a GuardTime script may hold: edits of its own chains with rules that do not jump,
      and jumps into its chains put at the top of the table's root chain when absent. */
  predicate OursOnly(step: Step) {
    match step
    case Must(cmd) => OwnEdit(cmd)
    case Try(cmd) => OwnEdit(cmd)
    case EnsureFirst(t, c, r) => c == Root(t) && IsHook(r)
  }

  predicate OwnEdit(cmd: Command) {
    IsGt(cmd.chain) && !cmd.InsertFirst? && (cmd.Append? ==> !cmd.rule.effect.Jump?)
  }

  predicate AllOurs(steps: seq<Step>) {
    forall s :: s in steps ==> OursOnly(s)
  }

  ghost predicate TableFramed(before: Chains, after: Chains, root: Chain) {
    && ForeignChains(after) == ForeignChains(before)
    && (root in before ==> root in after && forall r :: r in before[root] ==> r in after[root])
    && (Hooked(before, root) ==> Hooked(after, root))
    && (HooksUnique(before, root) ==> HooksUnique(after, root))
  }

  /** A ruleset a script may leave behind: the foreign part is untouched and the hooks stay in place. */
  ghost predicate Framed(before: Ruleset, after: Ruleset) {
    && TableFramed(before.filter, after.filter, FORWARD)
    && TableFramed(before.dnat, after.dnat, PREROUTING)
  }

  lemma OwnChainFramed(cs: Chains, root: Chain, c: Chain, rules: seq<Rule>)
    requires IsGt(c) && !IsGt(root)
    requires forall r :: r in rules ==> !r.effect.Jump? || (c in cs && r in cs[c])
    ensures TableFramed(cs, cs[c := rules], root)
  {
    assert ForeignChains(cs[c := rules]) == ForeignChains(cs);
  }

  lemma WithFramed(rs: Ruleset, t: Table, cs: Chains)
    requires TableFramed(rs.At(t), cs, Root(t))
    ensures Framed(rs, rs.With(t, cs))
  {
  }

  lemma EditFramed(rs: Ruleset, cmd: Command)
    requires OwnEdit(cmd) && Exec(cmd, rs).Some?
    ensures Framed(rs, Exec(cmd, rs).value)
  {
    var cs, c := rs.At(cmd.table), cmd.chain;
    var rules := if cmd.Append? then cs[c] + [cmd.rule] else [];
    OwnChainFramed(cs, Root(cmd.table), c, rules);
    WithFramed(rs, cmd.table, cs[c := rules]);
  }

  lemma HookedForeign(cs: Chains, root: Chain, rules: seq<Rule>)
    requires root in cs && rules != [] && IsHook(rules[0]) && rules[1..] == cs[root]
    ensures ForeignChains(cs[root := rules]) == ForeignChains(cs)
  {
    assert NotOurs(rules) == NotOurs(cs[root]);
  }

  lemma HookedUnique(cs: Chains, root: Chain, r: Rule)
    requires root in cs && r !in cs[root] && HooksUnique(cs, root)
    ensures HooksUnique(cs[root := [r] + cs[root]], root)
  {
    var rules := [r] + cs[root];
    assert multiset(rules) == multiset{r} + multiset(cs[root]);
    assert multiset(cs[root])[r] == 0;
  }

  lemma HookedOnTop(cs: Chains, root: Chain, r: Rule)
    requires IsHook(r) && !IsGt(root) && Hooked(cs, root)
    ensures Hooked(cs[root := [r] + cs[root]], root)
  {
    var rules := [r] + cs[root];
    forall i, j | 0 <= i < j < |rules| && IsHook(rules[j]) ensures IsHook(rules[i]) {
      assert rules[j] == cs[root][j - 1];
    }
  }

  lemma HookFramed(cs: Chains, root: Chain, r: Rule)
    requires IsHook(r) && !IsGt(root) && root in cs && r !in cs[root]
    ensures TableFramed(cs, cs[root := [r] + cs[root]], root)
  {
    var rules := [r] + cs[root];
    HookedForeign(cs, root, rules);
    if HooksUnique(cs, root) { HookedUnique(cs, root, r); }
    if Hooked(cs, root) { HookedOnTop(cs, root, r); }
  }

  lemma StepFramed(rs: Ruleset, step: Step, clock: nat, faults: set<nat>)
    requires OursOnly(step)
    ensures Framed(rs, RunStep(rs, step, clock, faults).rules)
  {
    match step
    case Must(cmd) =>
      if Exec(cmd, rs).Some? { EditFramed(rs, cmd); }
    case Try(cmd) =>
      if Exec(cmd, rs).Some? { EditFramed(rs, cmd); }
    case EnsureFirst(t, c, r) =>
      if !Holds(rs, t, c, r) && c in rs.At(t) {
        HookFramed(rs.At(t), c, r);
        WithFramed(rs, t, rs.At(t)[c := [r] + rs.At(t)[c]]);
      }
  }

  /** Wherever a GuardTime script stops, every foreign rule survives in its place and no hook is doubled. */
  lemma {:induction false} ScriptFramed(rs: Ruleset, steps: seq<Step>, clock: nat, faults: set<nat>)
    requires AllOurs(steps)
    ensures Framed(rs, RunSteps(rs, steps, clock, faults).rules)
    decreases |steps|
  {
    if steps != [] {
      var first := RunStep(rs, steps[0], clock, faults);
      StepFramed(rs, steps[0], clock, faults);
      if first.ok {
        ScriptFramed(first.rules, steps[1..], first.clock, faults);
      }
    }
  }

  // ---------------------------------------------------------------- packets

  predicate Matches(m: Match, p: Packet) {
    match m
    case SrcIs(a) => p.src == a
    case DstIs(a) => p.dst == a
    case DstIn(b, n) => InPrefix(p.dst, b, n)
    case ProtoIs(q) => p.proto == q
    case DportIs(d) => p.dport == d
    case MacIs(a) => p.mac == a
    case Marked(k) => k in p.marks
  }

  predicate MatchesAll(ms: seq<Match>, p: Packet) {
    forall m :: m in ms ==> Matches(m, p)
  }

  datatype Verdict = FallThrough | Dropped | Accepted | Rewritten(addr: nat, port: nat)

  /** The walk of a packet along `rules`; `depth` bounds how deep jumps may nest. */
  function Walk(cs: Chains, rules: seq<Rule>, p: Packet, depth: nat): Verdict
    decreases depth, |rules|
  {
    if rules == [] then FallThrough
    else if !MatchesAll(rules[0].matches, p) then Walk(cs, rules[1..], p, depth)
    else match rules[0].effect
      case Drop => Dropped
      case Accept => Accepted
      case Return => FallThrough
      case Dnat(a, port) => Rewritten(a, port)
      case Jump(c) =>
        var inner := if c in cs && depth > 0 then Walk(cs, cs[c], p, depth - 1) else FallThrough;
        if inner.FallThrough? then Walk(cs, rules[1..], p, depth) else inner
  }

  /** Foreign rules meet the same verdict whether or not GuardTime's part of the table is there. */
  lemma {:induction false} WalkForeign(cs: Chains, root: Chain, rules: seq<Rule>, p: Packet, depth: nat)
    requires Hooked(cs, root)
    requires forall r :: r in rules ==> !IsHook(r) && r.effect != Jump(root)
    ensures Walk(cs, rules, p, depth) == Walk(ForeignChains(cs), rules, p, depth)
    decreases depth, |rules|
  {
    if rules != [] {
      WalkForeign(cs, root, rules[1..], p, depth);
      var first := rules[0];
      assert first in rules;
      if first.effect.Jump? && depth > 0 && first.effect.chain in cs {
        var c := first.effect.chain;
        NotOursIdentity(cs[c]);
        WalkForeign(cs, root, cs[c], p, depth - 1);
      }
    }
  }

  lemma {:induction false} NotOursIdentity(rules: seq<Rule>)
    requires forall r :: r in rules ==> !IsHook(r)
    ensures NotOurs(rules) == rules
  {
    if rules != [] {
      NotOursIdentity(rules[1..]);
      assert rules == [rules[0]] + rules[1..];
    }
  }

  /** What `NotOurs` keeps is in the chain and is no hook. */
  lemma {:induction false} NotOursMembers(rules: seq<Rule>, r: Rule)
    ensures r in NotOurs(rules) <==> r in rules && !IsHook(r)
  {
    if rules != [] {
      NotOursMembers(rules[1..], r);
      assert r in rules <==> r == rules[0] || r in rules[1..];
    }
  }

  predicate Fires(r: Rule, p: Packet) {
    MatchesAll(r.matches, p)
  }

  /** A chain of drops drops a packet exactly when one of its rules fires. */
  lemma {:induction false} WalkDrops(cs: Chains, rules: seq<Rule>, p: Packet, depth: nat)
    requires forall r :: r in rules ==> r.effect.Drop?
    ensures Walk(cs, rules, p, depth)
            == if exists r :: r in rules && Fires(r, p) then Dropped else FallThrough
    decreases |rules|
  {
    if rules != [] {
      WalkDrops(cs, rules[1..], p, depth);
      assert rules[0] in rules;
      assert forall r :: r in rules <==> r == rules[0] || r in rules[1..];
    }
  }

  /** Whether `r` is a hook that fires and whose chain gives `p` the verdict `v`. */
  predicate HookDecides(cs: Chains, r: Rule, p: Packet, depth: nat, v: Verdict)
    requires depth > 0
  {
    IsHook(r) && Fires(r, p) && r.effect.chain in cs && Walk(cs, cs[r.effect.chain], p, depth - 1) == v
  }

  /** When the hooks at the top of a chain can only say `v` or nothing, the walk says `v` if one of them
      does, and otherwise what the foreign rules alone would say. */
  lemma {:induction false} WalkHooked(cs: Chains, root: Chain, rules: seq<Rule>, p: Packet, depth: nat, v: Verdict)
    requires depth > 0 && !v.FallThrough? && Hooked(cs, root)
    requires forall i, j :: 0 <= i < j < |rules| && IsHook(rules[j]) ==> IsHook(rules[i])
    requires forall r :: r in rules ==> r.effect != Jump(root)
    requires forall r :: r in rules && IsHook(r) && Fires(r, p) && r.effect.chain in cs ==>
               Walk(cs, cs[r.effect.chain], p, depth - 1) in {v, FallThrough}
    ensures Walk(cs, rules, p, depth)
            == if exists r :: r in rules && HookDecides(cs, r, p, depth, v) then v
               else Walk(ForeignChains(cs), NotOurs(rules), p, depth)
    decreases |rules|
  {
    if rules != [] {
      assert rules[0] in rules;
      assert forall r :: r in rules <==> r == rules[0] || r in rules[1..];
      if IsHook(rules[0]) {
        WalkHooked(cs, root, rules[1..], p, depth, v);
      } else {
        forall r | r in rules ensures !IsHook(r) {
          var k :| 0 <= k < |rules| && rules[k] == r;
        }
        WalkForeign(cs, root, rules, p, depth);
        NotOursIdentity(rules);
      }
    }
  }
}
