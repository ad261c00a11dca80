/** main.js: one poll cycle as the composition of its stages, and the guarantee that no stage ever turns against the
    gateway's own management address. */
module Agent {
  import opened Options
  import opened Policy
  import opened Signature
  import opened ManagementGuard
  import NF = Netfilter
  import IR = IptablesRules
  import Runs = IptablesRuns
  import FC = IptablesController
  import CK = ConnectionKiller
  import IM = IptablesMeaning
  import opened IptablesSafety
  import opened ShapingSafety
  import Tc
  import QS = QosScript
  import QCtl = QosController

  // ---------------------------------------------------------------- the cycle

  /** The process-wide switches of the firewall request. */
  datatype Switches = Switches(dnsRedirectIp: Option<nat>, dnsRedirectIpv6: Option<nat>, enableDnsRedirect: bool,
                               enableQuicBlockGlobal: bool, enableDohBlock: bool)

  datatype Outcome = Complete | FirewallFailed | ShapingFailed

  // ---------------------------------------------------------------- what a cycle is to bring about

  /** The switches and lists of the process, the addresses that are the gateway's own, and the targets the backend
      named, the gateway's own among them. */
  datatype Orders = Orders(switches: Switches, configuredIpv6: Option<nat>, reputation: seq<nat>, staticIps: set<nat>,
                           detectedIp: Option<nat>, all: seq<Target>) {
    predicate Own(ip: Option<nat>) {
      ip.Some? && (ip.value in staticIps || (detectedIp.Some? && detectedIp.value == ip.value))
    }

    predicate Drops(p: Packet) {
      || (exists t :: t in all && !Own(t.ipAddress) && TargetDrops(t, switches.enableQuicBlockGlobal, p))
      || (switches.enableDohBlock && DohDrops(reputation, p))
    }

    /** Where DNS queries of a family go, if they are redirected. */
    function Resolver(ipv6: bool): Option<nat> {
      if !switches.enableDnsRedirect then None
      else if !ipv6 then switches.dnsRedirectIp
      else if switches.dnsRedirectIpv6.Some? then switches.dnsRedirectIpv6 else configuredIpv6
    }

    /** The live ruleset of a family does to every packet what is ordered, and otherwise what `base` does. */
    ghost predicate Done(rs: NF.Ruleset, base: NF.Ruleset, ipv6: bool) {
      && NF.HasBuiltins(rs) && NF.HasBuiltins(base)
      && forall p: Packet, depth: nat :: p.ipv6 == ipv6 && depth > 0 ==>
           && NF.Walk(rs.filter, rs.filter[NF.FORWARD], p, depth)
              == (if Drops(p) then NF.Dropped else NF.Walk(base.filter, base.filter[NF.FORWARD], p, depth))
           && NF.Walk(rs.dnat, rs.dnat[NF.PREROUTING], p, depth)
              == (if IsDns(p) && Resolver(ipv6).Some? then NF.Rewritten(Resolver(ipv6).value, 53)
                  else NF.Walk(base.dnat, base.dnat[NF.PREROUTING], p, depth))
    }

    /** The hooks of this process are at the top, and nothing is hooked in that its switches would never refresh. */
    predicate Tidy(rs: NF.Ruleset, ipv6: bool) {
      NF.WellHooked(rs) && IM.FlagsClean(rs, switches.enableDohBlock, Resolver(ipv6).Some?)
    }

    /** What a pass makes of a tidy ruleset: a tidy one, and one that does what is ordered if the pass is `settled`. */
    ghost predicate Passed(before: NF.Ruleset, live: NF.Ruleset, ipv6: bool, settled: bool) {
      Tidy(before, ipv6) ==> Tidy(live, ipv6) && (settled ==> Done(live, NF.Foreign(before), ipv6))
    }
  }

  /** The firewall of both families, and whether a lost rollback is pending: some rebuild failed without being undone and
      none has completed since. */
  datatype Firewall = Firewall(v4: Runs.Family, v6: Runs.Family, lost4: bool, lost6: bool)

  /** Unless a lost rollback is pending, what is remembered of a family describes what is live. */
  ghost predicate Trusted(f: Firewall, reputation: seq<nat>) {
    && NF.HasBuiltins(f.v4.rules) && NF.HasBuiltins(f.v6.rules)
    && (!f.lost4 ==> Runs.Faithful(f.v4, reputation)) && (!f.lost6 ==> Runs.Faithful(f.v6, reputation))
  }

  /** One step of a family: that of its state machine, and what that makes of a pending lost rollback: a completed rebuild
      clears it, a failed one that is not undone sets it. */
  predicate Stepped(before: Runs.Family, lostBefore: bool, c: Runs.Cycle, reputation: seq<nat>, faults: set<nat>,
                    after: Runs.Family, lost: bool, ok: bool) {
    && Runs.Synced(after, ok) == Runs.SyncFamily(before, c, reputation, faults)
    && lost == Runs.LostBy(lostBefore, before, c, reputation, faults)
  }

  /** The IPv4 family takes its step, and if that returned and IPv6 is on the other one does too. */
  predicate BothStepped(c4: Runs.Cycle, c6: Runs.Cycle, ipv6: bool, reputation: seq<nat>, faults4: set<nat>,
                        faults6: set<nat>, before: Firewall, after: Firewall, ok: bool, ok6: bool) {
    && Stepped(before.v4, before.lost4, c4, reputation, faults4, after.v4, after.lost4, ok)
    && if ok && ipv6 then Stepped(before.v6, before.lost6, c6, reputation, faults6, after.v6, after.lost6, ok6)
       else after.v6 == before.v6 && after.lost6 == before.lost6 && !ok6
  }

  /** The firewall stage of a cycle: the families take their steps. A tidy ruleset stays so and, when its pass returned with
      no lost rollback pending, does to every packet what is ordered, rebuilt or skipped; and then no rule of the IPv4 chain
      names an address of the gateway. */
  ghost predicate FirewallStage(o: Orders, c4: Runs.Cycle, c6: Runs.Cycle, ipv6: bool, faults4: set<nat>, faults6: set<nat>,
                                before: Firewall, after: Firewall, ok: bool, ok6: bool) {
    && BothStepped(c4, c6, ipv6, o.reputation, faults4, faults6, before, after, ok, ok6)
    && o.Passed(before.v4.rules, after.v4.rules, false, ok && !after.lost4)
    && o.Passed(before.v6.rules, after.v6.rules, true, ok6 && !after.lost6)
    && (ok && !after.lost4 ==> ChainSafe(after.v4.rules, o.staticIps, o.detectedIp))
  }

  /** The inputs of a pass that mean what is ordered: the targets let through and the switches of the process. */
  ghost predicate Carries(input: Inputs, o: Orders, ipv6: bool) {
    && input.targets == Safe(o.staticIps, o.detectedIp, o.all) && input.enableIpv6 == ipv6
    && input.enableQuicBlockGlobal == o.switches.enableQuicBlockGlobal
    && input.enableDohBlock == o.switches.enableDohBlock
    && IR.Redirects(input) == o.Resolver(ipv6).Some?
    && (IR.Redirects(input) ==> input.dnsRedirectIp == o.Resolver(ipv6))
  }

  lemma CarriedDrops(input: Inputs, o: Orders, p: Packet)
    requires Carries(input, o, p.ipv6)
    ensures Drops(input, o.reputation, p) <==> o.Drops(p)
  {
    forall t ensures t in input.targets <==> t in o.all && !o.Own(t.ipAddress) {
      SafeMembers(o.staticIps, o.detectedIp, o.all, t);
    }
  }

  lemma CarriedDone(rs: NF.Ruleset, base: NF.Ruleset, input: Inputs, o: Orders, ipv6: bool)
    requires Carries(input, o, ipv6) && Runs.Enforces(rs, base, input, o.reputation)
    ensures o.Done(rs, base, ipv6)
  {
    forall p: Packet | p.ipv6 == ipv6 ensures Drops(input, o.reputation, p) <==> o.Drops(p) {
      CarriedDrops(input, o, p);
    }
  }

  /** One pass of one family, whatever failed in it and before it. */
  lemma PassDone(s: Runs.Family, c: Runs.Cycle, o: Orders, faults: set<nat>, lost: bool)
    requires Carries(c.input, o, c.input.enableIpv6) && o.Tidy(s.rules, c.input.enableIpv6)
    requires !lost ==> Runs.Faithful(s, o.reputation)
    ensures var r := Runs.SyncFamily(s, c, o.reputation, faults);
            && o.Tidy(r.state.rules, c.input.enableIpv6)
            && (r.ok && !Runs.LostBy(lost, s, c, o.reputation, faults) ==>
                  o.Done(r.state.rules, NF.Foreign(s.rules), c.input.enableIpv6))
  {
    var r := Runs.SyncFamily(s, c, o.reputation, faults);
    Runs.StepEnforces(s, c, o.reputation, faults, lost);
    if r.ok && !Runs.LostBy(lost, s, c, o.reputation, faults) {
      CarriedDone(r.state.rules, NF.Foreign(s.rules), c.input, o, c.input.enableIpv6);
    }
  }

  class Gateway {
    const switches: Switches
    const guard: Guard
    const killer: CK.Killer
    const firewall: FC.Controller
    const qos: QCtl.Controller
    /** Some rebuild of the family failed without being undone and none has completed since. */
    ghost var lost: bool
    ghost var lost6: bool

    constructor (switches: Switches, guard: Guard, killer: CK.Killer, firewall: FC.Controller, qos: QCtl.Controller)
      requires killer.guard == guard && killer.metrics.Valid() && firewall.Valid()
      requires NF.HasBuiltins(firewall.v4.rules) && NF.HasBuiltins(firewall.v6.rules)
      requires firewall.lastSyncSignatures == map[]
      ensures Valid() && !lost && !lost6
      ensures this.switches == switches && this.guard == guard && this.killer == killer
      ensures this.firewall == firewall && this.qos == qos
    {
      this.switches, this.guard, this.killer, this.firewall, this.qos := switches, guard, killer, firewall, qos;
      lost, lost6 := false, false;
    }

    ghost predicate Valid()
      reads this, killer, killer.metrics, firewall, firewall.v4, firewall.v6
    {
      && killer.guard == guard && killer.metrics.Valid() && firewall.Valid()
      && Trusted(Now(), firewall.config.dohReputationIps)
    }

    function Request(ts: seq<Target>): Inputs {
      Inputs(ts, switches.dnsRedirectIp, switches.dnsRedirectIpv6, switches.enableDnsRedirect,
             switches.enableQuicBlockGlobal, switches.enableDohBlock, firewall.config.enableIpv6)
    }

    /** What the guard lets through, and the IPv4 inputs of the firewall for it. */
    function Guarded(all: seq<Target>): seq<Target>
      reads guard
    {
      Safe(guard.staticIps, guard.detectedIp, all)
    }

    function FirewallInputs(ts: seq<Target>, ipv6: bool): Inputs {
      IR.PassInputs(Request(ts), firewall.config.dnsRedirectIpv6, ipv6)
    }

    function OrdersFor(all: seq<Target>): Orders
      reads guard
    {
      Orders(switches, firewall.config.dnsRedirectIpv6, firewall.config.dohReputationIps, guard.staticIps, guard.detectedIp, all)
    }

    /** A complete shaping stage is safe when its clearing calls hold, and in any case exactly when what failed clearing
        left behind is. */
    ghost predicate ShapingStep(links0: Tc.Links, clock0: nat, all: seq<Target>, resolver: QS.Resolver, complete: bool)
      reads guard, qos
    {
      var ips, own := guard.staticIps, guard.detectedIp;
      complete ==>
        && (ClearsHold(qos.config, clock0, qos.faults) ==> ShapingSafe(qos.links, qos.config, resolver, ips, own, all))
        && (ShapingSafe(qos.links, qos.config, resolver, ips, own, all)
            <==> LeftoversSafe(links0, qos.links, qos.config, resolver, ips, own, all, clock0, qos.faults))
    }

    ghost function Now(): Firewall
      reads this, firewall, firewall.v4, firewall.v6
    {
      Firewall(firewall.State(false), firewall.State(true), lost, lost6)
    }

    function Pass(ts: seq<Target>, ipv6: bool, tools: Tools): Runs.Cycle {
      Runs.Cycle(FirewallInputs(ts, ipv6), tools)
    }

    /** One poll cycle over the targets the backend named: every stage sees the guarded ones and only them. A stage
        that throws ends the cycle. */
    method SyncOnce(probe: Option<nat>, all: seq<Target>, resolver: QS.Resolver, tools4: Tools, tools6: Tools)
      returns (outcome: Outcome, ghost ok6: bool)
      requires Valid()
      modifies this`lost, this`lost6, guard, killer, killer.metrics, firewall`lastSyncSignatures, firewall.v4, firewall.v6, qos
      ensures Valid() && guard.detectedIp == if probe.Some? then probe else old(guard.detectedIp)
      // what the stages were given
      ensures killer.previousStates == CK.MemoryOf(Guarded(all))
      ensures var ks := CK.AllKills(CK.ToKill(old(killer.previousStates), guard.staticIps, guard.detectedIp, Guarded(all)));
              && killer.kills == old(killer.kills) + ks
              && forall k :: k in ks && !k.address.ipv6 ==> !guard.IsProtectedIp(Some(k.address.n))
      ensures FirewallStage(OrdersFor(all), Pass(Guarded(all), false, tools4), Pass(Guarded(all), true, tools6),
                            firewall.config.enableIpv6, firewall.v4.faults, firewall.v6.faults, old(Now()), Now(),
                            !outcome.FirewallFailed?, ok6)
      ensures if outcome.FirewallFailed? then qos.links == old(qos.links) && qos.clock == old(qos.clock)
              else qos.Did(old(qos.links), old(qos.clock), QS.Script(qos.config, resolver, Guarded(all)), outcome.Complete?)
      // and every live tc filter is for an unprotected device, whatever tc calls failed, unless clearing old ones did
      ensures ShapingStep(old(qos.links), old(qos.clock), all, resolver, outcome.Complete?)
    {
      var _ := guard.Refresh(probe);
      var targets := guard.FilterTargets(all);
      SyncKills(targets);
      outcome, ok6 := SyncEnforcement(all, targets, resolver, tools4, tools6);
    }

    /** The firewall stage and, if it returns, the shaping stage. */
    method SyncEnforcement(ghost all: seq<Target>, targets: seq<Target>, resolver: QS.Resolver, tools4: Tools,
                           tools6: Tools) returns (outcome: Outcome, ghost ok6: bool)
      requires Valid() && targets == Guarded(all)
      modifies this`lost, this`lost6, firewall`lastSyncSignatures, firewall.v4, firewall.v6, qos
      ensures Valid()
      ensures FirewallStage(OrdersFor(all), Pass(Guarded(all), false, tools4), Pass(Guarded(all), true, tools6),
                            firewall.config.enableIpv6, firewall.v4.faults, firewall.v6.faults, old(Now()), Now(),
                            !outcome.FirewallFailed?, ok6)
      ensures if outcome.FirewallFailed? then qos.links == old(qos.links) && qos.clock == old(qos.clock)
              else qos.Did(old(qos.links), old(qos.clock), QS.Script(qos.config, resolver, targets), outcome.Complete?)
      ensures ShapingStep(old(qos.links), old(qos.clock), all, resolver, outcome.Complete?)
    {
      var enforced;
      enforced, ok6 := SyncFirewall(all, targets, tools4, tools6);
      if !enforced { return FirewallFailed, ok6; }
      ghost var now := Now();
      var shaped := SyncShaping(all, resolver, targets);
      assert Now() == now;
      outcome := if shaped then Complete else ShapingFailed;
    }

    /** The kills of the cycle: none is aimed at a protected IPv4 address. */
    method SyncKills(targets: seq<Target>)
      requires killer.guard == guard && killer.metrics.Valid()
      modifies killer, killer.metrics
      ensures killer.metrics.Valid() && killer.previousStates == CK.MemoryOf(targets)
      ensures var ks := CK.AllKills(CK.ToKill(old(killer.previousStates), guard.staticIps, guard.detectedIp, targets));
              && killer.kills == old(killer.kills) + ks
              && forall k :: k in ks && !k.address.ipv6 ==> !guard.IsProtectedIp(Some(k.address.n))
    {
      ghost var memory := killer.previousStates;
      var _, _, _ := killer.Sync(targets);
      ghost var ks := CK.AllKills(CK.ToKill(memory, guard.staticIps, guard.detectedIp, targets));
      forall k | k in ks && !k.address.ipv6 ensures !guard.IsProtectedIp(Some(k.address.n)) {
        CK.KillsUnprotected(memory, guard.staticIps, guard.detectedIp, targets, k);
      }
    }

    method SyncShaping(ghost all: seq<Target>, resolver: QS.Resolver, targets: seq<Target>) returns (ok: bool)
      requires targets == Guarded(all)
      modifies qos
      ensures qos.Did(old(qos.links), old(qos.clock), QS.Script(qos.config, resolver, targets), ok)
      ensures ShapingStep(old(qos.links), old(qos.clock), all, resolver, ok)
    {
      ghost var links0, clock0 := qos.links, qos.clock;
      ok := qos.Sync(resolver, targets);
      if ok {
        CompleteCycleSafeIff(links0, qos.config, resolver, guard.staticIps, guard.detectedIp, all, clock0, qos.faults);
        if ClearsHold(qos.config, clock0, qos.faults) {
          GuardedShapingSafe(links0, qos.config, resolver, guard.staticIps, guard.detectedIp, all, clock0, qos.faults);
        }
      }
    }

    /** The firewall stage. */
    method SyncFirewall(ghost all: seq<Target>, targets: seq<Target>, tools4: Tools, tools6: Tools)
      returns (ok: bool, ghost ok6: bool)
      requires Valid() && targets == Guarded(all)
      modifies this`lost, this`lost6, firewall`lastSyncSignatures, firewall.v4, firewall.v6
      ensures Valid()
      ensures FirewallStage(OrdersFor(all), Pass(Guarded(all), false, tools4), Pass(Guarded(all), true, tools6),
                            firewall.config.enableIpv6, firewall.v4.faults, firewall.v6.faults, old(Now()), Now(),
                            ok, ok6)
    {
      ghost var before := Now();
      Carried(all, targets);
      ok, ok6 := RunFirewall(targets, tools4, tools6);
      StageFollows(OrdersFor(all), Pass(targets, false, tools4), Pass(targets, true, tools6), firewall.config.enableIpv6,
                   firewall.v4.faults, firewall.v6.faults, before, Now(), ok, ok6);
    }

    lemma Carried(all: seq<Target>, targets: seq<Target>)
      requires targets == Guarded(all)
      ensures Carries(FirewallInputs(targets, false), OrdersFor(all), false)
      ensures Carries(FirewallInputs(targets, true), OrdersFor(all), true)
    {
    }

    /** The call itself, with the bookkeeping of lost rollbacks. */
    method RunFirewall(targets: seq<Target>, tools4: Tools, tools6: Tools) returns (ok: bool, ghost ok6: bool)
      requires firewall.Valid()
      modifies this`lost, this`lost6, firewall`lastSyncSignatures, firewall.v4, firewall.v6
      ensures BothStepped(Pass(targets, false, tools4), Pass(targets, true, tools6), firewall.config.enableIpv6,
                          firewall.config.dohReputationIps, firewall.v4.faults, firewall.v6.faults, old(Now()), Now(), ok, ok6)
    {
      ghost var before, rep := Now(), firewall.config.dohReputationIps;
      ok, ok6 := firewall.Sync(Request(targets), tools4, tools6);
      lost := Runs.LostBy(lost, before.v4, Pass(targets, false, tools4), rep, firewall.v4.faults);
      if ok && firewall.config.enableIpv6 {
        lost6 := Runs.LostBy(lost6, before.v6, Pass(targets, true, tools6), rep, firewall.v6.faults);
      }
    }
  }

  /** What one pass keeps and brings about, from any ruleset. */
  lemma PassStep(s: Runs.Family, c: Runs.Cycle, o: Orders, faults: set<nat>, lost: bool)
    requires Carries(c.input, o, c.input.enableIpv6) && NF.HasBuiltins(s.rules)
    requires !lost ==> Runs.Faithful(s, o.reputation)
    ensures var r := Runs.SyncFamily(s, c, o.reputation, faults);
            && NF.HasBuiltins(r.state.rules)
            && (!Runs.LostBy(lost, s, c, o.reputation, faults) ==> Runs.Faithful(r.state, o.reputation))
            && (r.ok ==> r.state.remembered == Some(SummaryOf(c.input)))
            && o.Passed(s.rules, r.state.rules, c.input.enableIpv6,
                        r.ok && !Runs.LostBy(lost, s, c, o.reputation, faults))
  {
    Runs.ForeignRulesSurvive(s, [c], o.reputation, faults);
    OneCycle(s, c, o.reputation, faults);
    Runs.SyncFaithful(s, c, o.reputation, faults, lost);
    if o.Tidy(s.rules, c.input.enableIpv6) {
      PassDone(s, c, o, faults, lost);
    }
  }

  /** A faithful IPv4 ruleset that remembers the inputs of the last pass names no address of the gateway. */
  lemma PassSafe(s: Runs.Family, input: Inputs, o: Orders)
    requires Carries(input, o, false)
    requires Runs.Faithful(s, o.reputation) && s.remembered == Some(SummaryOf(input))
    ensures ChainSafe(s.rules, o.staticIps, o.detectedIp)
  {
    var live: Inputs :| SummaryOf(live) == SummaryOf(input) && IM.Deployed(s.rules, live, o.reputation);
    SkippedChainSafe(s.rules, live, input, o.reputation, o.staticIps, o.detectedIp, o.all);
  }

  /** What the steps of both families come to. */
  lemma StageFollows(o: Orders, c4: Runs.Cycle, c6: Runs.Cycle, ipv6: bool, faults4: set<nat>, faults6: set<nat>,
                     before: Firewall, after: Firewall, ok: bool, ok6: bool)
    requires Carries(c4.input, o, false) && Carries(c6.input, o, true) && Trusted(before, o.reputation)
    requires BothStepped(c4, c6, ipv6, o.reputation, faults4, faults6, before, after, ok, ok6)
    ensures Trusted(after, o.reputation)
    ensures FirewallStage(o, c4, c6, ipv6, faults4, faults6, before, after, ok, ok6)
  {
    PassStep(before.v4, c4, o, faults4, before.lost4);
    PassStep(before.v6, c6, o, faults6, before.lost6);
    if ok && !after.lost4 {
      PassSafe(after.v4, c4.input, o);
    }
    if !(ok && ipv6) {
      assert after.v6 == before.v6;
    }
  }

  lemma OneCycle(s: Runs.Family, c: Runs.Cycle, reputation: seq<nat>, faults: set<nat>)
    ensures Runs.After(s, [c], reputation, faults) == Runs.SyncFamily(s, c, reputation, faults).state
  {
    assert [c][..0] == [];
    assert Runs.After(s, [], reputation, faults) == s;
  }
}
