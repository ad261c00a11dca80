/** connection-killer.js with the bounded retry of retry.js: flows are cut once, when a device becomes blocked. */
module ConnectionKiller {
  import opened Options
  import opened Policy
  import opened ManagementGuard
  import M = Metrics

  /** What is remembered of a target from one cycle to the next. */
  datatype Seen = Seen(action: Action, ipAddress: Option<nat>, ipv6Address: Option<nat>, macAddress: Option<string>)

  type Memory = map<string, Seen>

  function SeenOf(t: Target): Seen {
    Seen(t.action, t.ipAddress, t.ipv6Address, t.macAddress)
  }

  predicate ShouldRun(m: Memory, t: Target) {
    && t.action.Block?
    && (t.ipAddress.Some? || t.ipv6Address.Some?)
    && (t.deviceId !in m
        || !m[t.deviceId].action.Block?
        || m[t.deviceId].ipAddress != t.ipAddress
        || m[t.deviceId].ipv6Address != t.ipv6Address
        || m[t.deviceId].macAddress != t.macAddress)
  }

  function Candidates(m: Memory, ts: seq<Target>): seq<Target> {
    if ts == [] then []
    else if ShouldRun(m, ts[0]) then [ts[0]] + Candidates(m, ts[1..])
    else Candidates(m, ts[1..])
  }

  /** The states of a target list; the last entry of a device counts. */
  function MemoryOf(ts: seq<Target>): Memory {
    if ts == [] then map[] else MemoryOf(ts[..|ts| - 1])[ts[|ts| - 1].deviceId := SeenOf(ts[|ts| - 1])]
  }

  // ---------------------------------------------------------------- external calls

  /** A run of calls: whether it was fulfilled, the number of the next call, and how many retries it announced. */
  datatype Tried = Tried(ok: bool, clock: nat, retries: nat)

  /** Up to `attempts` calls, stopping at the first that does not fail. */
  function Retry(attempts: nat, clock: nat, faults: set<nat>): Tried {
    if attempts == 0 then Tried(false, clock, 0)
    else if clock !in faults then Tried(true, clock + 1, 0)
    else
      var rest := Retry(attempts - 1, clock + 1, faults);
      rest.(retries := rest.retries + if attempts > 1 then 1 else 0)
  }

  /** Retrying is fulfilled exactly when one of the allowed attempts is, and makes no call after that one. */
  lemma {:induction false} RetryMeans(attempts: nat, clock: nat, faults: set<nat>)
    ensures var r := Retry(attempts, clock, faults);
            && clock <= r.clock <= clock + attempts
            && (r.ok <==> exists i :: clock <= i < clock + attempts && i !in faults)
            && (forall i :: clock <= i < r.clock - (if r.ok then 1 else 0) ==> i in faults)
            && (r.ok ==> r.clock > clock && r.clock - 1 !in faults && r.retries == r.clock - 1 - clock)
            && (!r.ok ==> r.clock == clock + attempts && r.retries == if attempts == 0 then 0 else attempts - 1)
  {
    if attempts > 0 && clock in faults {
      RetryMeans(attempts - 1, clock + 1, faults);
    }
  }

  /** One address: the conntrack flush with retries, then the reset injection. */
  function KillAddress(clock: nat, faults: set<nat>): Tried {
    var flush := Retry(3, clock, faults);
    if flush.ok then Tried(flush.clock !in faults, flush.clock + 1, flush.retries) else flush
  }

  /** From call `k` on, an address is killed if the first of at most three flushes that works is followed by a reset that
      works. */
  predicate Killable(k: nat, faults: set<nat>) {
    || (k !in faults && k + 1 !in faults)
    || (k in faults && k + 1 !in faults && k + 2 !in faults)
    || (k in faults && k + 1 in faults && k + 2 !in faults && k + 3 !in faults)
  }

  /** Three flushes at most, and one reset if one of them works. */
  lemma KillAddressMeans(clock: nat, faults: set<nat>)
    ensures var r := KillAddress(clock, faults);
            && (r.ok <==> Killable(clock, faults))
            && r.clock == clock + (if clock !in faults then 2 else if clock + 1 !in faults then 3
                                   else if clock + 2 !in faults then 4 else 3)
            && r.retries == if clock !in faults then 0 else if clock + 1 !in faults then 1 else 2
  {
    RetryThrice(clock, faults);
  }

  lemma RetryThrice(clock: nat, faults: set<nat>)
    ensures Retry(3, clock, faults)
            == if clock !in faults then Tried(true, clock + 1, 0)
               else if clock + 1 !in faults then Tried(true, clock + 2, 1)
               else if clock + 2 !in faults then Tried(true, clock + 3, 2)
               else Tried(false, clock + 3, 2)
  {
    assert Retry(0, clock + 3, faults) == Tried(false, clock + 3, 0);
    assert Retry(1, clock + 2, faults) == if clock + 2 !in faults then Tried(true, clock + 3, 0) else Tried(false, clock + 3, 0);
    assert Retry(2, clock + 1, faults) == if clock + 1 !in faults then Tried(true, clock + 2, 0)
                                          else Retry(1, clock + 2, faults).(retries := Retry(1, clock + 2, faults).retries + 1);
  }

  // ---------------------------------------------------------------- one cycle

  datatype Address = Address(ipv6: bool, n: nat)

  function Addresses(t: Target): seq<Address> {
    (if t.ipAddress.Some? then [Address(false, t.ipAddress.value)] else [])
    + (if t.ipv6Address.Some? then [Address(true, t.ipv6Address.value)] else [])
  }

  datatype Kill = Kill(deviceId: string, address: Address)

  /** The counters of one cycle and the kills it set off. */
  datatype Tally = Tally(clock: nat, attempts: nat, killed: nat, failed: nat, retries: nat, kills: seq<Kill>)

  function KillAll(t: Target, addrs: seq<Address>, clock: nat, faults: set<nat>): (bool, bool, nat, nat) {
    if addrs == [] then (false, false, clock, 0)
    else
      var first := KillAddress(clock, faults);
      var (s, f, c, r) := KillAll(t, addrs[1..], first.clock, faults);
      (first.ok || s, !first.ok || f, c, first.retries + r)
  }

  function KillsOf(t: Target): seq<Kill> {
    var addrs := Addresses(t);
    seq(|addrs|, i requires 0 <= i < |addrs| => Kill(t.deviceId, addrs[i]))
  }

  function KillOne(tally: Tally, t: Target, faults: set<nat>): Tally {
    var (anySucceeded, anyFailed, clock, retries) := KillAll(t, Addresses(t), tally.clock, faults);
    Tally(clock, tally.attempts + 1,
          tally.killed + (if anySucceeded then 1 else 0), tally.failed + (if anyFailed then 1 else 0),
          tally.retries + retries, tally.kills + KillsOf(t))
  }

  lemma KillAllOne(t: Target, a: Address, clock: nat, faults: set<nat>)
    ensures var first, (s, f, c, n) := KillAddress(clock, faults), KillAll(t, [a], clock, faults);
            s == first.ok && f == !first.ok && c == first.clock && n == first.retries
  {
    assert [a][1..] == [];
  }

  /** A target with one address counts as killed if that was killed and as failed if not; one with two counts as killed
      if one of them was and as failed if one was not, so it can count as both. */
  lemma KillOneMeans(tally: Tally, t: Target, faults: set<nat>)
    ensures var n := KillOne(tally, t, faults);
            var k := tally.clock;
            var k2 := KillAddress(k, faults).clock;
            var both := t.ipAddress.Some? && t.ipv6Address.Some?;
            && n.attempts == tally.attempts + 1
            && (!both && (t.ipAddress.Some? || t.ipv6Address.Some?) ==>
                  && n.killed == tally.killed + (if Killable(k, faults) then 1 else 0)
                  && n.failed == tally.failed + (if Killable(k, faults) then 0 else 1))
            && (both ==>
                  && n.killed == tally.killed + (if Killable(k, faults) || Killable(k2, faults) then 1 else 0)
                  && n.failed == tally.failed + (if Killable(k, faults) && Killable(k2, faults) then 0 else 1))
            && n.kills == tally.kills
                          + (if t.ipAddress.Some? then [Kill(t.deviceId, Address(false, t.ipAddress.value))] else [])
                          + (if t.ipv6Address.Some? then [Kill(t.deviceId, Address(true, t.ipv6Address.value))] else [])
  {
    var addrs, k2 := Addresses(t), KillAddress(tally.clock, faults).clock;
    KillAddressMeans(tally.clock, faults);
    KillAddressMeans(k2, faults);
    if |addrs| == 2 {
      assert addrs[1..] == [addrs[1]];
      KillAllOne(t, addrs[1], k2, faults);
    } else if |addrs| == 1 {
      assert addrs == [addrs[0]];
      KillAllOne(t, addrs[0], tally.clock, faults);
    }
    var v4 := if t.ipAddress.Some? then [Kill(t.deviceId, Address(false, t.ipAddress.value))] else [];
    var v6 := if t.ipv6Address.Some? then [Kill(t.deviceId, Address(true, t.ipv6Address.value))] else [];
    assert KillsOf(t) == v4 + v6;
    assert tally.kills + (v4 + v6) == (tally.kills + v4) + v6;
  }

  function KillEach(tally: Tally, ts: seq<Target>, faults: set<nat>): Tally
    decreases |ts|
  {
    if ts == [] then tally else KillEach(KillOne(tally, ts[0], faults), ts[1..], faults)
  }

  /** What the guard lets through of the devices that just became blocked. */
  function ToKill(m: Memory, staticIps: set<nat>, detectedIp: Option<nat>, ts: seq<Target>): seq<Target> {
    Safe(staticIps, detectedIp, Candidates(m, ts))
  }

  // ---------------------------------------------------------------- what a cycle means

  lemma {:induction false} CandidateMembers(m: Memory, ts: seq<Target>, t: Target)
    ensures t in Candidates(m, ts) <==> t in ts && ShouldRun(m, t)
  {
    if ts != [] {
      CandidateMembers(m, ts[1..], t);
      assert t in ts <==> t == ts[0] || t in ts[1..];
    }
  }

  predicate DistinctDevices(ts: seq<Target>) {
    forall i, j :: 0 <= i < j < |ts| ==> ts[i].deviceId != ts[j].deviceId
  }

  lemma {:induction false} MemoryMeans(ts: seq<Target>, id: string)
    requires DistinctDevices(ts)
    ensures id in MemoryOf(ts) <==> exists t :: t in ts && t.deviceId == id
    ensures forall t :: t in ts && t.deviceId == id ==> MemoryOf(ts)[id] == SeenOf(t)
  {
    if ts != [] {
      var init, last := ts[..|ts| - 1], ts[|ts| - 1];
      MemoryMeans(init, id);
      assert forall t :: t in ts <==> t in init || t == last;
      assert forall t :: t in init ==> t.deviceId != last.deviceId;
    }
  }

  /** A device was already blocked at the same addresses. */
  predicate BlockedAsNow(before: Target, now: Target) {
    && before.deviceId == now.deviceId && before.action.Block?
    && before.ipAddress == now.ipAddress && before.ipv6Address == now.ipv6Address && before.macAddress == now.macAddress
  }

  /** A target is killed in a cycle exactly when it is unprotected, blocked and addressed, and was not already blocked
      at the same addresses in the cycle before. */
  lemma KilledIff(before: seq<Target>, ts: seq<Target>, staticIps: set<nat>, detectedIp: Option<nat>, t: Target)
    requires DistinctDevices(before) && t in ts
    ensures t in ToKill(MemoryOf(before), staticIps, detectedIp, ts)
            <==> && !IsProtected(staticIps, detectedIp, t.ipAddress)
                 && t.action.Block? && (t.ipAddress.Some? || t.ipv6Address.Some?)
                 && !exists u :: u in before && BlockedAsNow(u, t)
  {
    var m := MemoryOf(before);
    SafeMembers(staticIps, detectedIp, Candidates(m, ts), t);
    CandidateMembers(m, ts, t);
    MemoryMeans(before, t.deviceId);
  }

  // ---------------------------------------------------------------- whole runs

  /** What is remembered after a run of cycles: the targets of the last one, nothing of those before. */
  function Remembered(cycles: seq<seq<Target>>): Memory {
    if cycles == [] then map[] else MemoryOf(cycles[|cycles| - 1])
  }

  /** Cycle `i` of a run kills a target exactly on its transition: it is unprotected, blocked and addressed, and this is
      the first cycle or the one before did not have it blocked at the same addresses. */
  lemma KilledOnTransition(cycles: seq<seq<Target>>, i: nat, staticIps: set<nat>, detectedIp: Option<nat>, t: Target)
    requires i < |cycles| && t in cycles[i] && forall c :: c in cycles ==> DistinctDevices(c)
    ensures t in ToKill(Remembered(cycles[..i]), staticIps, detectedIp, cycles[i])
            <==> && !IsProtected(staticIps, detectedIp, t.ipAddress)
                 && t.action.Block? && (t.ipAddress.Some? || t.ipv6Address.Some?)
                 && (i == 0 || !exists u :: u in cycles[i - 1] && BlockedAsNow(u, t))
  {
    if i == 0 {
      KilledIff([], cycles[0], staticIps, detectedIp, t);
    } else {
      assert cycles[..i][i - 1] == cycles[i - 1] && cycles[i - 1] in cycles;
      KilledIff(cycles[i - 1], cycles[i], staticIps, detectedIp, t);
    }
  }

  /** The device is blocked at the addresses of `t` in every cycle from `i` to `j`. */
  predicate StaysBlocked(cycles: seq<seq<Target>>, i: nat, j: nat, t: Target)
    requires i <= j < |cycles|
  {
    forall k :: i <= k <= j ==> exists u :: u in cycles[k] && BlockedAsNow(u, t)
  }

  /** A device that stays blocked at the same addresses is killed in the first of those cycles at most: never again
      while it stays so, whatever else happens to the other devices. */
  lemma KilledOnceWhileBlocked(cycles: seq<seq<Target>>, i: nat, j: nat, k: nat, staticIps: set<nat>,
                               detectedIp: Option<nat>, t: Target)
    requires i < k <= j < |cycles| && StaysBlocked(cycles, i, j, t) && forall c :: c in cycles ==> DistinctDevices(c)
    ensures forall u :: u in ToKill(Remembered(cycles[..k]), staticIps, detectedIp, cycles[k]) ==> u.deviceId != t.deviceId
  {
    forall u | u in ToKill(Remembered(cycles[..k]), staticIps, detectedIp, cycles[k])
      ensures u.deviceId != t.deviceId
    {
      var m := Remembered(cycles[..k]);
      SafeMembers(staticIps, detectedIp, Candidates(m, cycles[k]), u);
      CandidateMembers(m, cycles[k], u);
      KilledOnTransition(cycles, k, staticIps, detectedIp, u);
      var before :| before in cycles[k - 1] && BlockedAsNow(before, t);
      var now :| now in cycles[k] && BlockedAsNow(now, t);
      assert cycles[k] in cycles && DistinctDevices(cycles[k]);
      assert u.deviceId == t.deviceId ==> u == now;
      assert u == now ==> BlockedAsNow(before, u);
    }
  }

  lemma {:induction false} CandidateLength(m: Memory, ts: seq<Target>)
    ensures |Candidates(m, ts)| <= |ts|
  {
    if ts != [] {
      CandidateLength(m, ts[1..]);
    }
  }

  predicate Addressed(ts: seq<Target>) {
    forall t :: t in ts ==> Addresses(t) != []
  }

  lemma ToKillAddressed(m: Memory, staticIps: set<nat>, detectedIp: Option<nat>, ts: seq<Target>)
    ensures Addressed(ToKill(m, staticIps, detectedIp, ts))
  {
    forall t | t in ToKill(m, staticIps, detectedIp, ts) ensures Addresses(t) != [] {
      SafeMembers(staticIps, detectedIp, Candidates(m, ts), t);
      CandidateMembers(m, ts, t);
    }
  }

  lemma {:induction false} KillAllDecides(t: Target, addrs: seq<Address>, clock: nat, faults: set<nat>)
    ensures addrs != [] ==> KillAll(t, addrs, clock, faults).0 || KillAll(t, addrs, clock, faults).1
  {
    if addrs != [] {
      var first := KillAddress(clock, faults);
      KillAllDecides(t, addrs[1..], first.clock, faults);
    }
  }

  function AllKills(ts: seq<Target>): seq<Kill> {
    if ts == [] then [] else KillsOf(ts[0]) + AllKills(ts[1..])
  }

  /** The counters of a cycle account for every target once, whatever fails. */
  lemma {:induction false} KillEachCounts(tally: Tally, ts: seq<Target>, faults: set<nat>)
    requires Addressed(ts)
    ensures var r := KillEach(tally, ts, faults);
            && r.attempts == tally.attempts + |ts|
            && r.kills == tally.kills + AllKills(ts)
            && |ts| <= (r.killed - tally.killed) + (r.failed - tally.failed) <= 2 * |ts|
            && r.killed >= tally.killed && r.failed >= tally.failed
    decreases |ts|
  {
    if ts != [] {
      assert ts[0] in ts && forall t :: t in ts[1..] ==> t in ts;
      KillAllDecides(ts[0], Addresses(ts[0]), tally.clock, faults);
      var next := KillOne(tally, ts[0], faults);
      KillEachCounts(next, ts[1..], faults);
      assert tally.kills + KillsOf(ts[0]) + AllKills(ts[1..]) == tally.kills + (KillsOf(ts[0]) + AllKills(ts[1..]));
    }
  }

  /** From a fresh tally: so many attempts as targets, and one or two outcomes each. */
  lemma FreshCounts(clock: nat, ts: seq<Target>, faults: set<nat>)
    requires Addressed(ts)
    ensures var r := KillEach(Tally(clock, 0, 0, 0, 0, []), ts, faults);
            r.attempts == |ts| && r.kills == AllKills(ts) && r.attempts <= r.killed + r.failed <= 2 * r.attempts
  {
    KillEachCounts(Tally(clock, 0, 0, 0, 0, []), ts, faults);
    assert [] + AllKills(ts) == AllKills(ts);
  }

  lemma {:induction false} AllKillsMembers(ts: seq<Target>, k: Kill)
    ensures k in AllKills(ts) <==> exists t :: t in ts && k.deviceId == t.deviceId && k.address in Addresses(t)
  {
    if ts != [] {
      AllKillsMembers(ts[1..], k);
      var addrs := Addresses(ts[0]);
      assert k in KillsOf(ts[0]) <==> k.deviceId == ts[0].deviceId && k.address in addrs by {
        if k.deviceId == ts[0].deviceId && k.address in addrs {
          var i :| 0 <= i < |addrs| && addrs[i] == k.address;
          assert KillsOf(ts[0])[i] == k;
        }
      }
      assert forall t :: t in ts <==> t == ts[0] || t in ts[1..];
    }
  }

  /** No kill of a cycle is aimed at a protected IPv4 address. */
  lemma KillsUnprotected(m: Memory, staticIps: set<nat>, detectedIp: Option<nat>, ts: seq<Target>, k: Kill)
    requires k in AllKills(ToKill(m, staticIps, detectedIp, ts)) && !k.address.ipv6
    ensures !IsProtected(staticIps, detectedIp, Some(k.address.n))
  {
    AllKillsMembers(ToKill(m, staticIps, detectedIp, ts), k);
    var t :| t in ToKill(m, staticIps, detectedIp, ts) && k.deviceId == t.deviceId && k.address in Addresses(t);
    SafeMembers(staticIps, detectedIp, Candidates(m, ts), t);
  }

  // ---------------------------------------------------------------- the class

  class Killer {
    const guard: Guard
    const metrics: M.Metrics
    const faults: set<nat>
    var clock: nat
    var previousStates: Memory
    /** Every kill set off so far. */
    var kills: seq<Kill>

    constructor (guard: Guard, metrics: M.Metrics, faults: set<nat>)
      ensures this.guard == guard && this.metrics == metrics && this.faults == faults
      ensures clock == 0 && previousStates == map[] && kills == []
    {
      this.guard, this.metrics, this.faults := guard, metrics, faults;
      clock, previousStates, kills := 0, map[], [];
    }

    /** One external call. */
    method Call() returns (ok: bool)
      modifies this`clock
      ensures clock == old(clock) + 1 && ok == (old(clock) !in faults)
    {
      ok := clock !in faults;
      clock := clock + 1;
    }

    /** The retry loop of retry.js around one call. */
    method RetryCall(attempts: nat) returns (ok: bool, retries: nat)
      modifies this`clock
      ensures Tried(ok, clock, retries) == Retry(attempts, old(clock), faults)
    {
      ok, retries := false, 0;
      for attempt := 1 to attempts + 1
        invariant !ok
        invariant var rest := Retry(attempts + 1 - attempt, clock, faults);
                  Retry(attempts, old(clock), faults) == rest.(retries := rest.retries + retries)
      {
        ok := Call();
        if ok { return; }
        if attempt < attempts {
          retries := retries + 1;
        }
      }
    }

    method KillAddressOf(t: Target, address: Address) returns (ok: bool, retries: nat)
      modifies this`clock, this`kills
      ensures Tried(ok, clock, retries) == KillAddress(old(clock), faults)
      ensures kills == old(kills) + [Kill(t.deviceId, address)]
    {
      kills := kills + [Kill(t.deviceId, address)];
      ok, retries := RetryCall(3);
      if ok {
        ok := Call();
      }
    }

    /** Both addresses independently; a failure of one does not keep the other from being killed. */
    method KillOneTarget(t: Target) returns (anySucceeded: bool, anyFailed: bool, retries: nat)
      modifies this`clock, this`kills
      ensures KillAll(t, Addresses(t), old(clock), faults) == (anySucceeded, anyFailed, clock, retries)
      ensures kills == old(kills) + KillsOf(t)
    {
      var addrs := Addresses(t);
      anySucceeded, anyFailed, retries := false, false, 0;
      assert addrs[0..] == addrs;
      for i := 0 to |addrs|
        invariant var (s, f, c, r) := KillAll(t, addrs[i..], clock, faults);
                  KillAll(t, addrs, old(clock), faults) == (anySucceeded || s, anyFailed || f, c, retries + r)
        invariant kills == old(kills) + KillsOf(t)[..i]
      {
        assert addrs[i..][1..] == addrs[i + 1..];
        var ok, again := KillAddressOf(t, addrs[i]);
        anySucceeded, anyFailed, retries := anySucceeded || ok, anyFailed || !ok, retries + again;
        assert KillsOf(t)[..i + 1] == KillsOf(t)[..i] + [Kill(t.deviceId, addrs[i])];
      }
      assert KillsOf(t)[..|addrs|] == KillsOf(t);
    }

    method RememberStates(ts: seq<Target>)
      modifies this`previousStates
      ensures previousStates == MemoryOf(ts)
    {
      var seen: set<string> := {};
      for i := 0 to |ts|
        invariant seen == MemoryOf(ts[..i]).Keys
        invariant previousStates == old(previousStates) + MemoryOf(ts[..i])
      {
        assert ts[..i + 1][..i] == ts[..i];
        seen := seen + {ts[i].deviceId};
        previousStates := previousStates[ts[i].deviceId := SeenOf(ts[i])];
      }
      assert ts[..|ts|] == ts;
      previousStates := map id | id in previousStates && id in seen :: previousStates[id];
    }

    method SelectCandidates(ts: seq<Target>) returns (chosen: seq<Target>)
      ensures chosen == Candidates(previousStates, ts)
    {
      chosen := [];
      assert ts[0..] == ts;
      for i := 0 to |ts|
        invariant Candidates(previousStates, ts) == chosen + Candidates(previousStates, ts[i..])
      {
        assert ts[i..][1..] == ts[i + 1..];
        if ShouldRun(previousStates, ts[i]) {
          chosen := chosen + [ts[i]];
        }
      }
    }

    /** The candidates the guard lets through; the others are counted. */
    method SelectSafe(ts: seq<Target>) returns (safe: seq<Target>, candidates: nat, protectedSkipped: nat)
      requires metrics.Valid()
      modifies metrics
      ensures metrics.Valid()
      ensures safe == ToKill(previousStates, guard.staticIps, guard.detectedIp, ts)
      ensures candidates == |Candidates(previousStates, ts)| && |safe| + protectedSkipped == candidates
      ensures SkipsCounted(old(metrics.totals), metrics.totals, protectedSkipped)
    {
      var chosen := SelectCandidates(ts);
      candidates := |chosen|;
      safe := guard.FilterTargets(chosen);
      SafeLength(guard.staticIps, guard.detectedIp, chosen);
      protectedSkipped := candidates - |safe|;
      if |safe| < candidates {
        metrics.Inc(M.ProtectedSkipped, protectedSkipped);
      }
    }

    /** The counters of one target. */
    method CountTarget(anySucceeded: bool, anyFailed: bool, retries: nat)
      requires metrics.Valid()
      modifies metrics
      ensures metrics.Valid()
      ensures Counted(old(metrics.totals), metrics.totals,
                      Tally(0, 1, if anySucceeded then 1 else 0, if anyFailed then 1 else 0, retries, []))
    {
      metrics.Inc(M.Attempts);
      metrics.Inc(M.Retries, retries);
      if anySucceeded { metrics.Inc(M.Killed); }
      if anyFailed { metrics.Inc(M.Failed); }
    }

    /** Kills one target and counts what came of it. */
    method KillTarget(t: Target, tally: Tally) returns (next: Tally)
      requires metrics.Valid() && tally.clock == clock
      modifies this`clock, this`kills, metrics
      ensures metrics.Valid() && next == KillOne(tally, t, faults)
      ensures clock == next.clock && kills == old(kills) + KillsOf(t)
      ensures forall totals :: Counted(totals, old(metrics.totals), tally) ==> Counted(totals, metrics.totals, next)
    {
      var s, f, r := KillOneTarget(t);
      CountTarget(s, f, r);
      next := Tally(clock, tally.attempts + 1, tally.killed + (if s then 1 else 0), tally.failed + (if f then 1 else 0),
                    tally.retries + r, tally.kills + KillsOf(t));
    }

    /** Kills every target of a list and counts what came of it. */
    method KillTargets(safe: seq<Target>) returns (tally: Tally)
      requires metrics.Valid()
      modifies this`clock, this`kills, metrics
      ensures metrics.Valid()
      ensures tally == KillEach(Tally(old(clock), 0, 0, 0, 0, []), safe, faults)
      ensures clock == tally.clock && kills == old(kills) + tally.kills
      ensures Counted(old(metrics.totals), metrics.totals, tally)
    {
      tally := Tally(clock, 0, 0, 0, 0, []);
      assert safe[0..] == safe;
      for i := 0 to |safe|
        invariant metrics.Valid() && tally.clock == clock
        invariant KillEach(Tally(old(clock), 0, 0, 0, 0, []), safe, faults) == KillEach(tally, safe[i..], faults)
        invariant kills == old(kills) + tally.kills
        invariant Counted(old(metrics.totals), metrics.totals, tally)
      {
        assert safe[i..][1..] == safe[i + 1..];
        tally := KillTarget(safe[i], tally);
      }
    }

    /** One cycle: the devices that just became blocked are killed, the counters account for them, and all targets
        are remembered. */
    method Sync(ts: seq<Target>) returns (tally: Tally, candidates: nat, protectedSkipped: nat)
      requires metrics.Valid()
      modifies this, metrics
      ensures metrics.Valid() && previousStates == MemoryOf(ts)
      ensures candidates == |Candidates(old(previousStates), ts)|
      ensures var safe := ToKill(old(previousStates), guard.staticIps, guard.detectedIp, ts);
              && tally == KillEach(Tally(old(clock), 0, 0, 0, 0, []), safe, faults)
              && kills == old(kills) + AllKills(safe)
      ensures tally.attempts + protectedSkipped == candidates
      ensures tally.attempts <= tally.killed + tally.failed <= 2 * tally.attempts
      ensures Counted(old(metrics.totals), metrics.totals[M.ProtectedSkipped := M.Count(old(metrics.totals), M.ProtectedSkipped)], tally)
      ensures M.Count(metrics.totals, M.ProtectedSkipped) == M.Count(old(metrics.totals), M.ProtectedSkipped) + protectedSkipped
    {
      var safe;
      ghost var totals0 := metrics.totals;
      safe, candidates, protectedSkipped := SelectSafe(ts);
      ghost var totals1 := metrics.totals;
      ToKillAddressed(previousStates, guard.staticIps, guard.detectedIp, ts);
      FreshCounts(clock, safe, faults);
      tally := KillTargets(safe);
      CountsAdd(totals0, totals1, metrics.totals, protectedSkipped, tally);
      RememberStates(ts);
    }
  }

  /** The protected targets were counted, if there were any. */
  predicate SkipsCounted(before: M.Counters, after: M.Counters, skipped: nat) {
    after == if skipped == 0 then before else before[M.ProtectedSkipped := M.Count(before, M.ProtectedSkipped) + skipped]
  }

  /** First the protected targets are counted, then what came of the others. */
  lemma CountsAdd(before: M.Counters, middle: M.Counters, after: M.Counters, skipped: nat, tally: Tally)
    requires SkipsCounted(before, middle, skipped) && Counted(middle, after, tally)
    ensures Counted(before, after[M.ProtectedSkipped := M.Count(before, M.ProtectedSkipped)], tally)
    ensures M.Count(after, M.ProtectedSkipped) == M.Count(before, M.ProtectedSkipped) + skipped
  {
  }

  /** The cumulative counters grew by a cycle's tally; the count of protected targets is not theirs. */
  predicate Counted(before: M.Counters, after: M.Counters, tally: Tally) {
    && M.Count(after, M.Attempts) == M.Count(before, M.Attempts) + tally.attempts
    && M.Count(after, M.Killed) == M.Count(before, M.Killed) + tally.killed
    && M.Count(after, M.Failed) == M.Count(before, M.Failed) + tally.failed
    && M.Count(after, M.Retries) == M.Count(before, M.Retries) + tally.retries
    && M.Count(after, M.ProtectedSkipped) == M.Count(before, M.ProtectedSkipped)
  }
}
