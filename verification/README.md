# GuardTime gateway agent and ISP adapter: a verified model

The GuardTime gateway agent is a reconciliation engine on a home router. Every poll cycle it takes the policy the
backend named for each device and turns it into kernel state: netfilter rules (through `iptables`/`ip6tables` or
through `nft`), a `tc` tree of rate limits, and cut connections. Rebuilds are skipped while a signature of the policy
is unchanged and undone from a snapshot when a command fails. Beside that it fingerprints TLS handshakes, looks for VPN
and encrypted-DNS use, rotates its token into a `.env` file and executes commands on the vendor's router. The ISP
adapter is the provider-side twin, a multi-tenant store of sessions, leases and policies.

This project models those parts in Dafny and proves what they promise.

* **State machines and classes.** A controller whose methods change the kernel step by step is a class whose methods are
  proved equal to a state machine (`IptablesRuns.SyncFamily`, `NftRuns.Sync`, `QosScript.Script`,
  `RouterExecutor.HandleAll`, `IspStore.Step`, ...). The theorems over whole runs are about those state machines.
* **Failures.** Every external call has a number. A run is given the set of numbers whose calls fail, and the theorems
  quantify over that set, so they hold for every pattern of failures. A failed command changes nothing.
* **Meaning.** Rules have a packet semantics: chains are walked with jumps, the first terminal verdict decides, DNAT
  rewrites. `Policy.Drops` says what a policy means for a packet without mentioning rules, and both rule compilers are
  proved to implement it. The `tc` filters are compared in the same way with `QosClassify.WantedClass`.
* **Numbers.** Addresses are the numbers their text denotes. Where JavaScript's 32-bit operators matter (the CIDR mask and
  the FNV-1a hash) they are written out in `Bits`. Statistics are over the reals.

## Modules

`Options`, `Patterns`, `Bits`, `Text`: shared vocabulary and tables. `Policy`, `Signature`, `SignatureSound`: targets,
what they mean, the signature. `Netfilter`, `IptablesRules`, `IptablesMeaning`, `IptablesRuns`, `IptablesController`:
the iptables backend. `NftRules`, `NftMeaning`, `NftRuns`, `NftSound`, `NftController`: the nftables backend.
`BackendEquivalence`: the two agree. `MarkAllocator`, `Tc`, `QosScript`, `QosMeaning`, `QosClassify`, `QosFailures`,
`QosController`: shaping. `ManagementGuard`, `IptablesSafety`, `NftSafety`, `ShapingSafety`, `Metrics`, `ConnectionKiller`,
`Agent`: the cycle and the management address. `ClientHello`, `Ja3`, `Ja3Reader`: TLS fingerprints.
`EnvFile`, `EnvRoundTrip`: the token file. `Cidr`, `VpnDetector`, `Confidence`, `DohWindow`, `DohDetector`,
`DetectionAgrees`: detection, and its agreement with enforcement. `RouterExecutor`, `RouterSafety`, `RouterMeaning`: router commands.
`IspStore`, `IspConsistency`, `IspPolicy`, `IspKeys`, `IspLeases`, `IspServices`: the ISP adapter.

## Hypotheses

* The switches of the process are read once (gateway-agent/src/main.js:127), so they are the same in every cycle of a
  run. The iptables DoH and DNS chains are never taken down, so a start at which an earlier process left one that is now
  switched off is excluded (`FlagsClean`, `RedirectsClean`); the hooks of an earlier process must be at the top of
  their root chain (`Hooked`).
* `-C` answers truthfully and is not counted as a call. `iptables-restore`
  replaces the ruleset of the family. A plain `qdisc replace` keeps an HTB tree that is already there.
* A policy field that JavaScript takes as false (an empty category, address or resolver) is an absent one.
* Device ids are totally ordered, reputation addresses are IPv4, MAC addresses are already lower-case.
* An IPv4 resolver is always configured when DNS is redirected (gateway-agent/src/config.js:183-185).
* Router plugins keep the written contract (gateway-agent/src/router-integrations/plugin-interface.js:12-24), read as:
  reported success is verified, reported failure has been restored, a call that throws may or may not have had its own
  effect. An acknowledgement that fails was not delivered.

## What the code does against its own description

* A rebuild that fails without a usable snapshot, or whose restore fails, leaves the old signature over a partial
  ruleset, and the old policy is then skipped. Skipping is sound exactly where both tools work
  (`IptablesRuns.CacheSoundIffRollbackWorks`), and so is keeping the rules off the gateway's own address
  (`IptablesSafety.SafeIffRollbackWorks`).
* The nftables rollback loads the listing back without emptying anything, so it stacks rules rather than restoring them
  (`NftRuns.RollbackStacks`, `NftRuns.RollbackLingers`). A failed IPv6 redirect keeps the signature of an older policy,
  which can then be skipped wrongly (`NftRuns.RedirectFailureThenSkip`). Skipping is sound exactly where no call of either
  script fails (`NftSound.CacheSoundIffNothingFails`, and for the gateway's own address `NftSafety.SafeIffNothingFails`),
  and the retry of a cut-short rebuild only under a constant policy.
* A `filter del` that fails is ignored, so the filters of the cycle before stay and may be for a device that is protected
  by now (`ShapingSafety.FailedClearLeavesProtected`; the exact condition is `ShapingSafety.CompleteCycleSafeIff`).
* The comment in `vpn-detector.js` says that several signals never reach 100; rounded they do (`Confidence.HundredIff`).
* A success whose acknowledgement is lost is reported as a failure (`RouterSafety.VerdictIff`).
* `token-rotation.js` announces a retry of a failed write; the next cycle returns early, so no retry is claimed here.
* TCP flows to the listed VPN ranges are dropped but not flagged (`DetectionAgrees.TcpDroppedIff`).
* The BNG commands of THROTTLE leave a blackhole route standing (`IspPolicy.RouteAsRecordedIff`). A lease that
  moved to another subscriber lingers with the first (`IspLeases.StaleIff`, `IspLeases.EnforcedWhereLeasedIff`). Two
  subscribers can share the key of a BNG state (`IspKeys.KeysInjectiveIff`).

## Model

| member | source | states |
|---|---|---|
| `Policy.ProvidersListed` | gateway-agent/src/doh-dot-patterns.js:81-86 | the list both backends block (built-in providers followed by the operator's addresses) contains an address exactly when the policy lists it |
| `Policy.DohDropsMeans` | gateway-agent/src/doh-dot-patterns.js:20-44 | what is blocked as DoT or DoH is port 853 of TCP and UDP and, in IPv4, TCP 443 of a listed resolver |
| `Signature.SortStable` | gateway-agent/src/firewall-sync-signature.js:19-49 | the sort by device id orders, keeps every entry as often as it occurs, and keeps the order of one device's entries |
| `Signature.SummaryEqualIff` | gateway-agent/src/firewall-sync-signature.js:19-49 | two policies have equal signatures if and only if their switches agree and each device carries the same enforcement fields in the same order; the order of different devices does not count |
| `SignatureSound.SameSummarySameRules` | gateway-agent/src/firewall-sync-signature.js:19-49 | equal signatures: the generated rule lists are permutations of each other, so every field rule generation reads is in the signature |
| `SignatureSound.SameSummarySameDrops` | gateway-agent/src/firewall-sync-signature.js:19-49 | equal signatures: the policies drop exactly the same packets |
| `Netfilter.RunAppends` | gateway-agent/src/iptables-controller.js:289-305 | a run of appends writes exactly the rules before the first failing call, in order, and stops with that call; it completes exactly when no call fails |
| `Netfilter.ScriptFramed` | gateway-agent/src/iptables-controller.js:157-164 | whatever calls of a script of own edits fail, foreign chains and foreign rules keep contents and order, hooks stay on top and are not doubled |
| `Netfilter.WalkDrops` | gateway-agent/src/iptables-controller.js:219-244 | walking a chain of DROP rules drops a packet if and only if some rule matches it, so order does not matter |
| `Netfilter.WalkHooked` | gateway-agent/src/iptables-controller.js:210-213 | with the hooks at the top of a root chain, a packet some hooked chain decides gets that verdict and every other packet gets that of the foreign rules alone |
| `IptablesRules.ScriptRebuilds` | gateway-agent/src/iptables-controller.js:68-92 | a rebuild that is not interrupted leaves exactly the policy's chains, hooked in once, and only a failed call can interrupt it |
| `IptablesMeaning.VpnFires` | gateway-agent/src/iptables-controller.js:108-134 | the VPN rules of a target match a packet if and only if it comes from the target's address and goes to a listed port or, in IPv4, a listed range |
| `IptablesMeaning.TargetFires` | gateway-agent/src/iptables-controller.js:73-83 | the rules of one target match exactly the packets its policy drops |
| `IptablesMeaning.DohChainFires` | gateway-agent/src/iptables-controller.js:157-180 | the DoH chain matches exactly DoT over either transport and, in IPv4, TCP 443 to a listed resolver |
| `IptablesMeaning.RebuiltDeployed` | gateway-agent/src/iptables-controller.js:68-92 | rebuilding a rebuilt ruleset for the same policy changes nothing |
| `IptablesMeaning.ForwardRefinesPolicy` | gateway-agent/src/iptables-controller.js:70-180 | walking FORWARD of a deployed ruleset drops a packet exactly when the policy does, and otherwise does what the foreign rules do |
| `IptablesMeaning.PreroutingRedirects` | gateway-agent/src/iptables-controller.js:246-277 | walking PREROUTING sends every DNS query of the family, and nothing else, to the configured resolver |
| `IptablesRuns.ForeignRulesSurvive` | gateway-agent/src/iptables-controller.js:157-164 | over any run of syncs, with any pattern of failing commands and lost rollbacks, every foreign rule survives in its order |
| `IptablesRuns.ExactlyOneHook` | gateway-agent/src/iptables-controller.js:210-213 | from the first success on, FORWARD holds exactly one jump to each filter chain in use and PREROUTING exactly one DNS jump per protocol |
| `IptablesRuns.FailedSyncUndone` | gateway-agent/src/iptables-controller.js:94-104 | a sync of one family that throws leaves the remembered signature, and with a working snapshot and restore the ruleset, exactly as before; it throws only if one of its own calls failed |
| `IptablesRuns.StepEnforces` | gateway-agent/src/iptables-controller.js:61-105 | one call from any well-hooked state keeps the hooks in order, and a normal return with no lost rollback pending enforces its policy over the foreign rules |
| `IptablesRuns.EveryReturnEnforces` | gateway-agent/src/iptables-controller.js:61-105 | after any run of policies and failures, each sync that returns normally, rebuilt or skipped, leaves every packet the current policy's verdict over the foreign rules of the start, given that every failed rebuild was undone or a completed one came after it |
| `IptablesRuns.LostRollbackFreesDevice` | gateway-agent/src/iptables-controller.js:182-208 | a three-cycle run, on a host whose snapshots or restores fail, that ends in a normal return with a blocked device free |
| `IptablesRuns.CacheSoundIffRollbackWorks` | gateway-agent/src/iptables-controller.js:61-105 | the skip is sound over all runs and all failures on a host if and only if both iptables-save and iptables-restore work there |
| `IptablesController.Kernel.Run` | gateway-agent/src/iptables-controller.js:289-305 | one command changes the kernel as the command says or, if it is made to fail, not at all |
| `IptablesController.Controller.AddBlockRules` | gateway-agent/src/iptables-controller.js:219-244 | appends exactly the block rules of a target, up to the first failing call |
| `IptablesController.Controller.AddVpnBlockRules` | gateway-agent/src/iptables-controller.js:108-134 | appends exactly the VPN rules of a target, up to the first failing call |
| `IptablesController.Controller.AddQuicBlockRule` | gateway-agent/src/iptables-controller.js:137-148 | appends exactly the QUIC rule of a target that has an address of the family |
| `IptablesController.Controller.EnsureDohDotBlock` | gateway-agent/src/iptables-controller.js:157-180 | creates, empties, hooks and refills the DoH chain |
| `IptablesController.Controller.EnsureDnsRedirect` | gateway-agent/src/iptables-controller.js:246-277 | creates, empties, hooks and refills the DNS chain; without an IPv6 resolver it does nothing |
| `IptablesController.Controller.Rebuild` | gateway-agent/src/iptables-controller.js:70-92 | the nested loops of the rebuild are one script, stopped by the first call that fails |
| `IptablesController.Controller.SyncFamily` | gateway-agent/src/iptables-controller.js:61-105 | the method is the state machine the run theorems are about, snapshot and rollback included, for each way the two tools may work or fail, and never touches the other family |
| `IptablesController.Controller.Sync` | gateway-agent/src/iptables-controller.js:42-59 | IPv4 first; an IPv6 failure is contained, touches neither the IPv4 ruleset nor its remembered signature, and is told from a return |
| `NftRules.ScriptRebuilds` | gateway-agent/src/nftables-controller.js:67-97 | an uninterrupted nftables rebuild leaves exactly the policy's chain and redirect, and only a failed call can interrupt it |
| `NftMeaning.FilterRefinesPolicy` | gateway-agent/src/nftables-controller.js:72-93 | the single nftables filter chain drops exactly what the policy drops for the families it can see |
| `NftMeaning.VisibleDrops` | gateway-agent/src/nftables-controller.js:145-174 | what the chain drops is what the policy drops for every IPv4 packet, and for IPv6 packets when the family is enabled |
| `NftMeaning.DnsWalk` | gateway-agent/src/nftables-controller.js:176-199 | the redirect chain rewrites every DNS query to the resolver and passes everything else |
| `NftRuns.SyncKeeps` | gateway-agent/src/nftables-controller.js:52-128 | a sync that is not rolled back leaves foreign chains untouched, and no sync leaves a redirect the switches do not ask for |
| `NftSound.ForeseenReturnEnforces` | gateway-agent/src/nftables-controller.js:52-128 | after any run: a sync about to be skipped with nothing cut short since the last complete rebuild, and a sync none of whose calls is going to fail, return and enforce the current policy on every packet; both can be told before the call |
| `NftSound.CacheSoundIffNothingFails` | gateway-agent/src/nftables-controller.js:52-128 | over all runs on a host where the main script, the IPv6 redirect, both or neither may fail, normal returns enforce their policy if and only if neither may fail, whether or not snapshots and reloads work there |
| `NftSound.MainFailureCutsOff` | gateway-agent/src/nftables-controller.js:94-101 | policy A, then B failing at its second rule, then A again, skipped: a device A does not mention stays cut off |
| `NftSound.RedirectFailureFrees` | gateway-agent/src/nftables-controller.js:110-127 | policy A, then B with a failing IPv6 redirect, then A again, skipped: the device A blocks is free |
| `NftSafety.CleanReturnSafe` | gateway-agent/src/nftables-controller.js:52-128 | after a clean return over guarded targets, rebuilt or skipped, no rule of the nftables filter chain names a protected address as its device |
| `NftSafety.MainFailureTurnsOnGateway` | gateway-agent/src/nftables-controller.js:94-101 | a guarded run, a call of the main script failing in its second cycle, that returns normally with a live rule against the gateway's own address |
| `NftSafety.RedirectFailureTurnsOnGateway` | gateway-agent/src/nftables-controller.js:110-127 | the same when only the IPv6 redirect of the second cycle fails |
| `NftSafety.SafeIffNothingFails` | gateway-agent/src/nftables-controller.js:52-128 | over all guarded runs on a host where the main script, the IPv6 redirect, both or neither may fail, no normal return leaves a rule against a protected address if and only if neither may fail |
| `NftRuns.ConstantPolicyRetries` | gateway-agent/src/nftables-controller.js:101-127 | under a constant policy a failed IPv6 redirect, or a failed rebuild, is retried until one rebuild is complete |
| `NftRuns.RollbackStacks` | gateway-agent/src/nftables-controller.js:316-326 | the rollback reloads the listing without emptying anything: each chain ends as the fragment followed by all it held before, foreign rules twice |
| `NftRuns.RedirectFailureThenSkip` | gateway-agent/src/nftables-controller.js:110-127 | policy A, then B with a failed IPv6 redirect, then A again: the third sync is skipped and the chain goes on enforcing B |
| `NftRuns.RollbackLingers` | gateway-agent/src/nftables-controller.js:94-101 | a rolled-back sync to B leaves the rules of B that were written dropping packets beside those of A, and A is skipped when it comes back |
| `NftController.Controller.AddBlockRules` | gateway-agent/src/nftables-controller.js:145-174 | adds exactly the block rules of a target, up to the first failing call |
| `NftController.Controller.AddVpnBlockRules` | gateway-agent/src/nftables-controller.js:217-254 | adds exactly the VPN rules of a target, up to the first failing call |
| `NftController.Controller.Sync` | gateway-agent/src/nftables-controller.js:52-128 | the method is the state machine the run theorems are about, listing and reload included, for each way the two may work or fail |
| `BackendEquivalence.BackendsAgree` | gateway-agent/src/nftables-controller.js:72-299 | from clean starts and without failures, iptables with ip6tables and nftables drop the same packets and rewrite each DNS query to the same destination: all IPv4 packets, and IPv6 packets when the family is enabled |
| `ManagementGuard.SafeMembers` | gateway-agent/src/management-guard.js:61-74 | the filter lets exactly the targets through whose IPv4 address is not protected |
| `ManagementGuard.SafeMeans` | gateway-agent/src/management-guard.js:49-74 | the filtered list keeps the order and leaves out exactly the targets whose IPv4 address is on the operator's list or is the detected one |
| `ManagementGuard.Guard.Refresh` | gateway-agent/src/management-guard.js:32-47 | a detected address replaces the old one; a failed detection keeps it |
| `ManagementGuard.Guard.FilterTargets` | gateway-agent/src/management-guard.js:61-74 | the loop computes the filtered list |
| `IptablesSafety.SkippedChainSafe` | gateway-agent/src/iptables-controller.js:61-66 | a ruleset written for inputs with the signature of guarded ones names no protected address, even when written in an earlier cycle and only skipped now |
| `IptablesSafety.ReturnSafe` | gateway-agent/src/iptables-controller.js:61-105 | after any run, a normal return over guarded targets leaves no rule against a protected address, whatever was protected in earlier cycles, unless a rollback was lost and nothing was rebuilt since |
| `IptablesSafety.LostRollbackTurnsOnGateway` | gateway-agent/src/iptables-controller.js:94-104 | a guarded run, on a host whose snapshots or restores fail, that ends in a normal return with a live rule against the gateway's own address |
| `IptablesSafety.SafeIffRollbackWorks` | gateway-agent/src/iptables-controller.js:61-105 | over all guarded runs and all failures, no normal return leaves a rule against a protected address if and only if both iptables-save and iptables-restore work on the host |
| `ShapingSafety.SafeDeviceEnd` | gateway-agent/src/qos-controller.js:150-181 | a safe filter puts traffic into the throttle class or into the class of a limit of a device the policy names and the guard lets through, and has that device's address at the device end of its direction |
| `ShapingSafety.GuardedShapingSafe` | gateway-agent/src/main.js:61-92 | after a complete cycle over guarded targets in which no call that clears filters fails, whatever other tc calls fail, every live IPv4 filter is safe: one this cycle asks for because of an unprotected device |
| `ShapingSafety.CompleteCycleSafeIff` | gateway-agent/src/qos-controller.js:74-85 | without that condition: a complete cycle is safe if and only if the filters its failed clearing calls left on surviving trees are |
| `ShapingSafety.FailedClearLeavesProtected` | gateway-agent/src/qos-controller.js:77-85 | a complete cycle whose clearing call fails leaves the throttle filter of an address that is protected now |
| `ShapingSafety.SafeIffClearsHold` | gateway-agent/src/qos-controller.js:74-85 | all complete cycles over guarded targets are safe if and only if the clearing calls are known to hold |
| `QosFailures.SetupLeaves` | gateway-agent/src/qos-controller.js:22-85 | setting an interface up fails if and only if one of its four tree commands does; a failed clearing call leaves exactly the old filters |
| `QosFailures.FixedLeaves` | gateway-agent/src/qos-controller.js:22-128 | whenever the first two stages complete, every interface has its tree and base classes, this cycle's throttle filters and, where clearing failed, the old ones |
| `QosFailures.CycleLeaves` | gateway-agent/src/qos-controller.js:22-208 | a cycle whose first two stages complete completes; an interface then has no tree, or those filters and some of the limits asked for |
| `QosFailures.CycleAllOrNothing` | gateway-agent/src/qos-controller.js:22-208 | the whole cycle under failures: an interface ends with every filter asked for or with no tree, the latter exactly when one of its limits failed |
| `Agent.Gateway.SyncOnce` | gateway-agent/src/main.js:44-123 | one cycle: every stage sees the guarded targets only. For both firewall families and every packet: a tidy ruleset stays tidy and, when its pass returned (rebuilt or skipped) with no lost rollback pending, FORWARD drops exactly what the ordered policy of some target the guard lets through drops or, with the DoH switch on, DoT and listed resolvers, PREROUTING rewrites DNS exactly to the resolver the DNS switch names, and everything else is what the foreign rules do; all this in terms of the process's switches, the targets the backend named and the gateway's addresses. No kill and no live IPv4 rule names a protected address, and a complete cycle leaves the live tc filters safe exactly when what its failed clearing calls left is |
| `Agent.Gateway.SyncFirewall` | gateway-agent/src/main.js:72-82 | the firewall stage inside a cycle, with the same packet property for both families; a lost rollback of a family is pending afterwards exactly if this rebuild failed and was not undone, or one was pending and nothing was rebuilt |
| `Agent.StageFollows` | gateway-agent/src/main.js:72-82 | for any two families, failures and pending rollbacks: whenever the inputs of the two passes carry the orders, their steps keep what is trusted and bring about what is ordered |
| `Metrics.Metrics.Inc` | gateway-agent/src/metrics.js:23-27 | an increment counts in the cycle's counters and in the totals |
| `Metrics.Metrics.Flush` | gateway-agent/src/metrics.js:29-33 | every event is handed out by exactly one flush; totals are what was flushed plus what waits |
| `ConnectionKiller.RetryMeans` | gateway-agent/src/retry.js:18-35 | retry succeeds if and only if one of the allowed attempts does, stops at the first that does, and announces one retry per failed attempt but the last |
| `ConnectionKiller.MemoryMeans` | gateway-agent/src/connection-killer.js:43-58 | the remembered states are exactly those of the last cycle's targets |
| `ConnectionKiller.KilledIff` | gateway-agent/src/connection-killer.js:30-58 | a target is killed in a cycle if and only if it is unprotected, BLOCK and addressed, and was not already blocked at the same addresses in the cycle before |
| `ConnectionKiller.KilledOnTransition` | gateway-agent/src/connection-killer.js:30-58 | over a whole run, cycle by cycle, exactly the transitions into BLOCK are killed, of unprotected addressed targets |
| `ConnectionKiller.KilledOnceWhileBlocked` | gateway-agent/src/connection-killer.js:30-41 | a device that stays blocked at the same addresses is not killed again |
| `ConnectionKiller.KillEachCounts` | gateway-agent/src/connection-killer.js:98-123 | attempts count every target once and attempts <= killed + failed <= 2 * attempts, whatever fails |
| `ConnectionKiller.KillAddressMeans` | gateway-agent/src/connection-killer.js:60-90 | an address is flushed at most three times and reset once if a flush works; it is killed exactly when flush and reset worked |
| `ConnectionKiller.KillOneMeans` | gateway-agent/src/connection-killer.js:98-123 | a target counts as killed if one of its addresses was and as failed if one was not, and both addresses are killed |
| `ConnectionKiller.KillsUnprotected` | gateway-agent/src/connection-killer.js:125-135 | no kill is aimed at a protected IPv4 address |
| `ConnectionKiller.Killer.Sync` | gateway-agent/src/connection-killer.js:125-135 | one cycle with its counters: attempts + protectedSkipped = candidates, the totals grow by exactly the cycle's counts, and all targets are remembered |
| `MarkAllocator.StableId` | gateway-agent/src/mark-allocator.js:9-17 | the id lies in the requested range for every key, the smallest 32-bit hash included |
| `MarkAllocator.ComputeStableId` | gateway-agent/src/mark-allocator.js:9-17 | the loop over code units with signed 32-bit arithmetic computes that id |
| `MarkAllocator.StepBijective` | gateway-agent/src/mark-allocator.js:11-14 | each FNV-1a step is a bijection on 32-bit states, undone by the multiplier 0x359C449B |
| `MarkAllocator.OneUnitApart` | gateway-agent/src/mark-allocator.js:9-17 | keys of equal length that differ in one code unit never share the signed hash that is reduced |
| `MarkAllocator.HashMeans` | gateway-agent/src/mark-allocator.js:9-14 | the hash is 32-bit FNV-1a: the published offset basis, and for each unit an exclusive or and a product with the published prime modulo 2^32 |
| `MarkAllocator.StableIdMeans` | gateway-agent/src/mark-allocator.js:15-16 | the id is the one number of the range that differs from its start plus the size of the signed hash by a multiple of its length |
| `MarkAllocator.BandwidthClassId` | gateway-agent/src/qos-controller.js:210-213 | a bandwidth class is never the root, throttle or default class |
| `MarkAllocator.ClassKeyInjective` | gateway-agent/src/qos-controller.js:210-213 | the hashed keys of different limits differ when ids and categories hold no colon |
| `MarkAllocator.ClassIdMeans` | gateway-agent/src/qos-controller.js:210-213 | the class number is the one from 0x100 to 0x7fff that differs from the size of the signed hash of its key, counted from 0x100, by a multiple of 0x7f00 |
| `MarkAllocator.ClassKeyReads` | gateway-agent/src/qos-controller.js:210-213 | a key taken apart at its colons is the device, the category if there is one, and the direction |
| `QosMeaning.GroupAllOrNothing` | gateway-agent/src/qos-controller.js:184-208 | one class with its filters on one interface: everything is added or the interface loses its tree, and no other interface changes |
| `QosMeaning.GroupAtomicIff` | gateway-agent/src/qos-controller.js:184-208 | it ends all or nothing if and only if its calls completed, the tree could be removed, or it had no filter to lose |
| `QosMeaning.BandwidthAllOrNothing` | gateway-agent/src/qos-controller.js:137-208 | for every pattern of class and filter failures an interface ends with every filter requested for it, or with no tree, the latter exactly when a call for that interface failed |
| `QosClassify.FixedQuiet` | gateway-agent/src/qos-controller.js:22-85 | after set-up from any earlier state an interface holds the fixed classes and the filters of the throttled targets, and no filter of an earlier cycle |
| `QosClassify.CycleClassifies` | gateway-agent/src/qos-controller.js:22-128 | each packet on an interface goes to the throttle class if a throttled address is an end of it there, else to the class of the first matching limit in target and limit order, else to the default class |
| `QosClassify.CycleBaseRates` | gateway-agent/src/qos-controller.js:51-72 | after such a cycle the root class 1 and the default class 0x30 have the configured full rate and the throttle class 0x10 the configured slow one; no limit is put in their place |
| `QosClassify.CycleRates` | gateway-agent/src/qos-controller.js:150-181 | after a cycle in which nothing fails, every limit of an addressed target has, on each interface that carries the direction, its class with its own download or upload rate as rate and ceiling, unless another limit in force there hashes to the same class with another rate |
| `QosClassify.ScriptEmptyIff` | gateway-agent/src/qos-controller.js:22-49 | shaping touches nothing if and only if it is switched off or has no interface |
| `QosController.Controller.ApplyDirectionalLimit` | gateway-agent/src/qos-controller.js:184-208 | the loop with its catch is the guarded group per interface |
| `QosController.Controller.SyncBandwidthLimits` | gateway-agent/src/qos-controller.js:137-182 | the nested loops over targets, limits and directions are one script |
| `QosController.Controller.Sync` | gateway-agent/src/qos-controller.js:22-49 | one cycle is the script the meaning theorems are about |
| `ClientHello.ParseClientHello` | gateway-agent/src/tls-fingerprint-detector.js:39-91 | the parser's loops compute its meaning, unpacking errors included |
| `ClientHello.ReadExtensions` | gateway-agent/src/tls-fingerprint-detector.js:63-79 | the extension loop gathers every type in order, and groups and formats of their last occurrence |
| `ClientHello.ParseInvertsEncode` | gateway-agent/src/tls-fingerprint-detector.js:39-79 | for every well-formed ClientHello, parsing its encoding by section 4.1.2 of RFC 8446 recovers version, ciphers, extension types, groups and point formats, whatever follows the record |
| `Ja3.Ja3TextIff` | gateway-agent/src/tls-fingerprint-detector.js:81-91 | two hellos have the same text before hashing if and only if they agree on everything but GREASE |
| `Ja3.GreaseNeverShows` | gateway-agent/src/tls-fingerprint-detector.js:81-91 | inserting or removing a GREASE value of section 2 of RFC 8701 among ciphers, extensions or groups never changes that text |
| `Ja3Reader.RecordReads` | gateway-agent/src/tls-fingerprint-detector.js:39-91 | the text of the record of any well-formed hello, split at commas and dashes and read as decimal numbers, is the hello's version, ciphers, extension types and groups without GREASE, and point formats, in that order |
| `Ja3Reader.TextReads` | gateway-agent/src/tls-fingerprint-detector.js:81-91 | the same for any parsed fields: five pieces in that order |
| `Ja3Reader.StripMeans` | gateway-agent/src/tls-fingerprint-detector.js:81-82 | leaving GREASE out keeps every other value in its place and nothing else |
| `Ja3Reader.GreaseIff` | gateway-agent/src/tls-fingerprint-detector.js:31-36 | the table is exactly the values of section 2 of RFC 8701: two equal bytes that end in the digit a |
| `EnvFile.LoadDotEnv` | gateway-agent/src/config.js:8-22 | the loader's loop: the first non-empty value of a key wins, one already in the environment before all |
| `EnvFile.LoadFirst` | gateway-agent/src/config.js:12-21 | for a key the environment does not bring, the first line that gives it a value decides, whatever stands behind |
| `EnvFile.LoadKeeps` | gateway-agent/src/config.js:20-20 | a value the environment brings stays, whatever the file says |
| `EnvFile.ReplaceLines` | gateway-agent/src/token-rotation.js:26-34 | the mapping over lines replaces every assignment of the key and reports whether there was one |
| `EnvFile.BuildContent` | gateway-agent/src/token-rotation.js:20-40 | the file that is written |
| `EnvFile.Process.PersistRotatedToken` | gateway-agent/src/token-rotation.js:12-41 | the file is replaced as a whole or, on a read or write error, not at all |
| `EnvFile.Process.ApplyRotatedToken` | gateway-agent/src/token-rotation.js:58-72 | an absent, empty or current token changes nothing; a new one is in use at once even if it could not be written |
| `EnvFile.EntryOfAssignment` | gateway-agent/src/token-rotation.js:33-33 | a written line is read back as the key and the trimmed, unquoted value |
| `EnvFile.PaddedEntry` | gateway-agent/src/config.js:14-19 | an assignment with white space around key and value and quotes around the value is read as the bare pair |
| `EnvFile.NoEntry` | gateway-agent/src/config.js:14-17 | a blank line, a comment, indented or not, and a line without an equals sign are read as nothing |
| `EnvFile.WrittenMeans` | gateway-agent/src/token-rotation.js:20-40 | the written file has the lines of the old one, blank ones at the end left out, each in its place, with every assignment of the key replaced and one added at the end if there was none |
| `EnvRoundTrip.SplitJoined` | gateway-agent/src/token-rotation.js:20-40 | written lines come back when split, each without a carriage return it ended in |
| `EnvRoundTrip.RoundTrip` | gateway-agent/src/token-rotation.js:12-41 | loading after a write gives the old environment with that key replaced, for every file content with duplicate, commented or CRLF lines, and the old one unchanged when the environment brought its own value |
| `EnvRoundTrip.RestartReadsIff` | gateway-agent/src/token-rotation.js:5-11 | a restart comes up with the written value if and only if it has no line feed, edge white space or edge quote and the environment brings no other value |
| `EnvRoundTrip.OtherSettingsKept` | gateway-agent/src/token-rotation.js:5-11 | every other setting reads as before |
| `EnvRoundTrip.RotationThenRestart` | gateway-agent/src/token-rotation.js:44-57 | the round trip for the gateway token, with or without a file before |
| `EnvRoundTrip.TwiceIff` | gateway-agent/src/token-rotation.js:20-40 | writing twice equals writing once if and only if no written line ends in a carriage return |
| `EnvRoundTrip.PairedTwice` | gateway-agent/src/token-rotation.js:20-40 | so it does for every file whose carriage returns all belong to CRLF pairs |
| `Cidr.PartsInverse` | gateway-agent/src/cidr.js:3-7 | every 32-bit address is what its dotted parts parse to |
| `Cidr.MaskedAlike` | gateway-agent/src/cidr.js:20-21 | the signed 32-bit masks of two addresses agree if and only if the addresses agree in the prefix bits |
| `Cidr.IpInCidrIff` | gateway-agent/src/cidr.js:10-22 | the test answers yes if and only if the operands are well formed and agree in the prefix bits (section 3.1 of RFC 4632), the empty prefix included |
| `VpnDetector.FindPort` | gateway-agent/src/vpn-patterns.js:102-105 | a signature is found if and only if the table lists protocol and port |
| `VpnDetector.RangeHitIff` | gateway-agent/src/vpn-patterns.js:113-119 | the range test of the table is membership in the prefix |
| `VpnDetector.AnomalyIff` | gateway-agent/src/vpn-detector.js:24-43 | an anomaly is reported if and only if some port in use, not one of the common ones, has three or more distinct peers |
| `VpnDetector.DetectFlowAnomaly` | gateway-agent/src/vpn-detector.js:24-43 | the two loops over the insertion-ordered map report the port met first among those |
| `VpnDetector.DetectForTarget` | gateway-agent/src/vpn-detector.js:82-126 | the detections of a target, in order: UDP flows, anomaly, TCP flows, with the later stages appended; a failed listing counts as empty |
| `VpnDetector.ReportMeans` | gateway-agent/src/vpn-detector.js:82-126 | the report names a destination or port under a signal if and only if some flow of the listing the signal looks at goes there and the table of that signal lists it, or the later stages report it |
| `VpnDetector.PeersReported` | gateway-agent/src/vpn-detector.js:24-43 | the port reported for its peers is none of the six common ones and has three or more peers; its weight is 25 |
| `VpnDetector.PortEntry` | gateway-agent/src/vpn-detector.js:90-97 | a reported UDP port carries provider and weight of a table entry for it |
| `VpnDetector.TcpPortEntry` | gateway-agent/src/vpn-detector.js:112-126 | a reported TCP port carries provider and weight of an entry of the table its signal stands for |
| `Confidence.MoreIsNotLess` | gateway-agent/src/vpn-detector.js:56-60 | the score is a percentage and one more signal never lowers it |
| `Confidence.AtLeastEach` | gateway-agent/src/vpn-detector.js:56-60 | a lone signal scores its weight and any set at least that of its strongest |
| `Confidence.OrderIrrelevant` | gateway-agent/src/vpn-detector.js:56-60 | the order of the signals does not matter |
| `Confidence.TwoSignals` | gateway-agent/src/vpn-detector.js:56-60 | two signals: what the product of their chances of a miss leaves of a hundred, rounded half up |
| `Confidence.HundredIff` | gateway-agent/src/vpn-detector.js:45-60 | the rounded score is 100 if and only if the chance of a miss is at most half a per cent, which three signals of weight 90 reach |
| `DohWindow.Record` | gateway-agent/src/doh-detector.js:61-67 | recording keeps the last eight observations |
| `DohWindow.WindowIsLast` | gateway-agent/src/doh-detector.js:61-67 | after any run of observations the window is exactly the last min(n, 8), in order |
| `DohWindow.DetectInterval` | gateway-agent/src/doh-detector.js:82-102 | the loops compute the verdict on a window |
| `DohWindow.MeanTelescopes` | gateway-agent/src/doh-detector.js:86-89 | the mean is (last - first) / (n - 1) |
| `DohWindow.ShiftInvariant` | gateway-agent/src/doh-detector.js:82-102 | the verdict does not change when all times are shifted |
| `DohWindow.PeriodicFlagged` | gateway-agent/src/doh-detector.js:82-102 | any exactly periodic run of four or more connections with a period from 2 s to 120 s is flagged with its period |
| `DohWindow.PeriodicFlaggedIff` | gateway-agent/src/doh-detector.js:82-102 | a strictly periodic run is flagged if and only if it has four connections or more and its period lies from 2 s to 120 s |
| `DohWindow.SwingingFlaggedIff` | gateway-agent/src/doh-detector.js:82-102 | intervals that swing around a mean in the range are flagged if and only if they leave it by at most a fifth |
| `DohWindow.FlaggedIsRegular` | gateway-agent/src/doh-detector.js:82-102 | in a flagged window every single interval is within sixty per cent of the mean |
| `DohDetector.MatchDohIp` | gateway-agent/src/doh-dot-patterns.js:81-86 | an address matches if and only if a provider or the operator lists it |
| `DohDetector.FirstReports` | gateway-agent/src/doh-detector.js:104-127 | the first pass reports a destination as a resolver, or a port as DoT, if and only if some flow goes there |
| `DohDetector.SecondReports` | gateway-agent/src/doh-detector.js:129-136 | the second pass adds a behavioural report if and only if the first did not match the destination, it was contacted on 443 and its window is regular |
| `DohDetector.ReportLabels` | gateway-agent/src/doh-detector.js:113-136 | each entry of a report carries the provider and weight its signal stands for: DoT with 95, the provider the address list names with 90, regular intervals with 20 |
| `DohDetector.WindowsAfter` | gateway-agent/src/doh-detector.js:118-121 | a pass appends to each window of the device the times it contacted that destination and touches no other device's |
| `DohDetector.DohDetector.DetectForTarget` | gateway-agent/src/doh-detector.js:104-136 | the two loops are the two passes, and the windows are kept in the object |
| `DetectionAgrees.UdpFlaggedIffDropped` | gateway-agent/src/vpn-detector.js:90-96 | a UDP flow is flagged by range or port if and only if the target's VPN rules drop its packets |
| `DetectionAgrees.TcpDroppedIff` | gateway-agent/src/vpn-detector.js:112-126 | a TCP flow is dropped if and only if it is flagged by port or goes to a listed range, which the scan does not look for; detection-only ports are never dropped for their port |
| `DetectionAgrees.DnsFlaggedIffDropped` | gateway-agent/src/doh-detector.js:113-127 | a TCP flow is of a reported kind if and only if the DoH chain drops it |
| `DetectionAgrees.DnsReportIffDropped` | gateway-agent/src/doh-detector.js:113-127 | a resolver or port is in the report if and only if some flow of the device there is one the chain drops |
| `DetectionAgrees.FlaggedFlowsStopped` | gateway-agent/src/vpn-detector.js:62-69 | under a deployed policy that blocks VPNs for the device, FORWARD drops every packet of a flagged flow |
| `RouterExecutor.RouterCommandExecutor.RunEndGamingSession` | gateway-agent/src/router-command-executor.js:106-143 | the strategy loop is the state machine: try, check connectivity, roll back |
| `RouterExecutor.RouterCommandExecutor.RunMultiStrategyAction` | gateway-agent/src/router-command-executor.js:153-168 | the loop stops at the first success, without a check |
| `RouterExecutor.RouterCommandExecutor.ExecuteCommand` | gateway-agent/src/router-command-executor.js:170-225 | dispatch of every kind of command, exceptions included |
| `RouterExecutor.RouterCommandExecutor.Sync` | gateway-agent/src/router-command-executor.js:227-242 | the loop over the fetched commands with its acknowledgements |
| `RouterSafety.NoUnreportedBlock` | gateway-agent/src/router-command-executor.js:106-143 | under the plugin contract, when a session run returns, a block that was not in force before is that of the strategy reported as used or of an attempt reported as not rolled back; the used one is in force |
| `RouterSafety.AdmittedMeans` | gateway-agent/src/router-command-executor.js:126-139 | what those reported attempts account for |
| `RouterSafety.AttemptsArePrefix` | gateway-agent/src/router-command-executor.js:106-143 | the attempts are the known strategies in order up to where the run stopped, and it stops early only at the first that succeeded and kept the connection |
| `RouterSafety.BlockInstallsOne` | gateway-agent/src/router-command-executor.js:145-168 | a BLOCK_DEVICE run that returns has installed the block of the strategy it reports and no other |
| `RouterSafety.UnblockOnlyRemoves` | gateway-agent/src/router-command-executor.js:145-168 | an UNBLOCK_DEVICE run installs nothing and removes at most the blocks of its strategies, even if it throws |
| `RouterMeaning.CommandBounds` | gateway-agent/src/router-command-executor.js:170-225 | whatever its outcome, a command of each kind puts into force and lifts at most the blocks that kind may; without a router none |
| `RouterMeaning.BlockDeviceMeans` | gateway-agent/src/router-command-executor.js:208-211 | BLOCK_DEVICE: answered true if and only if some attempt reported success, and then exactly the block of one of its strategies is added; answered false, nothing changed |
| `RouterMeaning.UnblockDeviceMeans` | gateway-agent/src/router-command-executor.js:213-216 | UNBLOCK_DEVICE adds no block and lifts at most those of its strategies; answered true if and only if some attempt reported success |
| `RouterMeaning.UnblockLifts` | gateway-agent/src/router-command-executor.js:213-216 | when the plugin's unblocking call answers plain success, the block of the strategy is gone |
| `RouterMeaning.EndSessionMeans` | gateway-agent/src/router-command-executor.js:203-206 | END_GAMING_SESSION: answered true if and only if some attempt succeeded and kept the connection; when it returns, every new block is the used one or one it reports as not rolled back |
| `RouterMeaning.OtherCommandsMean` | gateway-agent/src/router-command-executor.js:170-225 | single actions make one call and answer as it does; DETECT changes no block; unsupported kinds, missing methods and commands without a router do nothing |
| `RouterMeaning.StrategyCalls` | gateway-agent/src/router-command-executor.js:6-16 | each strategy is the plugin method of its own name |
| `RouterMeaning.SyncBounds` | gateway-agent/src/router-command-executor.js:227-242 | all commands of a synchronisation together change no block beyond what each may |
| `RouterMeaning.BlockedStays` | gateway-agent/src/router-command-executor.js:227-242 | a BLOCK_DEVICE answered true stays in force to the end of the synchronisation unless a later command of it may lift its block |
| `RouterSafety.EachCommandOnce` | gateway-agent/src/router-command-executor.js:227-242 | each fetched command is executed once, in order, and at most one verdict per command is delivered |
| `RouterSafety.SuccessIsEarned` | gateway-agent/src/router-command-executor.js:230-233 | every positive acknowledgement directly follows an execution of its command that answered exactly true |
| `RouterSafety.VerdictIff` | gateway-agent/src/router-command-executor.js:230-240 | a success is reported as a failure if and only if its first acknowledgement is lost and the second gets through |
| `IspServices.TenantStore.GetTenant` | isp-adapter/src/tenant-store.js:8-20 | a tenant is made when it is first asked for; no other changes |
| `IspServices.RadiusService.UpsertSession` | isp-adapter/src/radius.service.js:9-27 | session table and subscriber get the same new session; a missing field is refused |
| `IspServices.RadiusService.StopSession` | isp-adapter/src/radius.service.js:29-39 | the session is marked, leaves the table and its subscriber; without one nothing changes |
| `IspServices.DhcpService.UpsertLease` | isp-adapter/src/dhcp.service.js:8-27 | the lower-cased address is filed in the index and in its subscriber's devices; a missing field is refused |
| `IspServices.SubscriberResolver.Resolve` | isp-adapter/src/subscriber-resolver.js:10-44 | resolves by id or by lease and makes a missing subscriber, even if what follows throws |
| `IspServices.BngController.ApplyPolicy` | isp-adapter/src/bng-controller.js:10-45 | writes the state at its key, or throws without an address or for an unknown action |
| `IspServices.PolicyEngine.Apply` | isp-adapter/src/policy-engine.js:10-26 | resolve, apply, then file the policy |
| `IspConsistency.WithDeviceMeans` | isp-adapter/src/dhcp.service.js:23-24 | setting a device replaces the one with its address and keeps the others |
| `IspConsistency.AlwaysAgree` | isp-adapter/src/policy-engine.js:10-26 | over any sequence of requests, failed ones included: the session table holds exactly the active sessions of subscribers, indexed leases are devices of their subscribers, and a device is the indexed lease unless its address was leased to someone else since |
| `IspKeys.KeysInjectiveIff` | isp-adapter/src/bng-controller.js:16-16 | over all subscribers the keys of BNG states are distinct if and only if no BNG name in use is another one followed by a colon and more |
| `IspKeys.AlwaysKeyed` | isp-adapter/src/policy-engine.js:10-26 | under that condition, over any sequence of requests, each policy names one of the three actions, its state is the one held at its key, records that action, and has a blackhole if and only if the policy says BLOCK |
| `IspKeys.PoliciesSafeIff` | isp-adapter/src/policy-engine.js:10-26 | over all runs that use given BNG names, every policy keeps the state held for it if and only if the names meet that condition |
| `IspConsistency.SessionsNeverPart` | isp-adapter/src/radius.service.js:9-39 | a subscriber's active session is its entry in the session table, and null exactly when there is none |
| `IspConsistency.TenantsIsolated` | isp-adapter/src/tenant-store.js:8-20 | an operation on one tenant leaves the maps and session objects of every other as they were |
| `IspConsistency.RunsIsolated` | isp-adapter/src/tenant-store.js:8-20 | any number of requests to other tenants leaves a tenant's maps and session objects as they were |
| `IspPolicy.ApplyIff` | isp-adapter/src/policy-engine.js:10-26 | an application succeeds if and only if the subscriber is known, an address can be enforced at and the action is valid; one that throws changes neither policies nor BNG states |
| `IspPolicy.AppliedMeans` | isp-adapter/src/bng-controller.js:10-88 | an accepted application filed under its subscriber records the action the request names word by word (blackhole if and only if BLOCK, DNS policy, QoS profile), and any box that runs its commands gets the route, filter and DNS policy for BLOCK, the profile, rate and DNS policy for THROTTLE, loses route and rate for ALLOW, and changes nothing else |
| `IspPolicy.ApplyLeaves` | isp-adapter/src/policy-engine.js:10-26 | whether it succeeds or throws, sessions and leases stay, and every subscriber but for the one it makes |
| `IspPolicy.WhoMeans` | isp-adapter/src/subscriber-resolver.js:10-24 | the subscriber is the one the request names, or else the one whose lease the index has for its hardware address in lower case |
| `IspPolicy.SessionThenPolicy` | isp-adapter/src/subscriber-resolver.js:26-43 | a session report and then a policy: it is enforced at the address, BNG and CGNAT ports of the report |
| `IspPolicy.NoSessionThenPolicy` | isp-adapter/src/subscriber-resolver.js:26-43 | without a session: the address and BNG the request names, or else the first device's address and the default BNG |
| `IspPolicy.RefusedIff` | isp-adapter/src/radius.service.js:9-27 | a session report is refused if and only if it lacks a subscriber or an address, a lease report if and only if it lacks one of its three fields; a refused one changes nothing |
| `IspPolicy.StopMeans` | isp-adapter/src/radius.service.js:29-39 | stopping takes the session out of both maps and marks it; every other session and subscriber stays |
| `IspPolicy.SessionDecides` | isp-adapter/src/subscriber-resolver.js:26-43 | a running session decides address and BNG, whatever the request names |
| `IspLeases.EnforcedWhereLeasedIff` | isp-adapter/src/subscriber-resolver.js:26-43 | without a session or a named address a policy is enforced at the first device; that is still the subscriber's lease if and only if the index names the subscriber for its hardware address, and the IP address is still leased to it if and only if a current device has it |
| `IspLeases.LeasesAreLast` | isp-adapter/src/dhcp.service.js:8-27 | after any run the index holds the last accepted lease of each hardware address, and a device list the last one of each address to that subscriber |
| `IspLeases.StaleIff` | isp-adapter/src/dhcp.service.js:22-25 | after any run a device is out of date if and only if the last accepted lease request for its address named someone else |
| `IspLeases.MovedLeaseLingers` | isp-adapter/src/dhcp.service.js:22-25 | it happens: a policy is enforced at an IP address that is no longer leased to the subscriber |
| `IspPolicy.RouteAsRecordedIff` | isp-adapter/src/bng-controller.js:52-74 | the recorded blackhole is what a box that runs the commands has, except when THROTTLE follows BLOCK |

## Left out

- Agent.Gateway.SyncOnce: covers guard, killer, iptables firewall and shaping for IPv4 addresses; discovery, token rotation, the detectors and the router executor are not composed into the cycle, because they do not change the state the theorem is about.
- IptablesSafety.SkippedChainSafe: is about addresses; a protected device that is also listed by its MAC address only is not recognised by the guard, and the model does not claim it is.
- BackendEquivalence.BackendsAgree: is about failure-free syncs; with IPv6 switched off nftables' MAC rule still sees IPv6 packets and ip6tables is not run.
- QosClassify.CycleClassifies: is about failure-free cycles; with failures `QosFailures.CycleAllOrNothing` says which filters are there.
- QosFailures.CycleAllOrNothing: assumes that removing a tree works when it is tried; `QosMeaning.GroupAtomicIff` gives the exact condition for one interface.
- ConnectionKiller.Killer.Sync: kills one device after the other; the source starts them together, and kills of different devices share nothing but the counters.
- ClientHello.ParseInvertsEncode: is for a ClientHello that fits one record; fragments over several records are not put together by the source either.
- Ja3.Ja3TextIff: stops before MD5, which is foreign code.
- EnvFile.Process.PersistRotatedToken: a write that fails leaves the file as it was; a file cut off half way through a write is not modelled. Setting a variable with an empty name is taken to work like any other.
- EnvFile.LoadDotEnv: characters are code points rather than UTF-16 units, which trimming, splitting and quoting cannot tell apart.
- Cidr.IpInCidrIff: starts from the dotted parts as numbers; JavaScript's conversion of each part (which also takes an empty one for zero) is not modelled.
- VpnDetector.DetectForTarget: takes what the DNS sniff and the TLS stage add as given; addresses are IPv4.
- DohDetector.DohDetector.DetectForTarget: windows are keyed by device and destination, the source joins the two with a bar, which no address contains; the SNI stage is taken as given.
- DohWindow.DetectInterval: the coefficient of variation is compared as variance <= 0.04 * mean^2, without floating-point rounding.
- Confidence.HundredIff: over the reals, without floating-point rounding.
- RouterExecutor.RouterCommandExecutor.ExecuteCommand: payloads are already parsed; strategy names that JavaScript objects inherit (such as `toString`) are taken as unknown. The rate-limited discovery is not modelled.
- IspStore.Apply: time stamps are not modelled, and lower-casing is that of ASCII letters.
- dryRun, logging, timeouts, temporary files, process spawning, the HTTP transport, heartbeat and health checks: input and output only; every external call is a step that may fail.
- Malformed addresses in a policy are failing calls; rule comments of nftables and the counter of applied bandwidth rules are not modelled.
- Router discovery, vendor plugins, OUI and OS-hint tables, category domains and the resolve cache: heuristics, tables or remote protocols.
- The web dashboard, the mobile shells, the backend and the load tests are not part of this model.
