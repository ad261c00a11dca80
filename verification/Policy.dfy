/** What a poll cycle hands to the enforcement stages, and what enforcing it means for a packet.
    `Drops` is the reference meaning: it speaks of devices and addresses only, not of rules or chains. */
module Policy {
  import opened Options
  import opened Patterns
  import opened Bits

  datatype Action = Block | Throttle | Allow | Unset

  /** A zero rate is the absent one: the source tests the rate for truth. */
  datatype Limit = Limit(category: Option<string>, downloadKbps: nat, uploadKbps: nat)

  /** Addresses are the numbers their text denotes. */
  datatype Target = Target(
    deviceId: string,
    name: string,
    action: Action,
    ipAddress: Option<nat>,
    ipv6Address: Option<nat>,
    macAddress: Option<string>,
    vpnBlock: bool,
    quicBlock: bool,
    bandwidthLimits: seq<Limit>)

  /** The arguments of one firewall synchronisation. In an iptables pass `enableIpv6` is the family of the pass. */
  datatype Inputs = Inputs(
    targets: seq<Target>,
    dnsRedirectIp: Option<nat>,
    dnsRedirectIpv6: Option<nat>,
    enableDnsRedirect: bool,
    enableQuicBlockGlobal: bool,
    enableDohBlock: bool,
    enableIpv6: bool)

  /** Whether taking a snapshot and putting it back work during one firewall synchronisation. */
  datatype Tools = Tools(save: bool, restore: bool) {
    predicate Work() {
      save && restore
    }
  }

  /** `marks` stands for everything else a foreign rule may look at. */
  datatype Packet = Packet(
    ipv6: bool,
    src: nat,
    dst: nat,
    mac: string,
    proto: Proto,
    dport: nat,
    marks: set<nat>)

  function AddressOf(t: Target, ipv6: bool): Option<nat> {
    if ipv6 then t.ipv6Address else t.ipAddress
  }

  /** Membership in an IPv4 prefix: equal once the host bits are dropped (section 3.1 of RFC 4632). */
  predicate InPrefix(addr: nat, base: nat, prefix: nat) {
    prefix <= 32 && addr / Pow2(32 - prefix) == base / Pow2(32 - prefix)
  }

  predicate VpnPortListed(proto: Proto, port: nat) {
    exists s :: s in VPN_PORT_SIGNATURES && s.proto == proto && s.port == port
  }

  predicate VpnRangeListed(addr: nat) {
    exists r :: r in VPN_IP_RANGES && InPrefix(addr, r.base, r.prefix)
  }

  predicate DohListed(addr: nat, reputation: seq<nat>) {
    (exists q :: q in DOH_PROVIDER_IPS && q.ip == addr) || addr in reputation
  }

  predicate TargetDrops(t: Target, quicGlobal: bool, p: Packet) {
    var mine := AddressOf(t, p.ipv6) == Some(p.src);
    || (t.action.Block? && (mine || t.macAddress == Some(p.mac)))
    || (t.vpnBlock && mine && (VpnPortListed(p.proto, p.dport) || (!p.ipv6 && VpnRangeListed(p.dst))))
    || ((quicGlobal || t.quicBlock) && mine && p.proto.Udp? && p.dport == 443)
  }

  predicate DohDrops(reputation: seq<nat>, p: Packet) {
    || (!p.proto.OtherProto? && p.dport in DOT_PORTS)
    || (!p.ipv6 && p.proto.Tcp? && p.dport == 443 && DohListed(p.dst, reputation))
  }

  predicate Drops(input: Inputs, reputation: seq<nat>, p: Packet) {
    || (exists t :: t in input.targets && TargetDrops(t, input.enableQuicBlockGlobal, p))
    || (input.enableDohBlock && DohDrops(reputation, p))
  }

  /** A BLOCK target known by address only, under a policy that switches nothing else on. */
  function BlockOnly(addr: nat): Inputs {
    Inputs([Target("d", "", Block, Some(addr), None, None, false, false, [])], None, None, false, false, false, false)
  }

  /** What is blocked as DNS over TLS or HTTPS, spelled out: port 853 over either transport, and TCP port 443 of a listed
      IPv4 resolver. */
  lemma DohDropsMeans(reputation: seq<nat>, p: Packet)
    ensures DohDrops(reputation, p) <==>
              || (p.proto in {Tcp, Udp} && p.dport == 853)
              || (!p.ipv6 && p.proto == Tcp && p.dport == 443 && DohListed(p.dst, reputation))
  {
  }

  /** A DNS query over either transport. */
  predicate IsDns(p: Packet) {
    !p.proto.OtherProto? && p.dport == 53
  }

  /** The list both backends block is the one the policy means. */
  lemma ProvidersListed(addr: nat, reputation: seq<nat>)
    ensures (exists q :: q in DohProviders(reputation) && q.ip == addr) <==> DohListed(addr, reputation)
  {
    var extra := ReputationProviders(reputation);
    if addr in reputation {
      var i :| 0 <= i < |reputation| && reputation[i] == addr;
      assert extra[i] in DohProviders(reputation);
    }
    if q :| q in DOH_PROVIDER_IPS && q.ip == addr {
      assert q in DohProviders(reputation);
    }
  }
}
