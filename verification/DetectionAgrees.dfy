/** Detection against enforcement: the detectors and the firewall read the same tables in different ways and reach
    the same conclusions about a flow. */
module DetectionAgrees {
  import opened Options
  import opened Bits
  import opened Patterns
  import opened Policy
  import opened Netfilter
  import opened IptablesRules
  import opened IptablesMeaning
  import V = VpnDetector
  import D = DohDetector

  /** The packets of an IPv4 flow from a device. */
  function PacketOf(addr: nat, proto: Proto, f: V.Flow, mac: string, marks: set<nat>): Packet {
    Packet(false, addr, f.dst, mac, proto, f.dport, marks)
  }

  lemma RangesListed(dst: Word)
    ensures V.TABLES.matchIp(dst).Some? <==> VpnRangeListed(dst)
  {
    forall r | r in VPN_IP_RANGES ensures V.RangeHit(r, dst) <==> InPrefix(dst, r.base, r.prefix) {
      V.RangeHitIff(r, dst);
    }
  }

  predicate Signals(ds: seq<V.Detection>, signal: V.Signal) {
    exists d :: d in ds && d.signal == signal
  }

  /** What the scans say of one flow, in terms of the tables alone. */
  lemma UdpMeans(f: V.Flow)
    ensures Signals(V.UdpSignals(V.TABLES, f), V.ByRange) <==> VpnRangeListed(f.dst)
    ensures Signals(V.UdpSignals(V.TABLES, f), V.ByPort) <==> VpnPortListed(Udp, f.dport)
  {
    RangesListed(f.dst);
    var range, sig := V.TABLES.matchIp(f.dst), V.FindPort(VPN_PORT_SIGNATURES, Udp, f.dport);
    OfTwo(range, sig, f);
  }

  lemma OfTwo(range: Option<Range>, sig: Option<PortSignature>, f: V.Flow)
    ensures var a := if range.Some? then [V.Detection(V.ByRange, range.value.provider, f.dst, range.value.weight)] else [];
            var b := if sig.Some? then [V.Detection(V.ByPort, sig.value.provider, f.dport, sig.value.weight)] else [];
            (Signals(a + b, V.ByRange) <==> range.Some?) && (Signals(a + b, V.ByPort) <==> sig.Some?)
  {
    var a := if range.Some? then [V.Detection(V.ByRange, range.value.provider, f.dst, range.value.weight)] else [];
    var b := if sig.Some? then [V.Detection(V.ByPort, sig.value.provider, f.dport, sig.value.weight)] else [];
    if range.Some? { assert a[0] in a + b; }
    if sig.Some? { assert b[0] in a + b; }
  }

  lemma TcpMeans(f: V.Flow)
    ensures Signals(V.TcpSignals(V.TABLES, f), V.ByPort) <==> VpnPortListed(Tcp, f.dport)
    ensures Signals(V.TcpSignals(V.TABLES, f), V.ByLowPort) ==> !VpnPortListed(Tcp, f.dport)
  {
    var sig := V.FindPort(VPN_PORT_SIGNATURES, Tcp, f.dport);
    var ds := V.TcpSignals(V.TABLES, f);
    if ds != [] { assert ds == [ds[0]] && ds[0] in ds; }
  }

  /** A UDP flow of a device is flagged by range or by port exactly when the device's VPN rules drop its packets. */
  lemma UdpFlaggedIffDropped(t: Target, addr: nat, f: V.Flow, mac: string, marks: set<nat>)
    requires t.ipAddress == Some(addr)
    ensures Signals(V.UdpSignals(V.TABLES, f), V.ByRange) || Signals(V.UdpSignals(V.TABLES, f), V.ByPort)
            <==> AnyFires(VpnRules(t, false), PacketOf(addr, Udp, f, mac, marks))
  {
    UdpMeans(f);
    VpnFires(t, PacketOf(addr, Udp, f, mac, marks));
  }

  /** A TCP flow flagged by port is dropped; the rules drop one more family the scan does not look for, flows to
      the listed ranges, and the ports of the detection-only table are in no rule. */
  lemma TcpDroppedIff(t: Target, addr: nat, f: V.Flow, mac: string, marks: set<nat>)
    requires t.ipAddress == Some(addr)
    ensures AnyFires(VpnRules(t, false), PacketOf(addr, Tcp, f, mac, marks))
            <==> Signals(V.TcpSignals(V.TABLES, f), V.ByPort) || VpnRangeListed(f.dst)
    ensures Signals(V.TcpSignals(V.TABLES, f), V.ByLowPort) ==>
              (AnyFires(VpnRules(t, false), PacketOf(addr, Tcp, f, mac, marks)) <==> VpnRangeListed(f.dst))
  {
    TcpMeans(f);
    VpnFires(t, PacketOf(addr, Tcp, f, mac, marks));
  }

  /** A TCP flow is one of the two kinds the first encrypted-DNS pass reports exactly when the DoH chain drops it. */
  lemma DnsFlaggedIffDropped(addr: nat, f: V.Flow, mac: string, marks: set<nat>, reputation: seq<nat>)
    ensures (f.dport in DOT_PORTS || (f.dport == 443 && D.Matcher(reputation)(f.dst).Some?))
            <==> AnyFires(DohChain(reputation, false), PacketOf(addr, Tcp, f, mac, marks))
  {
    DohChainFires(reputation, PacketOf(addr, Tcp, f, mac, marks));
  }

  /** So a destination is in the report as a resolver, or a port as DoT, exactly when some flow of the device to it
      is one the chain drops. */
  lemma DnsReportIffDropped(ws: D.Windows, device: string, flows: seq<V.Flow>, nows: seq<int>, reputation: seq<nat>,
                            addr: nat, mac: string, marks: set<nat>, dst: Word, port: nat)
    requires |nows| >= |flows|
    ensures var ds := D.First(ws, device, flows, nows, D.Matcher(reputation)).detections;
            && (D.Reports(ds, D.ByDohIp, dst)
                <==> (exists f :: f in flows && f.dport == 443 && f.dst == dst
                                  && AnyFires(DohChain(reputation, false), PacketOf(addr, Tcp, f, mac, marks))))
            && (D.Reports(ds, D.ByDotPort, port)
                <==> port in DOT_PORTS
                     && (exists f :: f in flows && f.dport == port
                                     && AnyFires(DohChain(reputation, false), PacketOf(addr, Tcp, f, mac, marks))))
  {
    D.FirstReports(ws, device, flows, nows, D.Matcher(reputation), dst);
    assert 443 !in DOT_PORTS;
    forall f | f in flows
      ensures (f.dport in DOT_PORTS || (f.dport == 443 && D.Matcher(reputation)(f.dst).Some?))
              <==> AnyFires(DohChain(reputation, false), PacketOf(addr, Tcp, f, mac, marks))
    {
      DnsFlaggedIffDropped(addr, f, mac, marks, reputation);
    }
  }

  /** End to end: under a deployed policy that blocks VPNs for a device, FORWARD drops every packet of a flow the
      scans flag by range or by port. */
  lemma FlaggedFlowsStopped(rs: Ruleset, input: Inputs, reputation: seq<nat>, t: Target, addr: nat, proto: Proto,
                            f: V.Flow, mac: string, marks: set<nat>, depth: nat)
    requires Deployed(rs, input, reputation) && Hooked(rs.filter, FORWARD) && depth > 0 && !input.enableIpv6
    requires FlagsClean(rs, input.enableDohBlock, Redirects(input))
    requires t in input.targets && t.vpnBlock && t.ipAddress == Some(addr) && !proto.OtherProto?
    requires var ds := if proto.Udp? then V.UdpSignals(V.TABLES, f) else V.TcpSignals(V.TABLES, f);
             Signals(ds, V.ByRange) || Signals(ds, V.ByPort)
    ensures Walk(rs.filter, rs.filter[FORWARD], PacketOf(addr, proto, f, mac, marks), depth) == Dropped
  {
    var p := PacketOf(addr, proto, f, mac, marks);
    ForwardRefinesPolicy(rs, input, reputation, p, depth);
    UdpMeans(f);
    TcpMeans(f);
    assert TargetDrops(t, input.enableQuicBlockGlobal, p);
  }
}
