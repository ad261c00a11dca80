/** The VPN detector: what it makes of the connections of a device (vpn-detector.js and vpn-patterns.js). */
module VpnDetector {
  import opened Options
  import opened Bits
  import opened Patterns
  import opened Policy
  import opened Cidr

  /** A connection of the conntrack table, seen from the device that opened it. */
  datatype Flow = Flow(dst: Word, dport: nat)

  datatype Signal = ByRange | ByPort | ByLowPort | ByPeers | ByDns | ByTls

  /** `detail` is the address or the port the signal is about. */
  datatype Detection = Detection(signal: Signal, provider: string, detail: nat, confidence: nat)

  // ---------------------------------------------------------------- the tables

  function FindPort(sigs: seq<PortSignature>, proto: Proto, port: nat): (r: Option<PortSignature>)
    ensures r.Some? <==> exists s :: s in sigs && s.proto == proto && s.port == port
    ensures r.Some? ==> r.value in sigs && r.value.proto == proto && r.value.port == port
  {
    if sigs == [] then None
    else if sigs[0].proto == proto && sigs[0].port == port then Some(sigs[0])
    else FindPort(sigs[1..], proto, port)
  }

  predicate RangeHit(r: Range, dst: Word) {
    r.base < 0x1_0000_0000 && IpInCidr(PartsOf(dst), PartsOf(r.base), Some(r.prefix))
  }

  lemma RangeHitIff(r: Range, dst: Word)
    requires r.base < 0x1_0000_0000
    ensures RangeHit(r, dst) <==> InPrefix(dst, r.base, r.prefix)
  {
    PartsInverse(dst);
    PartsInverse(r.base);
    IpInCidrIff(PartsOf(dst), PartsOf(r.base), Some(r.prefix));
  }

  function FindRange(ranges: seq<Range>, dst: Word): (r: Option<Range>)
    ensures r.Some? <==> exists x :: x in ranges && RangeHit(x, dst)
    ensures r.Some? ==> r.value in ranges && RangeHit(r.value, dst)
  {
    if ranges == [] then None
    else if RangeHit(ranges[0], dst) then Some(ranges[0])
    else FindRange(ranges[1..], dst)
  }

  /** What the scans match against; they are stated for any tables. */
  datatype Tables = Tables(ports: seq<PortSignature>, detectionOnly: seq<PortSignature>, matchIp: Word -> Option<Range>)

  const TABLES := Tables(VPN_PORT_SIGNATURES, VPN_DETECTION_ONLY_PORT_SIGNATURES, (dst: Word) => FindRange(VPN_IP_RANGES, dst))

  // ---------------------------------------------------------------- one flow

  function UdpSignals(t: Tables, f: Flow): seq<Detection> {
    var range := t.matchIp(f.dst);
    var sig := FindPort(t.ports, Udp, f.dport);
    (if range.Some? then [Detection(ByRange, range.value.provider, f.dst, range.value.weight)] else [])
    + (if sig.Some? then [Detection(ByPort, sig.value.provider, f.dport, sig.value.weight)] else [])
  }

  function TcpSignals(t: Tables, f: Flow): seq<Detection> {
    var sig := FindPort(t.ports, Tcp, f.dport);
    var low := FindPort(t.detectionOnly, Tcp, f.dport);
    if sig.Some? then [Detection(ByPort, sig.value.provider, f.dport, sig.value.weight)]
    else if low.Some? then [Detection(ByLowPort, low.value.provider, f.dport, low.value.weight)]
    else []
  }

  // ---------------------------------------------------------------- many peers on one port

  const COMMON_MULTI_DEST_UDP_PORTS: set<nat> := {53, 67, 68, 123, 443, 5353}

  const MIN_PEERS: nat := 3

  function Peers(flows: seq<Flow>, port: nat): set<Word> {
    set f | f in flows && f.dport == port :: f.dst
  }

  predicate Crowded(flows: seq<Flow>, port: nat) {
    port !in COMMON_MULTI_DEST_UDP_PORTS && |Peers(flows, port)| >= MIN_PEERS
  }

  /** The ports the map met, in the order it met them first. */
  function Ports(flows: seq<Flow>): (ports: seq<nat>)
    ensures forall port :: port in ports ==> port !in COMMON_MULTI_DEST_UDP_PORTS
  {
    if flows == [] then []
    else
      var ports, f := Ports(flows[..|flows| - 1]), flows[|flows| - 1];
      if f.dport in COMMON_MULTI_DEST_UDP_PORTS || f.dport in ports then ports else ports + [f.dport]
  }

  function FirstCrowded(flows: seq<Flow>, ports: seq<nat>): (r: Option<nat>)
    ensures r.None? <==> forall port :: port in ports ==> !Crowded(flows, port)
    ensures r.Some? ==> Crowded(flows, r.value)
  {
    if ports == [] then None
    else if Crowded(flows, ports[0]) then Some(ports[0])
    else FirstCrowded(flows, ports[1..])
  }

  function FlowAnomaly(flows: seq<Flow>): Option<Detection> {
    var port := FirstCrowded(flows, Ports(flows));
    if port.None? then None
    else Some(Detection(ByPeers, "unknown (multi-peer UDP pattern)", port.value, 25))
  }

  lemma {:induction false} PortsIff(flows: seq<Flow>, port: nat)
    ensures port in Ports(flows)
            <==> port !in COMMON_MULTI_DEST_UDP_PORTS && exists f :: f in flows && f.dport == port
  {
    if flows != [] {
      var front, last := flows[..|flows| - 1], flows[|flows| - 1];
      PortsIff(front, port);
      assert flows == front + [last];
      assert forall f :: f in flows <==> f in front || f == last;
    }
  }

  /** An anomaly is reported exactly when some flow's port, not one of the common ones, has three or more peers. */
  lemma AnomalyIff(flows: seq<Flow>)
    ensures FlowAnomaly(flows).Some? <==>
              exists f :: f in flows && f.dport !in {53, 67, 68, 123, 443, 5353} && |Peers(flows, f.dport)| >= 3
  {
    assert forall port :: Crowded(flows, port) <==> port !in {53, 67, 68, 123, 443, 5353} && |Peers(flows, port)| >= 3;
    forall port ensures port in Ports(flows) <==> port !in COMMON_MULTI_DEST_UDP_PORTS && exists f :: f in flows && f.dport == port {
      PortsIff(flows, port);
    }
  }

  lemma PeersGrow(flows: seq<Flow>, i: nat, port: nat)
    requires i < |flows|
    ensures Peers(flows[..i + 1], port) == Peers(flows[..i], port) + if flows[i].dport == port then {flows[i].dst} else {}
  {
    var a, b := flows[..i], flows[..i + 1];
    assert b == a + [flows[i]];
    forall x | x in Peers(a, port)
      ensures x in Peers(b, port)
    {
      var f :| f in a && f.dport == port && f.dst == x;
      assert f in b;
    }
    if flows[i].dport == port { assert flows[i] in b; }
  }

  /** The map of ports to peers after the scan, with its keys in insertion order. */
  method GatherPeers(flows: seq<Flow>) returns (peersByPort: map<nat, set<Word>>, ports: seq<nat>)
    ensures ports == Ports(flows)
    ensures forall port :: port in ports ==> port in peersByPort && peersByPort[port] == Peers(flows, port)
  {
    peersByPort, ports := map[], [];
    var i := 0;
    while i < |flows|
      invariant 0 <= i <= |flows| && ports == Ports(flows[..i])
      invariant forall port :: port in peersByPort <==> port in ports
      invariant forall port :: port in peersByPort ==> peersByPort[port] == Peers(flows[..i], port)
    {
      var f := flows[i];
      assert flows[..i + 1][..i] == flows[..i];
      forall port: nat
        ensures Peers(flows[..i + 1], port) == Peers(flows[..i], port) + if f.dport == port then {f.dst} else {}
      {
        PeersGrow(flows, i, port);
      }
      if f.dport !in COMMON_MULTI_DEST_UDP_PORTS {
        if f.dport !in peersByPort {
          NotMetEmpty(flows[..i], f.dport);
          peersByPort := peersByPort[f.dport := {}];
          ports := ports + [f.dport];
        }
        peersByPort := peersByPort[f.dport := peersByPort[f.dport] + {f.dst}];
      }
      i := i + 1;
    }
    assert flows[..|flows|] == flows;
  }

  lemma NotMetEmpty(flows: seq<Flow>, port: nat)
    requires port !in Ports(flows) && port !in COMMON_MULTI_DEST_UDP_PORTS
    ensures Peers(flows, port) == {}
  {
    PortsIff(flows, port);
  }

  method DetectFlowAnomaly(flows: seq<Flow>) returns (anomaly: Option<Detection>)
    ensures anomaly == FlowAnomaly(flows)
  {
    var peersByPort, ports := GatherPeers(flows);
    var k := 0;
    while k < |ports|
      invariant 0 <= k <= |ports|
      invariant FirstCrowded(flows, ports) == FirstCrowded(flows, ports[k..])
    {
      assert ports[k] in ports && ports[k..][1..] == ports[k + 1..];
      if |peersByPort[ports[k]]| >= MIN_PEERS {
        return Some(Detection(ByPeers, "unknown (multi-peer UDP pattern)", ports[k], 25));
      }
      k := k + 1;
    }
    return None;
  }

  // ---------------------------------------------------------------- one target

  function ScanUdp(t: Tables, flows: seq<Flow>): seq<Detection> {
    if flows == [] then [] else ScanUdp(t, flows[..|flows| - 1]) + UdpSignals(t, flows[|flows| - 1])
  }

  function ScanTcp(t: Tables, flows: seq<Flow>): seq<Detection> {
    if flows == [] then [] else ScanTcp(t, flows[..|flows| - 1]) + TcpSignals(t, flows[|flows| - 1])
  }

  /** A listing that fails counts as an empty one. */
  function Listed(flows: Option<seq<Flow>>): seq<Flow> {
    if flows.Some? then flows.value else []
  }

  /** `others` is what the DNS and TLS stages add. */
  function Detections(t: Tables, udp: seq<Flow>, tcp: seq<Flow>, others: seq<Detection>): seq<Detection> {
    var anomaly := FlowAnomaly(udp);
    ScanUdp(t, udp) + (if anomaly.Some? then [anomaly.value] else []) + ScanTcp(t, tcp) + others
  }

  method PushUdpSignals(t: Tables, f: Flow, before: seq<Detection>) returns (detections: seq<Detection>)
    ensures detections == before + UdpSignals(t, f)
  {
    detections := before;
    var range := t.matchIp(f.dst);
    if range.Some? {
      detections := detections + [Detection(ByRange, range.value.provider, f.dst, range.value.weight)];
    }
    var sig := FindPort(t.ports, Udp, f.dport);
    if sig.Some? {
      detections := detections + [Detection(ByPort, sig.value.provider, f.dport, sig.value.weight)];
    }
  }

  method ScanUdpFlows(t: Tables, flows: seq<Flow>) returns (detections: seq<Detection>)
    ensures detections == ScanUdp(t, flows)
  {
    detections := [];
    var i := 0;
    while i < |flows|
      invariant 0 <= i <= |flows|
      invariant detections == ScanUdp(t, flows[..i])
    {
      var f := flows[i];
      assert flows[..i + 1][..i] == flows[..i];
      detections := PushUdpSignals(t, f, detections);
      i := i + 1;
    }
    assert flows[..|flows|] == flows;
  }

  method ScanTcpFlows(t: Tables, flows: seq<Flow>) returns (detections: seq<Detection>)
    ensures detections == ScanTcp(t, flows)
  {
    detections := [];
    var i := 0;
    while i < |flows|
      invariant 0 <= i <= |flows|
      invariant detections == ScanTcp(t, flows[..i])
    {
      var f := flows[i];
      assert flows[..i + 1][..i] == flows[..i];
      i := i + 1;
      var sig := FindPort(t.ports, Tcp, f.dport);
      if sig.Some? {
        detections := detections + [Detection(ByPort, sig.value.provider, f.dport, sig.value.weight)];
        continue;
      }
      var low := FindPort(t.detectionOnly, Tcp, f.dport);
      if low.Some? {
        detections := detections + [Detection(ByLowPort, low.value.provider, f.dport, low.value.weight)];
      }
    }
    assert flows[..|flows|] == flows;
  }

  method DetectForTarget(t: Tables, udp: Option<seq<Flow>>, tcp: Option<seq<Flow>>, others: seq<Detection>)
    returns (detections: seq<Detection>)
    ensures detections == Detections(t, Listed(udp), Listed(tcp), others)
  {
    detections := ScanUdpFlows(t, Listed(udp));
    var anomaly := DetectFlowAnomaly(Listed(udp));
    if anomaly.Some? { detections := detections + [anomaly.value]; }
    var more := ScanTcpFlows(t, Listed(tcp));
    detections := detections + more + others;
  }

  // ---------------------------------------------------------------- what the report holds

  predicate Reports(ds: seq<Detection>, signal: Signal, detail: nat) {
    exists d :: d in ds && d.signal == signal && d.detail == detail
  }

  lemma ReportsConcat(a: seq<Detection>, b: seq<Detection>, signal: Signal, detail: nat)
    ensures Reports(a + b, signal, detail) <==> Reports(a, signal, detail) || Reports(b, signal, detail)
  {
    if Reports(a, signal, detail) {
      var d :| d in a && d.signal == signal && d.detail == detail;
      assert d in a + b;
    }
    if Reports(b, signal, detail) {
      var d :| d in b && d.signal == signal && d.detail == detail;
      assert d in a + b;
    }
  }

  predicate PortListed(sigs: seq<PortSignature>, proto: Proto, port: nat) {
    exists s :: s in sigs && s.proto == proto && s.port == port
  }

  /** What one UDP flow is reported for: its destination if the matcher knows it, its port if the table lists it. */
  lemma UdpReports(t: Tables, f: Flow, signal: Signal, detail: nat)
    ensures Reports(UdpSignals(t, f), signal, detail)
            <==> || (signal == ByRange && detail == f.dst && t.matchIp(f.dst).Some?)
                 || (signal == ByPort && detail == f.dport && PortListed(t.ports, Udp, f.dport))
  {
    var range, sig := t.matchIp(f.dst), FindPort(t.ports, Udp, f.dport);
    var a := if range.Some? then [Detection(ByRange, range.value.provider, f.dst, range.value.weight)] else [];
    var b := if sig.Some? then [Detection(ByPort, sig.value.provider, f.dport, sig.value.weight)] else [];
    ReportsConcat(a, b, signal, detail);
    OneReport(a, signal, detail);
    OneReport(b, signal, detail);
  }

  lemma OneReport(ds: seq<Detection>, signal: Signal, detail: nat)
    requires |ds| <= 1
    ensures Reports(ds, signal, detail) <==> ds != [] && ds[0].signal == signal && ds[0].detail == detail
  {
    if ds != [] {
      assert ds[0] in ds;
    }
  }

  /** What one TCP flow is reported for: its port, as a signature if the table lists it and otherwise with low confidence
      if the detection-only table does. */
  lemma TcpReports(t: Tables, f: Flow, signal: Signal, detail: nat)
    ensures Reports(TcpSignals(t, f), signal, detail)
            <==> && detail == f.dport
                 && if PortListed(t.ports, Tcp, f.dport) then signal == ByPort
                    else signal == ByLowPort && PortListed(t.detectionOnly, Tcp, f.dport)
  {
    OneReport(TcpSignals(t, f), signal, detail);
  }

  lemma {:induction false} ScanUdpReports(t: Tables, flows: seq<Flow>, signal: Signal, detail: nat)
    ensures Reports(ScanUdp(t, flows), signal, detail) <==> exists f :: f in flows && Reports(UdpSignals(t, f), signal, detail)
  {
    if flows != [] {
      var front, last := flows[..|flows| - 1], flows[|flows| - 1];
      ScanUdpReports(t, front, signal, detail);
      ReportsConcat(ScanUdp(t, front), UdpSignals(t, last), signal, detail);
      assert flows == front + [last];
      assert forall f :: f in flows <==> f in front || f == last;
    }
  }

  lemma {:induction false} ScanTcpReports(t: Tables, flows: seq<Flow>, signal: Signal, detail: nat)
    ensures Reports(ScanTcp(t, flows), signal, detail) <==> exists f :: f in flows && Reports(TcpSignals(t, f), signal, detail)
  {
    if flows != [] {
      var front, last := flows[..|flows| - 1], flows[|flows| - 1];
      ScanTcpReports(t, front, signal, detail);
      ReportsConcat(ScanTcp(t, front), TcpSignals(t, last), signal, detail);
      assert flows == front + [last];
      assert forall f :: f in flows <==> f in front || f == last;
    }
  }

  /** The report of a device, signal by signal: destinations of UDP flows the matcher knows; ports of UDP and TCP flows in
      the table; ports of TCP flows in the detection-only table that are not in the other one; a UDP port with too many
      peers; and what the later stages add. */
  lemma ReportMeans(t: Tables, udp: seq<Flow>, tcp: seq<Flow>, others: seq<Detection>, signal: Signal, detail: nat)
    ensures Reports(Detections(t, udp, tcp, others), signal, detail) <==>
              || Reports(others, signal, detail)
              || (signal == ByRange && exists f :: f in udp && f.dst == detail && t.matchIp(f.dst).Some?)
              || (signal == ByPort && exists f :: f in udp && f.dport == detail && PortListed(t.ports, Udp, detail))
              || (signal == ByPort && exists f :: f in tcp && f.dport == detail && PortListed(t.ports, Tcp, detail))
              || (signal == ByLowPort && !PortListed(t.ports, Tcp, detail) && PortListed(t.detectionOnly, Tcp, detail)
                  && exists f :: f in tcp && f.dport == detail)
              || (signal == ByPeers && FlowAnomaly(udp).Some? && FlowAnomaly(udp).value.detail == detail)
  {
    var anomaly := FlowAnomaly(udp);
    var peers := if anomaly.Some? then [anomaly.value] else [];
    ReportsConcat(ScanUdp(t, udp) + peers + ScanTcp(t, tcp), others, signal, detail);
    ReportsConcat(ScanUdp(t, udp) + peers, ScanTcp(t, tcp), signal, detail);
    ReportsConcat(ScanUdp(t, udp), peers, signal, detail);
    OneReport(peers, signal, detail);
    ScanUdpReports(t, udp, signal, detail);
    ScanTcpReports(t, tcp, signal, detail);
    forall f | f in udp ensures Reports(UdpSignals(t, f), signal, detail)
                                <==> || (signal == ByRange && detail == f.dst && t.matchIp(f.dst).Some?)
                                     || (signal == ByPort && detail == f.dport && PortListed(t.ports, Udp, f.dport)) {
      UdpReports(t, f, signal, detail);
    }
    forall f | f in tcp ensures Reports(TcpSignals(t, f), signal, detail)
                                <==> detail == f.dport && if PortListed(t.ports, Tcp, f.dport) then signal == ByPort
                                     else signal == ByLowPort && PortListed(t.detectionOnly, Tcp, f.dport) {
      TcpReports(t, f, signal, detail);
    }
  }

  /** The port a report names for its peers is one outside the common ones that three or more peers were met on; the
      signal is a weak one. */
  lemma PeersReported(udp: seq<Flow>)
    requires FlowAnomaly(udp).Some?
    ensures var d := FlowAnomaly(udp).value;
            d.signal == ByPeers && d.provider == "unknown (multi-peer UDP pattern)" && d.confidence == 25
    ensures var port := FlowAnomaly(udp).value.detail;
            port !in {53, 67, 68, 123, 443, 5353} && |set f | f in udp && f.dport == port :: f.dst| >= 3
  {
  }

  /** Each reported port carries provider and weight of a table entry for it. */
  lemma {:induction false} PortEntry(t: Tables, flows: seq<Flow>, d: Detection)
    requires d in ScanUdp(t, flows) && d.signal == ByPort
    ensures exists s :: s in t.ports && s.proto == Udp && s.port == d.detail && s.provider == d.provider && s.weight == d.confidence
  {
    var front, last := flows[..|flows| - 1], flows[|flows| - 1];
    if d in ScanUdp(t, front) {
      PortEntry(t, front, d);
    }
  }

  lemma {:induction false} TcpPortEntry(t: Tables, flows: seq<Flow>, d: Detection)
    requires d in ScanTcp(t, flows)
    ensures d.signal == ByPort || d.signal == ByLowPort
    ensures exists s :: s in (if d.signal == ByPort then t.ports else t.detectionOnly) && s.proto == Tcp && s.port == d.detail
                        && s.provider == d.provider && s.weight == d.confidence
  {
    var front, last := flows[..|flows| - 1], flows[|flows| - 1];
    if d in ScanTcp(t, front) {
      TcpPortEntry(t, front, d);
    }
  }

  lemma {:induction false} RangeEntry(t: Tables, flows: seq<Flow>, d: Detection)
    requires d in ScanUdp(t, flows) && d.signal == ByRange
    ensures d.detail < 0x1_0000_0000 && t.matchIp(d.detail).Some?
    ensures t.matchIp(d.detail).value.provider == d.provider && t.matchIp(d.detail).value.weight == d.confidence
  {
    var front, last := flows[..|flows| - 1], flows[|flows| - 1];
    if d in ScanUdp(t, front) {
      RangeEntry(t, front, d);
    }
  }
}
