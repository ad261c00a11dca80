/** The encrypted-DNS detector: two passes over the TCP connections of a device (doh-detector.js). */
module DohDetector {
  import opened Options
  import opened Bits
  import opened Patterns
  import opened Policy
  import opened VpnDetector
  import opened DohWindow

  datatype DnsSignal = ByDotPort | ByDohIp | ByInterval | BySni

  datatype DnsDetection = DnsDetection(signal: DnsSignal, provider: string, detail: nat, confidence: nat)

  /** Windows are kept per device and destination. */
  type Windows = map<(string, Word), seq<int>>

  function FindProvider(providers: seq<Provider>, ip: nat): (r: Option<string>)
    ensures r.Some? <==> exists q :: q in providers && q.ip == ip
  {
    if providers == [] then None
    else if providers[0].ip == ip then Some(providers[0].name)
    else FindProvider(providers[1..], ip)
  }

  function MatchDohIp(ip: nat, reputation: seq<nat>): (r: Option<string>)
    ensures r.Some? <==> DohListed(ip, reputation)
  {
    var hit := FindProvider(DOH_PROVIDER_IPS, ip);
    if hit.Some? then hit else if ip in reputation then Some("operator-reputation-list") else None
  }

  // ---------------------------------------------------------------- the two passes

  datatype Pass = Pass(detections: seq<DnsDetection>, windows: Windows, matched: set<Word>)

  function WindowOf(ws: Windows, device: string, dst: Word): seq<int> {
    if (device, dst) in ws then ws[(device, dst)] else []
  }

  /** What the first pass does with a flow when the clock reads `now`; `provider` is what its address matches. */
  function FirstStep(p: Pass, device: string, f: Flow, now: int, provider: Option<string>): Pass {
    if f.dport in DOT_PORTS then p.(detections := p.detections + [DnsDetection(ByDotPort, "DoT", f.dport, 95)])
    else if f.dport != 443 then p
    else
      var ws := p.windows[(device, f.dst) := Recorded(WindowOf(p.windows, device, f.dst), now)];
      if provider.None? then p.(windows := ws)
      else Pass(p.detections + [DnsDetection(ByDohIp, provider.value, f.dst, 90)], ws, p.matched + {f.dst})
  }

  function SecondStep(p: Pass, device: string, f: Flow): Pass {
    if f.dport != 443 || f.dst in p.matched || Verdict(WindowOf(p.windows, device, f.dst)).None? then p
    else p.(detections := p.detections + [DnsDetection(ByInterval, "unknown (regular-interval TLS/443)", f.dst, 20)],
            matched := p.matched + {f.dst})
  }

  /** The first pass over the first flows; `match_` stands for the address lists. */
  function First(ws: Windows, device: string, flows: seq<Flow>, nows: seq<int>, match_: Word -> Option<string>): Pass
    requires |nows| >= |flows|
  {
    if flows == [] then Pass([], ws, {})
    else
      var i := |flows| - 1;
      FirstStep(First(ws, device, flows[..i], nows, match_), device, flows[i], nows[i], match_(flows[i].dst))
  }

  function Second(p: Pass, device: string, flows: seq<Flow>): Pass {
    if flows == [] then p
    else SecondStep(Second(p, device, flows[..|flows| - 1]), device, flows[|flows| - 1])
  }

  class DohDetector {
    var observations: Windows

    method RecordObservation(device: string, dst: Word, now: int)
      modifies this
      ensures observations == old(observations)[(device, dst) := Recorded(WindowOf(old(observations), device, dst), now)]
    {
      var list := if (device, dst) in observations then observations[(device, dst)] else [];
      var recorded := Record(list, now);
      observations := observations[(device, dst) := recorded];
    }

    method DetectBehavioralInterval(device: string, dst: Word) returns (mean: Option<real>)
      ensures mean == Verdict(WindowOf(observations, device, dst))
    {
      var list := if (device, dst) in observations then observations[(device, dst)] else [];
      mean := DetectInterval(list);
    }

    method FirstPass(device: string, flows: seq<Flow>, nows: seq<int>, match_: Word -> Option<string>)
      returns (detections: seq<DnsDetection>, matched: set<Word>)
      requires |nows| >= |flows|
      modifies this
      ensures Pass(detections, observations, matched) == First(old(observations), device, flows, nows, match_)
    {
      detections, matched := [], {};
      var i := 0;
      while i < |flows|
        invariant 0 <= i <= |flows|
        invariant Pass(detections, observations, matched) == First(old(observations), device, flows[..i], nows, match_)
      {
        var f := flows[i];
        assert flows[..i + 1][..i] == flows[..i];
        i := i + 1;
        if f.dport in DOT_PORTS {
          detections := detections + [DnsDetection(ByDotPort, "DoT", f.dport, 95)];
          continue;
        }
        if f.dport != 443 { continue; }
        RecordObservation(device, f.dst, nows[i - 1]);
        var provider := match_(f.dst);
        if provider.Some? {
          detections := detections + [DnsDetection(ByDohIp, provider.value, f.dst, 90)];
          matched := matched + {f.dst};
        }
      }
      assert flows[..|flows|] == flows;
    }

    method SecondPass(device: string, flows: seq<Flow>, detections0: seq<DnsDetection>, matched0: set<Word>)
      returns (detections: seq<DnsDetection>, matched: set<Word>)
      ensures Pass(detections, observations, matched) == Second(Pass(detections0, observations, matched0), device, flows)
    {
      detections, matched := detections0, matched0;
      var i := 0;
      while i < |flows|
        invariant 0 <= i <= |flows|
        invariant Pass(detections, observations, matched) == Second(Pass(detections0, observations, matched0), device, flows[..i])
      {
        var f := flows[i];
        assert flows[..i + 1][..i] == flows[..i];
        i := i + 1;
        if f.dport != 443 || f.dst in matched { continue; }
        var mean := DetectBehavioralInterval(device, f.dst);
        if mean.Some? {
          detections := detections + [DnsDetection(ByInterval, "unknown (regular-interval TLS/443)", f.dst, 20)];
          matched := matched + {f.dst};
        }
      }
      assert flows[..|flows|] == flows;
    }

    /** `nows[i]` is what the clock reads when flow i is looked at; a listing that fails counts as an empty one, and
        `sniffed` is what the optional DNS sniff adds. */
    method DetectForTarget(device: string, tcp: Option<seq<Flow>>, nows: seq<int>, reputation: seq<nat>,
                           sniffed: seq<DnsDetection>)
      returns (detections: seq<DnsDetection>)
      requires |nows| >= |Listed(tcp)|
      modifies this
      ensures var flows := Listed(tcp);
              var end := Second(First(old(observations), device, flows, nows, Matcher(reputation)), device, flows);
              detections == end.detections + sniffed && observations == end.windows
    {
      var matched;
      detections, matched := FirstPass(device, Listed(tcp), nows, Matcher(reputation));
      detections, matched := SecondPass(device, Listed(tcp), detections, matched);
      detections := detections + sniffed;
    }
  }

  function Matcher(reputation: seq<nat>): Word -> Option<string> {
    (dst: Word) => MatchDohIp(dst, reputation)
  }

  // ---------------------------------------------------------------- what the passes report

  predicate Reports(ds: seq<DnsDetection>, signal: DnsSignal, detail: nat) {
    exists d :: d in ds && d.signal == signal && d.detail == detail
  }

  lemma ReportsPush(ds: seq<DnsDetection>, d: DnsDetection, signal: DnsSignal, detail: nat)
    ensures Reports(ds + [d], signal, detail) <==> Reports(ds, signal, detail) || (d.signal == signal && d.detail == detail)
  {
    if Reports(ds, signal, detail) {
      var x :| x in ds && x.signal == signal && x.detail == detail;
      assert x in ds + [d];
    }
    assert d in ds + [d];
  }

  /** The first pass reports a destination as a resolver exactly when a flow on 443 goes to a matched address, and
      the port exactly when a flow uses it. */
  lemma {:induction false} FirstReports(ws: Windows, device: string, flows: seq<Flow>, nows: seq<int>,
                                        match_: Word -> Option<string>, dst: Word)
    requires |nows| >= |flows|
    ensures var p := First(ws, device, flows, nows, match_);
            && (Reports(p.detections, ByDohIp, dst) <==> dst in p.matched)
            && (dst in p.matched <==> exists f :: f in flows && f.dport == 443 && f.dst == dst && match_(dst).Some?)
            && !Reports(p.detections, ByInterval, dst)
    ensures forall port: nat :: Reports(First(ws, device, flows, nows, match_).detections, ByDotPort, port)
                                <==> port in DOT_PORTS && exists f :: f in flows && f.dport == port
  {
    if flows != [] {
      var front, f := flows[..|flows| - 1], flows[|flows| - 1];
      FirstReports(ws, device, front, nows, match_, dst);
      assert flows == front + [f];
      assert forall x :: x in flows <==> x in front || x == f;
      var p := First(ws, device, front, nows, match_);
      var dot := DnsDetection(ByDotPort, "DoT", f.dport, 95);
      ReportsPush(p.detections, dot, ByDohIp, dst);
      ReportsPush(p.detections, dot, ByInterval, dst);
      forall port: nat ensures Reports(p.detections + [dot], ByDotPort, port)
                               <==> Reports(p.detections, ByDotPort, port) || f.dport == port {
        ReportsPush(p.detections, dot, ByDotPort, port);
      }
      if match_(f.dst).Some? {
        var doh := DnsDetection(ByDohIp, match_(f.dst).value, f.dst, 90);
        ReportsPush(p.detections, doh, ByDohIp, dst);
        ReportsPush(p.detections, doh, ByInterval, dst);
        forall port: nat ensures Reports(p.detections + [doh], ByDotPort, port) <==> Reports(p.detections, ByDotPort, port) {
          ReportsPush(p.detections, doh, ByDotPort, port);
        }
      }
    }
  }

  /** Each entry of a report carries what its signal stands for: the port, the provider the address list names for the
      destination, or the behaviour of its window, with the weight of that signal. */
  ghost predicate Labelled(flows: seq<Flow>, match_: Word -> Option<string>, d: DnsDetection) {
    match d.signal
    case ByDotPort => d.provider == "DoT" && d.confidence == 95 && exists f :: f in flows && f.dport == d.detail
    case ByDohIp =>
      d.confidence == 90 && exists f :: f in flows && f.dport == 443 && f.dst == d.detail && match_(f.dst) == Some(d.provider)
    case ByInterval =>
      && d.provider == "unknown (regular-interval TLS/443)" && d.confidence == 20
      && exists f :: f in flows && f.dport == 443 && f.dst == d.detail
    case _ => true
  }

  lemma {:induction false} FirstLabels(ws: Windows, device: string, flows: seq<Flow>, nows: seq<int>,
                                       match_: Word -> Option<string>)
    requires |nows| >= |flows|
    ensures forall d :: d in First(ws, device, flows, nows, match_).detections ==> Labelled(flows, match_, d)
  {
    if flows != [] {
      var front, f := flows[..|flows| - 1], flows[|flows| - 1];
      FirstLabels(ws, device, front, nows, match_);
      assert forall x :: x in front ==> x in flows;
      assert f in flows;
    }
  }

  lemma {:induction false} SecondAdds(p: Pass, device: string, seen: seq<Flow>, flows: seq<Flow>, match_: Word -> Option<string>)
    requires forall f :: f in seen ==> f in flows
    requires forall d :: d in p.detections ==> Labelled(flows, match_, d)
    ensures forall d :: d in Second(p, device, seen).detections ==> Labelled(flows, match_, d)
    decreases |seen|
  {
    if seen != [] {
      SecondAdds(p, device, seen[..|seen| - 1], flows, match_);
      assert seen[|seen| - 1] in flows;
    }
  }

  /** So does every entry of both passes. */
  lemma ReportLabels(ws: Windows, device: string, flows: seq<Flow>, nows: seq<int>, match_: Word -> Option<string>)
    requires |nows| >= |flows|
    ensures forall d :: d in Second(First(ws, device, flows, nows, match_), device, flows).detections ==>
              Labelled(flows, match_, d)
  {
    FirstLabels(ws, device, flows, nows, match_);
    SecondAdds(First(ws, device, flows, nows, match_), device, flows, flows, match_);
  }

  /** The second pass adds a behavioural report for a destination exactly when the first did not match it, it was
      contacted on 443 and its window is regular; it adds nothing else and looks no further once it has reported. */
  lemma {:induction false} SecondReports(p: Pass, device: string, flows: seq<Flow>, dst: Word)
    requires !Reports(p.detections, ByInterval, dst)
    ensures var q := Second(p, device, flows);
            && q.windows == p.windows
            && (Reports(q.detections, ByInterval, dst)
                <==> dst !in p.matched && Verdict(WindowOf(p.windows, device, dst)).Some?
                     && exists f :: f in flows && f.dport == 443 && f.dst == dst)
            && (dst in q.matched <==> dst in p.matched || Reports(q.detections, ByInterval, dst))
    ensures forall s: DnsSignal, x: nat :: !s.ByInterval? ==>
              (Reports(Second(p, device, flows).detections, s, x) <==> Reports(p.detections, s, x))
  {
    if flows != [] {
      var front, f := flows[..|flows| - 1], flows[|flows| - 1];
      SecondReports(p, device, front, dst);
      assert flows == front + [f];
      assert forall x :: x in flows <==> x in front || x == f;
      var q := Second(p, device, front);
      var d := DnsDetection(ByInterval, "unknown (regular-interval TLS/443)", f.dst, 20);
      ReportsPush(q.detections, d, ByInterval, dst);
      forall s: DnsSignal, x: nat | !s.ByInterval?
        ensures Reports(q.detections + [d], s, x) <==> Reports(q.detections, s, x)
      {
        ReportsPush(q.detections, d, s, x);
      }
    }
  }

  /** The clock readings of the flows the first pass records for a destination. */
  function TimesOf(flows: seq<Flow>, nows: seq<int>, dst: Word): seq<int>
    requires |nows| >= |flows|
  {
    if flows == [] then []
    else
      var i := |flows| - 1;
      TimesOf(flows[..i], nows, dst) + if flows[i].dport == 443 && flows[i].dst == dst then [nows[i]] else []
  }

  /** A pass appends to each window of the device the times it contacted that destination on 443 and keeps the last
      eight; the windows of other devices are not touched. */
  lemma {:induction false} WindowsAfter(ws: Windows, device: string, flows: seq<Flow>, nows: seq<int>,
                                        match_: Word -> Option<string>, who: string, dst: Word)
    requires |nows| >= |flows| && |WindowOf(ws, who, dst)| <= MAX_HISTORY
    ensures WindowOf(First(ws, device, flows, nows, match_).windows, who, dst)
            == if who == device then Last(WindowOf(ws, who, dst) + TimesOf(flows, nows, dst), MAX_HISTORY)
               else WindowOf(ws, who, dst)
  {
    var before := WindowOf(ws, who, dst);
    if flows == [] {
      assert before + [] == before;
    } else {
      var i := |flows| - 1;
      var times := TimesOf(flows[..i], nows, dst);
      var p := First(ws, device, flows[..i], nows, match_);
      WindowsAfter(ws, device, flows[..i], nows, match_, who, dst);
      WindowStep(p, device, flows[i], nows[i], match_(flows[i].dst), who, dst);
      LastOfLast(before + times, nows[i]);
      assert (before + times) + [nows[i]] == before + (times + [nows[i]]);
      assert times + [] == times;
    }
  }

  lemma WindowStep(p: Pass, device: string, f: Flow, now: int, provider: Option<string>, who: string, dst: Word)
    ensures WindowOf(FirstStep(p, device, f, now, provider).windows, who, dst)
            == if who == device && f.dport == 443 && f.dst == dst then Recorded(WindowOf(p.windows, who, dst), now)
               else WindowOf(p.windows, who, dst)
  {
    assert 443 !in DOT_PORTS;
  }

  lemma LastOfLast(list: seq<int>, now: int)
    ensures Recorded(Last(list, MAX_HISTORY), now) == Last(list + [now], MAX_HISTORY)
  {
  }
}
