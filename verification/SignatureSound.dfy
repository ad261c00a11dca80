/** Equal signatures mean equal enforcement: nothing rule generation reads is missing from the signature. */
module SignatureSound {
  import opened Policy
  import opened Signature
  import opened Netfilter
  import opened IptablesRules

  /** A target with the given key and nothing else. */
  function TargetOf(k: Key): Target {
    Target(k.deviceId, "", k.action, k.ipAddress, k.ipv6Address, k.macAddress, k.vpnBlock, k.quicBlock, [])
  }

  lemma KeyDeterminesRules(t: Target, quicGlobal: bool, ipv6: bool)
    ensures TargetRules(TargetOf(KeyOf(t)), quicGlobal, ipv6) == TargetRules(t, quicGlobal, ipv6)
  {
    var u := TargetOf(KeyOf(t));
    assert AddressOf(u, ipv6) == AddressOf(t, ipv6);
    assert BlockRules(u, ipv6) == BlockRules(t, ipv6);
    assert VpnRules(u, ipv6) == VpnRules(t, ipv6);
    assert QuicRules(u, ipv6) == QuicRules(t, ipv6);
  }

  /** The rules of a list of keys, for any rule generator `f`. */
  function Flatten<R>(ks: seq<Key>, f: Key -> seq<R>): seq<R> {
    if ks == [] then [] else f(ks[0]) + Flatten(ks[1..], f)
  }

  lemma {:induction false} FlattenInsert<R>(k: Key, ks: seq<Key>, f: Key -> seq<R>)
    ensures multiset(Flatten(Insert(k, ks), f)) == multiset(f(k)) + multiset(Flatten(ks, f))
  {
    if ks == [] || !Less(ks[0].deviceId, k.deviceId) {
      assert ([k] + ks)[1..] == ks;
    } else {
      FlattenInsert(k, ks[1..], f);
      assert Insert(k, ks)[1..] == Insert(k, ks[1..]);
    }
  }

  lemma {:induction false} FlattenSort<R>(ks: seq<Key>, f: Key -> seq<R>)
    ensures multiset(Flatten(Sort(ks), f)) == multiset(Flatten(ks, f))
  {
    if ks != [] {
      FlattenSort(ks[1..], f);
      FlattenInsert(ks[0], Sort(ks[1..]), f);
    }
  }

  function KeyRules(quicGlobal: bool, ipv6: bool): Key -> seq<Rule> {
    (k: Key) => TargetRules(TargetOf(k), quicGlobal, ipv6)
  }

  lemma {:induction false} ChainFromKeys(ts: seq<Target>, quicGlobal: bool, ipv6: bool)
    ensures BlockChain(ts, quicGlobal, ipv6) == Flatten(KeysOf(ts), KeyRules(quicGlobal, ipv6))
  {
    if ts != [] {
      ChainFromKeys(ts[1..], quicGlobal, ipv6);
      KeyDeterminesRules(ts[0], quicGlobal, ipv6);
      assert KeysOf(ts)[1..] == KeysOf(ts[1..]);
    }
  }

  /** Policies with the same signature generate the same rules up to order. */
  lemma SameSummarySameRules(a: Inputs, b: Inputs)
    requires SummaryOf(a) == SummaryOf(b)
    ensures multiset(ChainOf(a)) == multiset(ChainOf(b))
  {
    var f := KeyRules(a.enableQuicBlockGlobal, a.enableIpv6);
    ChainFromKeys(a.targets, a.enableQuicBlockGlobal, a.enableIpv6);
    ChainFromKeys(b.targets, a.enableQuicBlockGlobal, a.enableIpv6);
    FlattenSort(KeysOf(a.targets), f);
    FlattenSort(KeysOf(b.targets), f);
  }

  lemma KeyDecides(t: Target, u: Target, quicGlobal: bool, p: Packet)
    requires KeyOf(t) == KeyOf(u)
    ensures TargetDrops(t, quicGlobal, p) == TargetDrops(u, quicGlobal, p)
  {
    assert AddressOf(t, p.ipv6) == AddressOf(u, p.ipv6);
  }

  lemma KeyMoves(a: seq<Target>, b: seq<Target>, t: Target) returns (u: Target)
    requires multiset(KeysOf(a)) == multiset(KeysOf(b)) && t in a
    ensures u in b && KeyOf(u) == KeyOf(t)
  {
    var i :| 0 <= i < |a| && a[i] == t;
    assert KeysOf(a)[i] in multiset(KeysOf(a));
    assert KeyOf(t) in KeysOf(b);
    var j :| 0 <= j < |b| && KeysOf(b)[j] == KeyOf(t);
    u := b[j];
  }

  /** Two policies for one device each have different signatures when rule generation reads different fields. */
  lemma OneKeyDiffers(a: Inputs, b: Inputs)
    requires |a.targets| == |b.targets| == 1 && KeyOf(a.targets[0]) != KeyOf(b.targets[0])
    ensures SummaryOf(a) != SummaryOf(b)
  {
    if SummaryOf(a) == SummaryOf(b) {
      SummaryKeepsKeys(a, b);
      var u := KeyMoves(a.targets, b.targets, a.targets[0]);
    }
  }

  /** Policies with the same signature drop the same packets. */
  lemma SameSummarySameDrops(a: Inputs, b: Inputs, reputation: seq<nat>, p: Packet)
    requires SummaryOf(a) == SummaryOf(b)
    ensures Drops(a, reputation, p) == Drops(b, reputation, p)
  {
    SummaryKeepsKeys(a, b);
    var q := a.enableQuicBlockGlobal;
    if t :| t in a.targets && TargetDrops(t, q, p) {
      var u := KeyMoves(a.targets, b.targets, t);
      KeyDecides(t, u, q, p);
    }
    if t :| t in b.targets && TargetDrops(t, q, p) {
      var u := KeyMoves(b.targets, a.targets, t);
      KeyDecides(t, u, q, p);
    }
  }
}
