/** firewall-sync-signature.js: the remembered summary of a policy. The JSON text is kept as the structured
    value it serialises. */
module Signature {
  import opened Options
  import opened Policy

  /** A target reduced to the fields rule generation reads. */
  datatype Key = Key(
    deviceId: string,
    action: Action,
    ipAddress: Option<nat>,
    ipv6Address: Option<nat>,
    macAddress: Option<string>,
    vpnBlock: bool,
    quicBlock: bool)

  datatype Summary = Summary(
    targets: seq<Key>,
    dnsRedirectIp: Option<nat>,
    dnsRedirectIpv6: Option<nat>,
    enableDnsRedirect: bool,
    enableQuicBlockGlobal: bool,
    enableDohBlock: bool,
    enableIpv6: bool)

  function KeyOf(t: Target): Key {
    Key(t.deviceId, t.action, t.ipAddress, t.ipv6Address, t.macAddress, t.vpnBlock, t.quicBlock)
  }

  function KeysOf(ts: seq<Target>): (ks: seq<Key>)
    ensures |ks| == |ts|
  {
    seq(|ts|, i requires 0 <= i < |ts| => KeyOf(ts[i]))
  }

  /** The order of strings by code unit. */
  predicate Less(a: string, b: string) {
    if b == "" then false
    else if a == "" then true
    else a[0] < b[0] || (a[0] == b[0] && Less(a[1..], b[1..]))
  }

  lemma {:induction false} LessTotal(a: string, b: string)
    ensures a == b || Less(a, b) || Less(b, a)
    ensures !(Less(a, b) && Less(b, a)) && !Less(a, a)
  {
    if a != "" && b != "" {
      LessTotal(a[1..], b[1..]);
      LessTotal(a[1..], a[1..]);
      assert a == [a[0]] + a[1..] && b == [b[0]] + b[1..];
    } else if a != "" {
      LessTotal(a[1..], a[1..]);
    }
  }

  lemma {:induction false} LessTransitive(a: string, b: string, c: string)
    requires !Less(b, a) && !Less(c, b)
    ensures !Less(c, a)
  {
    if a != "" && b != "" && c != "" && a[0] == b[0] == c[0] {
      LessTransitive(a[1..], b[1..], c[1..]);
    }
  }

  /** The stable sort by device id: a key goes before the first one that is not smaller. */
  function Insert(k: Key, sorted: seq<Key>): (r: seq<Key>)
    ensures |r| == |sorted| + 1
  {
    if sorted == [] || !Less(sorted[0].deviceId, k.deviceId) then [k] + sorted
    else [sorted[0]] + Insert(k, sorted[1..])
  }

  function Sort(ks: seq<Key>): (r: seq<Key>)
    ensures |r| == |ks|
  {
    if ks == [] then [] else Insert(ks[0], Sort(ks[1..]))
  }

  function SummaryOf(input: Inputs): Summary {
    Summary(Sort(KeysOf(input.targets)), input.dnsRedirectIp, input.dnsRedirectIpv6,
            input.enableDnsRedirect, input.enableQuicBlockGlobal, input.enableDohBlock, input.enableIpv6)
  }

  /** The keys of one device, in order. */
  function ForDevice(ks: seq<Key>, id: string): seq<Key> {
    if ks == [] then []
    else if ks[0].deviceId == id then [ks[0]] + ForDevice(ks[1..], id)
    else ForDevice(ks[1..], id)
  }

  predicate Sorted(ks: seq<Key>) {
    forall i, j :: 0 <= i < j < |ks| ==> !Less(ks[j].deviceId, ks[i].deviceId)
  }

  lemma {:induction false} InsertKeeps(k: Key, sorted: seq<Key>)
    ensures multiset(Insert(k, sorted)) == multiset{k} + multiset(sorted)
  {
    if sorted != [] && Less(sorted[0].deviceId, k.deviceId) {
      InsertKeeps(k, sorted[1..]);
    }
    if sorted != [] { assert sorted == [sorted[0]] + sorted[1..]; }
  }

  lemma {:induction false} InsertSorted(k: Key, sorted: seq<Key>)
    requires Sorted(sorted)
    ensures Sorted(Insert(k, sorted))
  {
    if sorted == [] {
    } else if !Less(sorted[0].deviceId, k.deviceId) {
      forall j | 0 <= j < |sorted| ensures !Less(sorted[j].deviceId, k.deviceId) {
        if j > 0 {
          LessTransitive(k.deviceId, sorted[0].deviceId, sorted[j].deviceId);
        }
      }
    } else {
      var rest := Insert(k, sorted[1..]);
      InsertSorted(k, sorted[1..]);
      InsertKeeps(k, sorted[1..]);
      LessTotal(sorted[0].deviceId, k.deviceId);
      forall j | 0 <= j < |rest| ensures !Less(rest[j].deviceId, sorted[0].deviceId) {
        assert rest[j] in multiset(rest);
      }
    }
  }

  lemma {:induction false} InsertStable(k: Key, sorted: seq<Key>, id: string)
    requires Sorted(sorted)
    ensures ForDevice(Insert(k, sorted), id) == ForDevice([k] + sorted, id)
  {
    assert ([k] + sorted)[1..] == sorted;
    if sorted != [] && Less(sorted[0].deviceId, k.deviceId) {
      InsertStable(k, sorted[1..], id);
      assert ([k] + sorted[1..])[1..] == sorted[1..];
      assert Insert(k, sorted)[1..] == Insert(k, sorted[1..]);
      LessTotal(sorted[0].deviceId, k.deviceId);
    }
  }

  /** Sorting orders by device id, keeps every key, and keeps the order within a device. */
  lemma {:induction false} SortStable(ks: seq<Key>, id: string)
    ensures Sorted(Sort(ks)) && multiset(Sort(ks)) == multiset(ks)
    ensures ForDevice(Sort(ks), id) == ForDevice(ks, id)
  {
    if ks != [] {
      SortStable(ks[1..], id);
      InsertKeeps(ks[0], Sort(ks[1..]));
      InsertSorted(ks[0], Sort(ks[1..]));
      InsertStable(ks[0], Sort(ks[1..]), id);
      assert ([ks[0]] + Sort(ks[1..]))[1..] == Sort(ks[1..]);
      assert ks == [ks[0]] + ks[1..];
    }
  }

  /** The two lists hold the same keys, in the same order, for every device. */
  ghost predicate SameDevices(a: seq<Key>, b: seq<Key>) {
    forall id :: ForDevice(a, id) == ForDevice(b, id)
  }

  lemma {:induction false} ForDeviceFirst(ks: seq<Key>, id: string)
    ensures ForDevice(ks, id) != [] ==> exists k :: k in ks && k.deviceId == id
    ensures forall k :: k in ks && k.deviceId == id ==> ForDevice(ks, id) != []
  {
    if ks != [] {
      ForDeviceFirst(ks[1..], id);
      assert ks[0] in ks && forall k :: k in ks <==> k == ks[0] || k in ks[1..];
    }
  }

  /** A sorted list is determined by what each device has in it. */
  lemma {:induction false} SortedUnique(a: seq<Key>, b: seq<Key>)
    requires Sorted(a) && Sorted(b)
    requires SameDevices(a, b)
    ensures a == b
  {
    if a == [] || b == [] {
      var id := if a != [] then a[0].deviceId else if b != [] then b[0].deviceId else "";
      assert ForDevice(a, id) == ForDevice(b, id);
    } else {
      SameHead(a, b);
      forall id ensures ForDevice(a[1..], id) == ForDevice(b[1..], id) {
        assert ForDevice(a, id) == ForDevice(b, id);
        if id == a[0].deviceId {
          assert ForDevice(a, id)[1..] == ForDevice(a[1..], id);
          assert ForDevice(b, id)[1..] == ForDevice(b[1..], id);
        }
      }
      SortedUnique(a[1..], b[1..]);
      assert a == [a[0]] + a[1..] && b == [b[0]] + b[1..];
    }
  }

  lemma SameHead(a: seq<Key>, b: seq<Key>)
    requires a != [] && b != [] && Sorted(a) && Sorted(b)
    requires SameDevices(a, b)
    ensures a[0] == b[0]
  {
    var i, j := a[0].deviceId, b[0].deviceId;
    assert ForDevice(a, i) == ForDevice(b, i) && ForDevice(a, j) == ForDevice(b, j);
    ForDeviceFirst(b, i);
    ForDeviceFirst(a, j);
    LessTotal(i, j);
    assert i == j;
    assert ForDevice(a, i)[0] == a[0] && ForDevice(b, i)[0] == b[0];
  }

  lemma SortEqualIff(a: seq<Key>, b: seq<Key>)
    ensures Sort(a) == Sort(b) <==> SameDevices(a, b)
  {
    SortStable(a, "");
    SortStable(b, "");
    forall id
      ensures ForDevice(Sort(a), id) == ForDevice(a, id) && ForDevice(Sort(b), id) == ForDevice(b, id)
    {
      SortStable(a, id);
      SortStable(b, id);
    }
    if SameDevices(a, b) {
      SortedUnique(Sort(a), Sort(b));
    }
  }

  /** Two policies have the same signature exactly when their switches agree and every device carries the same
      enforcement fields: the order in which different devices are listed does not count. */
  lemma SummaryEqualIff(a: Inputs, b: Inputs)
    ensures SummaryOf(a) == SummaryOf(b) <==>
              && a.(targets := []) == b.(targets := [])
              && SameDevices(KeysOf(a.targets), KeysOf(b.targets))
  {
    SortEqualIff(KeysOf(a.targets), KeysOf(b.targets));
  }

  /** Equal signatures list the same targets, seen through the fields rule generation reads. */
  lemma SummaryKeepsKeys(a: Inputs, b: Inputs)
    requires SummaryOf(a) == SummaryOf(b)
    ensures multiset(KeysOf(a.targets)) == multiset(KeysOf(b.targets))
  {
    SortStable(KeysOf(a.targets), "");
    SortStable(KeysOf(b.targets), "");
  }
}
