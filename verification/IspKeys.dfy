/** The BNG controller files each state under the BNG's name, a colon and the subscriber: when those keys tell states
    apart, and when every policy keeps the state the controller holds for it. */
module IspKeys {
  import opened Options
  import opened IspStore
  import opened IspConsistency
  import opened IspPolicy

  // ---------------------------------------------------------------- the keys

  /** One name is another one followed by a colon and more. */
  predicate Extends(b: string, a: string) {
    |a| < |b| && b[..|a|] == a && b[|a|] == ':'
  }

  predicate Apart(names: set<string>) {
    forall a, b :: a in names && b in names ==> !Extends(b, a)
  }

  /** Over all subscribers, no two states of these BNGs share a key. */
  ghost predicate KeysInjective(names: set<string>) {
    forall a, b, x: string, y: string :: a in names && b in names && BngKey(a, x) == BngKey(b, y) ==> a == b && x == y
  }

  lemma SharedKey(a: string, x: string, b: string, y: string)
    requires BngKey(a, x) == BngKey(b, y) && |a| <= |b|
    ensures (a == b && x == y) || Extends(b, a)
  {
    var k := BngKey(a, x);
    assert k[..|a|] == a && k[|a|] == ':' && k[|a| + 1..] == x;
    assert k[..|b|] == b && k[|b| + 1..] == y;
    if |a| < |b| {
      assert b[|a|] == k[|a|] && b[..|a|] == k[..|a|];
    }
  }

  /** If one name extends another, these two subscribers share a key. */
  lemma ExtendedCollides(a: string, b: string, y: string)
    requires Extends(b, a)
    ensures BngKey(a, b[|a| + 1..] + [':'] + y) == BngKey(b, y)
  {
    var z := b[|a| + 1..];
    assert b == a + [':'] + z;
    assert a + [':'] + (z + [':'] + y) == (a + [':'] + z) + [':'] + y;
  }

  /** A colon in a BNG name does no harm by itself: keys collide exactly if one name in use extends another. */
  lemma KeysInjectiveIff(names: set<string>)
    ensures KeysInjective(names) <==> Apart(names)
  {
    if KeysInjective(names) {
      forall a, b | a in names && b in names ensures !Extends(b, a) {
        if Extends(b, a) { ExtendedCollides(a, b, ""); }
      }
    } else {
      var a, b, x: string, y: string :|
        a in names && b in names && BngKey(a, x) == BngKey(b, y) && !(a == b && x == y);
      if |a| <= |b| {
        SharedKey(a, x, b, y);
      } else {
        SharedKey(b, y, a, x);
      }
    }
  }

  // ---------------------------------------------------------------- policies and states

  ghost predicate StatesKeyed(names: set<string>, t: Tenant) {
    forall k :: k in t.bngState ==>
      && k == BngKey(t.bngState[k].bngId, t.bngState[k].subscriberId)
      && t.bngState[k].bngId in names && t.bngState[k].enforcementIp != ""
  }

  /** Each policy names one of the three actions, its state records that action and is the one the controller holds at
      its key. */
  ghost predicate PoliciesAgree(t: Tenant) {
    forall s :: s in t.policies ==>
      var p := t.policies[s];
      && p.subscriberId == s && p.bngState.subscriberId == s
      && Known(Some(p.action)) && Recorded(p.bngState, p.action)
      && BngKey(p.bngState.bngId, s) in t.bngState && t.bngState[BngKey(p.bngState.bngId, s)] == p.bngState
  }

  ghost predicate Keyed(names: set<string>, t: Tenant) {
    StatesKeyed(names, t) && PoliciesAgree(t)
  }

  predicate NamesOne(names: set<string>, o: Option<string>) {
    Given(o).Some? ==> o.value in names
  }

  /** A request names no BNG but these. */
  predicate UsesOnly(names: set<string>, op: Op) {
    match op
    case SessionUp(d) => NamesOne(names, d.bngId)
    case PolicyUp(d) => NamesOne(names, d.bngId)
    case _ => true
  }

  ghost predicate SessionsNamed(names: set<string>, sessions: seq<Session>) {
    forall i :: 0 <= i < |sessions| ==> sessions[i].bngId in names
  }

  lemma RunOpNamed(names: set<string>, id: string, bng: string, c: Change, op: Op)
    requires RefsKnown(c) && SessionsNamed(names, c.sessions) && UsesOnly(names, op) && bng in names
    ensures SessionsNamed(names, RunOp(id, bng, c, op).sessions)
  {
  }

  lemma NewStateNamed(names: set<string>, bng: string, c: Change, s: string, d: PolicyData, a: Action)
    requires RefsKnown(c) && SessionsNamed(names, c.sessions) && NamesOne(names, d.bngId) && bng in names
    requires Resolution(c, s, d).enforcementIp.Some?
    ensures var state := NewState(bng, Resolution(c, s, d), a, d.reason);
            state.subscriberId == s && state.bngId in names && state.enforcementIp != ""
  {
  }

  /** Writing a policy and its state together keeps the others where they are. */
  lemma StoredKeyed(names: set<string>, t: Tenant, d: PolicyData, r: Resolved, state: BngState)
    requires Apart(names) && Keyed(names, t)
    requires state.subscriberId == r.subscriberId && state.bngId in names && state.enforcementIp != ""
    requires Known(d.action) && Recorded(state, d.action.value)
    ensures Keyed(names, t.(bngState := t.bngState[BngKey(state.bngId, r.subscriberId) := state],
                            policies := t.policies[r.subscriberId := NewPolicy(d, r, state)]))
  {
    var key := BngKey(state.bngId, r.subscriberId);
    KeysInjectiveIff(names);
    forall s | s in t.policies && s != r.subscriberId
      ensures BngKey(t.policies[s].bngState.bngId, s) != key
    {
      var other := t.policies[s].bngState;
      assert BngKey(other.bngId, s) in t.bngState;
      assert other.bngId in names;
    }
  }

  lemma PolicyUpKeyed(names: set<string>, bng: string, c: Change, d: PolicyData)
    requires Apart(names) && Keyed(names, c.tenant)
    requires RefsKnown(c) && SessionsNamed(names, c.sessions) && NamesOne(names, d.bngId) && bng in names
    ensures Keyed(names, Apply(bng, c, d).0.tenant)
  {
    var who := WhoIs(c.tenant, d);
    if who.Some? {
      var c1, r, a := Resolve(c, d).0, Resolution(c, who.value, d), NormalizeAction(d.action);
      if r.enforcementIp.Some? && a.Some? {
        NewStateNamed(names, bng, c, who.value, d, a.value);
        StoredKeyed(names, c1.tenant, d, r, NewState(bng, r, a.value, d.reason));
      }
    }
  }

  lemma RunOpKeyed(names: set<string>, id: string, bng: string, c: Change, op: Op)
    requires Apart(names) && Keyed(names, c.tenant)
    requires RefsKnown(c) && SessionsNamed(names, c.sessions) && UsesOnly(names, op) && bng in names
    ensures Keyed(names, RunOp(id, bng, c, op).tenant)
  {
    if op.PolicyUp? {
      PolicyUpKeyed(names, bng, c, op.policy);
    }
  }

  // ---------------------------------------------------------------- whole runs

  ghost predicate AllKeyed(names: set<string>, st: Store) {
    SessionsNamed(names, st.sessions) && forall id :: id in st.tenants ==> Keyed(names, st.tenants[id])
  }

  lemma {:induction false} AlwaysKeyed(names: set<string>, bng: string, requests: seq<Request>)
    requires Apart(names) && bng in names && forall r :: r in requests ==> UsesOnly(names, r.op)
    ensures AllKeyed(names, Serve(bng, requests))
  {
    if requests != [] {
      var front, last := requests[..|requests| - 1], requests[|requests| - 1];
      var st := Serve(bng, front);
      AlwaysKeyed(names, bng, front);
      assert last in requests && Keyed(names, EMPTY);
      RunOpKeyed(names, last.tenantId, bng, View(st, last.tenantId), last.op);
      RunOpNamed(names, last.tenantId, bng, View(st, last.tenantId), last.op);
    }
  }

  /** A policy for a subscriber, address and BNG that the request names in full. */
  function Named(s: string, ip: string, bngId: string, action: string): PolicyData {
    PolicyData(Some(s), None, Some(ip), Some(bngId), Some(action), None)
  }

  /** What applying one to a subscriber without a session writes. The default BNG may be the one without a name. */
  lemma NamedApplied(bng: string, c: Change, s: string, ip: string, bngId: string, action: string)
    requires RefsKnown(c) && s != "" && ip != "" && (bngId == "" ==> bng == "") && s !in c.tenant.radiusSessions
    requires NormalizeAction(Some(action)).Some?
    ensures var t, n := c.tenant, Apply(bng, c, Named(s, ip, bngId, action)).0.tenant;
            && n.radiusSessions == t.radiusSessions
            && s in n.policies && n.policies == t.policies[s := n.policies[s]]
            && n.bngState == t.bngState[BngKey(bngId, s) := n.policies[s].bngState]
            && n.policies[s].bngState.bngId == bngId && n.policies[s].bngState.subscriberId == s
  {
  }

  /** When one name in use extends another, two subscribers get the same key, and the policy of the first no longer
      has the state the controller holds. */
  lemma CollisionBreaks(bng: string, c: Change, a: string, b: string)
    requires RefsKnown(c) && c.tenant == EMPTY && Extends(b, a) && (a == "" ==> bng == "")
    ensures var s := b[|a| + 1..] + [':'] + "c";
            var c1 := Apply(bng, c, Named(s, "1", a, "BLOCK")).0;
            !PoliciesAgree(Apply(bng, c1, Named("c", "2", b, "ALLOW")).0.tenant)
  {
    var s := b[|a| + 1..] + [':'] + "c";
    var c1 := Apply(bng, c, Named(s, "1", a, "BLOCK")).0;
    NamedApplied(bng, c, s, "1", a, "BLOCK");
    NamedApplied(bng, c1, "c", "2", b, "ALLOW");
    ExtendedCollides(a, b, "c");
    assert |s| > 1 && s != "c";
    var n := Apply(bng, c1, Named("c", "2", b, "ALLOW")).0.tenant;
    assert n.policies[s] == c1.tenant.policies[s] && n.bngState[BngKey(a, s)].subscriberId == "c";
  }

  /** Every policy keeps its state in every run that names only these BNGs. */
  ghost predicate PoliciesSafe(names: set<string>, bng: string) {
    forall requests: seq<Request> ::
      (forall r :: r in requests ==> UsesOnly(names, r.op)) ==> AllKeyed(names, Serve(bng, requests))
  }

  lemma TwoRequests(bng: string, id: string, p: PolicyData, q: PolicyData)
    ensures var c := Change(EMPTY, []);
            var c1 := Apply(bng, c, p).0;
            var st := Serve(bng, [Request(id, PolicyUp(p)), Request(id, PolicyUp(q))]);
            RefsKnown(c1) && id in st.tenants && st.tenants[id] == Apply(bng, c1, q).0.tenant
  {
    var r1, r2 := Request(id, PolicyUp(p)), Request(id, PolicyUp(q));
    assert [r1, r2][..1] == [r1] && [r1][..0] == [];
    assert Serve(bng, []) == Store(map[], []);
    assert Serve(bng, [r1]) == Step(bng, Serve(bng, []), id, r1.op);
    assert Serve(bng, [r1, r2]) == Step(bng, Serve(bng, [r1]), id, r2.op);
  }

  /** One run that ends with a policy without its state shows that they are not safe. */
  lemma BrokenRun(names: set<string>, bng: string, requests: seq<Request>, id: string)
    requires forall r :: r in requests ==> UsesOnly(names, r.op)
    requires var st := Serve(bng, requests); id in st.tenants && !PoliciesAgree(st.tenants[id])
    ensures !PoliciesSafe(names, bng)
  {
    assert !AllKeyed(names, Serve(bng, requests));
  }

  /** Two subscribers, one key. */
  function Colliding(a: string, b: string): seq<Request>
    requires Extends(b, a)
  {
    [Request("isp", PolicyUp(Named(b[|a| + 1..] + [':'] + "c", "1", a, "BLOCK"))),
     Request("isp", PolicyUp(Named("c", "2", b, "ALLOW")))]
  }

  lemma CollidingRun(bng: string, a: string, b: string)
    requires Extends(b, a) && (a == "" ==> bng == "")
    ensures var st := Serve(bng, Colliding(a, b)); "isp" in st.tenants && !PoliciesAgree(st.tenants["isp"])
  {
    var p, q := Named(b[|a| + 1..] + [':'] + "c", "1", a, "BLOCK"), Named("c", "2", b, "ALLOW");
    TwoRequests(bng, "isp", p, q);
    CollisionBreaks(bng, Change(EMPTY, []), a, b);
  }

  lemma ExtendedUnsafe(names: set<string>, bng: string, a: string, b: string)
    requires a in names && b in names && Extends(b, a) && ("" in names ==> bng == "")
    ensures !PoliciesSafe(names, bng)
  {
    CollidingRun(bng, a, b);
    BrokenRun(names, bng, Colliding(a, b), "isp");
  }

  /** Over all runs that name only these BNGs (the default one among them), every policy keeps the state the controller
      holds exactly if no name extends another. */
  lemma PoliciesSafeIff(names: set<string>, bng: string)
    requires bng in names && ("" in names ==> bng == "")
    ensures PoliciesSafe(names, bng) <==> Apart(names)
  {
    if Apart(names) {
      forall requests: seq<Request> | forall r :: r in requests ==> UsesOnly(names, r.op)
        ensures AllKeyed(names, Serve(bng, requests))
      {
        AlwaysKeyed(names, bng, requests);
      }
    } else {
      var a, b :| a in names && b in names && Extends(b, a);
      ExtendedUnsafe(names, bng, a, b);
    }
  }
}
