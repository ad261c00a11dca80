/** What a run of the router command executor leaves behind: no block it does not report, and no success it did
    not have. */
module RouterSafety {
  import opened Options
  import opened RouterExecutor

  /** The persistent block a strategy installs, if any. */
  function BlockOf(s: Strategy): set<Block> {
    match s
    case PAUSE_DEVICE => {Paused}
    case APPLY_FIREWALL_RULE => {Firewalled}
    case BLOCK_MAC => {MacBlocked}
    case _ => {}
  }

  lemma InverseMatches(s: Strategy)
    ensures StrategyMethod(s).Some? ==> Installs(StrategyMethod(s).value) == BlockOf(s)
    ensures InverseMethod(s).Some? ==> Removes(InverseMethod(s).value) == BlockOf(s) && Installs(InverseMethod(s).value) == {}
    ensures InverseMethod(s).None? ==> BlockOf(s) == {}
    ensures StrategyMethod(s).Some? ==> Removes(StrategyMethod(s).value) == {}
  {
  }

  lemma ActKeeps(w: World, m: Method, s: State)
    requires Honest(w)
    ensures AfterAct(w, m, s).blocks == Act(w, m, s).blocks
    ensures m in w.has ==> KeepsContract(m, s.blocks, Act(w, m, s))
  {
    if m in w.has {
      assert KeepsContract(m, s.blocks, w.act(s.clock, m, s.blocks));
    }
  }

  // ---------------------------------------------------------------- end of a gaming session

  /** The blocks an attempt owns up to: none if it failed or was undone. */
  function Admitted(a: Attempt): set<Block> {
    if a.rolledBack == Some(false) then BlockOf(a.strategy) else {}
  }

  function AdmittedAll(attempts: seq<Attempt>): set<Block> {
    if attempts == [] then {} else AdmittedAll(attempts[..|attempts| - 1]) + Admitted(attempts[|attempts| - 1])
  }

  function UsedBlock(used: Option<Strategy>): set<Block> {
    if used.Some? then BlockOf(used.value) else {}
  }

  /** Everything in force was in force at the start or is admitted to. */
  predicate Accounted(start: set<Block>, e: Session) {
    e.state.blocks <= start + AdmittedAll(e.attempts) + UsedBlock(e.used)
  }

  lemma AdmittedPush(attempts: seq<Attempt>, a: Attempt)
    ensures AdmittedAll(attempts + [a]) == AdmittedAll(attempts) + Admitted(a)
  {
    assert (attempts + [a])[..|attempts|] == attempts;
  }

  lemma TryAccounted(w: World, strategy: Strategy, start: set<Block>, e: Session)
    requires Honest(w) && Accounted(start, e) && !Over(e)
    ensures var n := TryStrategy(w, strategy, e);
            && (!n.thrown ==> Accounted(start, n))
            && (n.used.Some? ==> n.used.value == strategy && BlockOf(strategy) <= n.state.blocks)
  {
    var m := StrategyMethod(strategy);
    InverseMatches(strategy);
    if m.Some? {
      var r := Act(w, m.value, e.state);
      var s := AfterAct(w, m.value, e.state);
      ActKeeps(w, m.value, e.state);
      AdmittedPush(e.attempts, Attempt(strategy, r.success, None));
      if !r.thrown && !r.success.Falsy? && !w.online(s.clock) {
        var checked := s.(clock := s.clock + 1);
        var (back, rolledBack) := RollBack(w, strategy, checked);
        if InverseMethod(strategy).Some? { ActKeeps(w, InverseMethod(strategy).value, checked); }
        AdmittedPush(e.attempts, Attempt(strategy, r.success, Some(rolledBack)));
      }
    }
  }

  lemma {:induction false} RunAccounted(w: World, strategies: seq<Strategy>, start: set<Block>, e: Session)
    requires Honest(w) && Accounted(start, e) && !Over(e)
    ensures var n := RunSession(w, strategies, e);
            && (!n.thrown ==> Accounted(start, n))
            && (n.used.Some? ==> UsedBlock(n.used) <= n.state.blocks)
    decreases |strategies|
  {
    if strategies != [] {
      TryAccounted(w, strategies[0], start, e);
      var n := TryStrategy(w, strategies[0], e);
      if !Over(n) { RunAccounted(w, strategies[1..], start, n); }
    }
  }

  /** When a session run returns, a block that was not in force before it is that of the strategy it reports as used
      or of an attempt it reports as not rolled back; and the used strategy's block is in force. */
  lemma NoUnreportedBlock(w: World, strategies: seq<Strategy>, s: State)
    requires Honest(w)
    ensures var e := RunSession(w, strategies, Started(s));
            !e.thrown ==>
              && UsedBlock(e.used) <= e.state.blocks
              && e.state.blocks <= s.blocks + UsedBlock(e.used) + AdmittedAll(e.attempts)
  {
    RunAccounted(w, strategies, s.blocks, Started(s));
  }

  /** What `AdmittedAll` collects. */
  lemma {:induction false} AdmittedMeans(attempts: seq<Attempt>, b: Block)
    ensures b in AdmittedAll(attempts) <==> exists a :: a in attempts && a.rolledBack == Some(false) && b in BlockOf(a.strategy)
  {
    if attempts != [] {
      var front, last := attempts[..|attempts| - 1], attempts[|attempts| - 1];
      AdmittedMeans(front, b);
      assert attempts == front + [last];
      assert forall a :: a in attempts <==> a in front || a == last;
    }
  }

  // ---------------------------------------------------------------- which strategies were tried

  function Known(unblock: bool, strategies: seq<Strategy>): seq<Strategy> {
    if strategies == [] then []
    else (if Mapped(unblock, strategies[0]).Some? then [strategies[0]] else []) + Known(unblock, strategies[1..])
  }

  function Names(attempts: seq<Attempt>): (r: seq<Strategy>)
    ensures |r| == |attempts|
  {
    seq(|attempts|, i requires 0 <= i < |attempts| => attempts[i].strategy)
  }

  /** An attempt after which the next strategy is tried: it failed, or connectivity was lost and it was undone or
      reported as not undone. */
  predicate Passed(a: Attempt) {
    a.success.Falsy? <==> a.rolledBack.None?
  }

  lemma {:induction false} TriedInOrder(w: World, strategies: seq<Strategy>, e: Session)
    requires !Over(e) && forall a :: a in e.attempts ==> Passed(a)
    ensures var n := RunSession(w, strategies, e);
            && Names(n.attempts) <= Names(e.attempts) + Known(false, strategies)
            && (!Over(n) ==> Names(n.attempts) == Names(e.attempts) + Known(false, strategies))
            && (n.used.None? ==> forall a :: a in n.attempts ==> Passed(a))
            && (n.used.Some? ==>
                  && n.attempts != [] && !n.thrown
                  && n.attempts[|n.attempts| - 1].strategy == n.used.value
                  && !n.attempts[|n.attempts| - 1].success.Falsy? && n.attempts[|n.attempts| - 1].rolledBack.None?
                  && forall i :: 0 <= i < |n.attempts| - 1 ==> Passed(n.attempts[i]))
    decreases |strategies|
  {
    if strategies != [] {
      var n := TryStrategy(w, strategies[0], e);
      var rest := Known(false, strategies[1..]);
      if |n.attempts| > |e.attempts| {
        var a := n.attempts[|e.attempts|];
        assert n.attempts == e.attempts + [a] && a.strategy == strategies[0];
        assert Names(n.attempts) == Names(e.attempts) + [strategies[0]];
        assert Names(n.attempts) + rest == Names(e.attempts) + ([strategies[0]] + rest);
      } else {
        assert n.attempts == e.attempts;
      }
      if !Over(n) {
        TriedInOrder(w, strategies[1..], n);
      }
    }
  }

  /** The attempts are the known strategies in order up to where the run stopped; it stops early only at the first
      attempt that succeeded and kept the connection, which is then the one reported as used. */
  lemma AttemptsArePrefix(w: World, strategies: seq<Strategy>, s: State)
    ensures var e := RunSession(w, strategies, Started(s));
            && Names(e.attempts) <= Known(false, strategies)
            && (!Over(e) ==> Names(e.attempts) == Known(false, strategies) && forall a :: a in e.attempts ==> Passed(a))
            && (e.used.Some? ==>
                  && e.attempts != [] && e.attempts[|e.attempts| - 1].strategy == e.used.value
                  && e.attempts[|e.attempts| - 1].rolledBack.None?
                  && forall i :: 0 <= i < |e.attempts| - 1 ==> Passed(e.attempts[i]))
  {
    TriedInOrder(w, strategies, Started(s));
    assert Names([]) + Known(false, strategies) == Known(false, strategies);
  }

  // ---------------------------------------------------------------- blocking and unblocking a device

  lemma {:induction false} BlockingRun(w: World, strategies: seq<Strategy>, e: Session)
    requires Honest(w) && !Over(e)
    ensures var n := RunActions(w, false, strategies, e);
            !n.thrown ==> n.state.blocks == e.state.blocks + UsedBlock(n.used)
    decreases |strategies|
  {
    if strategies != [] {
      var m := StrategyMethod(strategies[0]);
      var n := TryAction(w, m, strategies[0], e);
      InverseMatches(strategies[0]);
      if m.Some? { ActKeeps(w, m.value, e.state); }
      if !Over(n) { BlockingRun(w, strategies[1..], n); }
    }
  }

  /** A BLOCK_DEVICE run that returns has installed the block of the strategy it reports, and no other. */
  lemma BlockInstallsOne(w: World, strategies: seq<Strategy>, s: State)
    requires Honest(w)
    ensures var e := RunActions(w, false, strategies, Started(s));
            !e.thrown ==> e.state.blocks == s.blocks + UsedBlock(e.used)
  {
    BlockingRun(w, strategies, Started(s));
  }

  function BlocksOf(strategies: seq<Strategy>): set<Block> {
    if strategies == [] then {} else BlockOf(strategies[0]) + BlocksOf(strategies[1..])
  }

  lemma {:induction false} UnblockingRun(w: World, strategies: seq<Strategy>, e: Session)
    requires Honest(w) && !Over(e)
    ensures var n := RunActions(w, true, strategies, e);
            && e.state.blocks - BlocksOf(strategies) <= n.state.blocks <= e.state.blocks
            && (n.used.Some? ==> n.attempts != [] && (n.attempts[|n.attempts| - 1].success.True_? ==>
                                                       n.state.blocks !! BlockOf(n.used.value)))
    decreases |strategies|
  {
    if strategies != [] {
      var m := InverseMethod(strategies[0]);
      var n := TryAction(w, m, strategies[0], e);
      InverseMatches(strategies[0]);
      if m.Some? { ActKeeps(w, m.value, e.state); }
      if !Over(n) { UnblockingRun(w, strategies[1..], n); }
    }
  }

  /** An UNBLOCK_DEVICE run installs nothing, removes at most the blocks of its strategies even if it throws, and has
      removed the one it reports when the plugin answered exactly `true`. */
  lemma UnblockOnlyRemoves(w: World, strategies: seq<Strategy>, s: State)
    requires Honest(w)
    ensures var e := RunActions(w, true, strategies, Started(s));
            && s.blocks - BlocksOf(strategies) <= e.state.blocks <= s.blocks
            && (e.used.Some? ==> e.attempts != [] && (e.attempts[|e.attempts| - 1].success.True_? ==>
                                                       e.state.blocks !! BlockOf(e.used.value)))
  {
    UnblockingRun(w, strategies, Started(s));
  }

  // ---------------------------------------------------------------- acknowledgements

  function Executions(events: seq<Event>): seq<string> {
    if events == [] then []
    else
      var last := events[|events| - 1];
      Executions(events[..|events| - 1]) + if last.Ran? then [last.id] else []
  }

  datatype Verdict = Verdict(id: string, ok: bool)

  /** What reached the backend. */
  function Delivered(events: seq<Event>): seq<Verdict> {
    if events == [] then []
    else
      var last := events[|events| - 1];
      Delivered(events[..|events| - 1]) + if last.Acked? && last.delivered then [Verdict(last.id, last.ok)] else []
  }

  lemma Push(events: seq<Event>, e: Event)
    ensures Executions(events + [e]) == Executions(events) + if e.Ran? then [e.id] else []
    ensures Delivered(events + [e]) == Delivered(events) + if e.Acked? && e.delivered then [Verdict(e.id, e.ok)] else []
  {
    assert (events + [e])[..|events|] == events;
  }

  function Ids(cs: seq<Command>): seq<string> {
    if cs == [] then [] else [cs[0].id] + Ids(cs[1..])
  }

  /** What an execution is reported as: at most one verdict. A success whose acknowledgement is lost is reported as a
      failure if the second call gets through. */
  function VerdictFor(w: World, id: string, x: Executed): seq<Verdict> {
    var k := x.state.clock;
    if w.delivers(k) then [Verdict(id, x.result == Some(True_))]
    else if x.result.Some? && w.delivers(k + 1) then [Verdict(id, false)]
    else []
  }

  function VerdictOf(w: World, c: Command, connected: bool, s: State): seq<Verdict> {
    VerdictFor(w, c.id, Execute(w, c, connected, s))
  }

  lemma AckReports(w: World, id: string, ok: bool, l: Log)
    ensures var n := Ack(w, id, ok, l);
            && n.state.clock == l.state.clock + 1 && Executions(n.events) == Executions(l.events)
            && Delivered(n.events) == Delivered(l.events) + if w.delivers(l.state.clock) then [Verdict(id, ok)] else []
  {
    Push(l.events, Acked(id, ok, w.delivers(l.state.clock)));
    assert Executions(l.events) + [] == Executions(l.events);
  }

  /** The second acknowledgement, made when the first was lost. */
  lemma SecondAckReports(w: World, id: string, ok: bool, l: Log)
    requires !w.delivers(l.state.clock)
    ensures var n := Ack(w, id, false, Ack(w, id, ok, l));
            && Executions(n.events) == Executions(l.events)
            && Delivered(n.events) == Delivered(l.events) + if w.delivers(l.state.clock + 1) then [Verdict(id, false)] else []
  {
    AckReports(w, id, ok, l);
    AckReports(w, id, false, Ack(w, id, ok, l));
    NothingMore(Delivered(l.events));
  }

  lemma NothingMore<T>(s: seq<T>)
    ensures s + [] == s
  {
  }

  lemma RanReports(id: string, result: Option<Truth>, l: Log, s: State)
    ensures var n := Log(s, l.events + [Ran(id, result)]);
            Executions(n.events) == Executions(l.events) + [id] && Delivered(n.events) == Delivered(l.events)
  {
    Push(l.events, Ran(id, result));
    NothingMore(Delivered(l.events));
  }

  lemma ReportReports(w: World, id: string, x: Executed, l: Log)
    ensures var n := Report(w, id, x, l);
            && Executions(n.events) == Executions(l.events) + [id]
            && Delivered(n.events) == Delivered(l.events) + VerdictFor(w, id, x)
  {
    var ran, ok := Log(x.state, l.events + [Ran(id, x.result)]), x.result == Some(True_);
    RanReports(id, x.result, l, x.state);
    if x.result.Some? && !w.delivers(x.state.clock) {
      SecondAckReports(w, id, ok, ran);
    } else {
      AckReports(w, id, ok, ran);
    }
  }

  lemma HandleReports(w: World, c: Command, connected: bool, l: Log)
    ensures var n := Handle(w, c, connected, l);
            && Executions(n.events) == Executions(l.events) + [c.id]
            && Delivered(n.events) == Delivered(l.events) + VerdictOf(w, c, connected, l.state)
  {
    ReportReports(w, c.id, Execute(w, c, connected, l.state), l);
  }

  function Verdicts(w: World, cs: seq<Command>, connected: bool, l: Log): seq<Verdict>
    decreases |cs|
  {
    if cs == [] then []
    else VerdictOf(w, cs[0], connected, l.state) + Verdicts(w, cs[1..], connected, Handle(w, cs[0], connected, l))
  }

  lemma Associates<T>(a: seq<T>, b: seq<T>, c: seq<T>)
    ensures (a + b) + c == a + (b + c)
  {
  }

  lemma {:induction false} AllExecuted(w: World, cs: seq<Command>, connected: bool, l: Log)
    ensures Executions(HandleAll(w, cs, connected, l).events) == Executions(l.events) + Ids(cs)
    decreases |cs|
  {
    if cs == [] {
      assert Executions(l.events) + [] == Executions(l.events);
    } else {
      HandleReports(w, cs[0], connected, l);
      AllExecuted(w, cs[1..], connected, Handle(w, cs[0], connected, l));
      Associates(Executions(l.events), [cs[0].id], Ids(cs[1..]));
    }
  }

  lemma {:induction false} AllDelivered(w: World, cs: seq<Command>, connected: bool, l: Log)
    ensures Delivered(HandleAll(w, cs, connected, l).events) == Delivered(l.events) + Verdicts(w, cs, connected, l)
    decreases |cs|
  {
    if cs == [] {
      assert Delivered(l.events) + [] == Delivered(l.events);
    } else {
      var n := Handle(w, cs[0], connected, l);
      HandleReports(w, cs[0], connected, l);
      AllDelivered(w, cs[1..], connected, n);
      Associates(Delivered(l.events), VerdictOf(w, cs[0], connected, l.state), Verdicts(w, cs[1..], connected, n));
    }
  }

  function Times(id: string, ids: seq<string>): nat {
    if ids == [] then 0 else (if ids[0] == id then 1 else 0) + Times(id, ids[1..])
  }

  function Reports(id: string, vs: seq<Verdict>): nat {
    if vs == [] then 0 else (if vs[0].id == id then 1 else 0) + Reports(id, vs[1..])
  }

  lemma {:induction false} ReportsConcat(id: string, a: seq<Verdict>, b: seq<Verdict>)
    ensures Reports(id, a + b) == Reports(id, a) + Reports(id, b)
  {
    if a == [] {
      assert a + b == b;
    } else {
      assert (a + b)[0] == a[0] && (a + b)[1..] == a[1..] + b;
      ReportsConcat(id, a[1..], b);
    }
  }

  lemma {:induction false} VerdictsAtMostOnce(w: World, cs: seq<Command>, connected: bool, l: Log, id: string)
    ensures Reports(id, Verdicts(w, cs, connected, l)) <= Times(id, Ids(cs))
    decreases |cs|
  {
    if cs != [] {
      var v, n := VerdictOf(w, cs[0], connected, l.state), Handle(w, cs[0], connected, l);
      VerdictsAtMostOnce(w, cs[1..], connected, n, id);
      ReportsConcat(id, v, Verdicts(w, cs[1..], connected, n));
      assert v != [] ==> v[1..] == [];
      assert Reports(id, v) <= if cs[0].id == id then 1 else 0;
    }
  }

  /** A synchronisation executes each fetched command once, in the order fetched, and delivers at most one verdict
      per command, whatever acknowledgements are lost. */
  lemma EachCommandOnce(w: World, cs: seq<Command>, connected: bool, s: State, id: string)
    ensures var events := HandleAll(w, cs, connected, Log(s, [])).events;
            && Executions(events) == Ids(cs)
            && Reports(id, Delivered(events)) <= Times(id, Ids(cs))
  {
    AllExecuted(w, cs, connected, Log(s, []));
    AllDelivered(w, cs, connected, Log(s, []));
    VerdictsAtMostOnce(w, cs, connected, Log(s, []), id);
    assert Executions([]) + Ids(cs) == Ids(cs);
    assert Delivered([]) + Verdicts(w, cs, connected, Log(s, [])) == Verdicts(w, cs, connected, Log(s, []));
  }

  /** Every positive acknowledgement directly follows an execution of its command that answered exactly `true`. */
  predicate PositivesEarned(events: seq<Event>) {
    forall i :: 0 <= i < |events| && events[i].Acked? && events[i].ok ==>
      i > 0 && events[i - 1] == Ran(events[i].id, Some(True_))
  }

  lemma {:induction false} SuccessIsEarned(w: World, cs: seq<Command>, connected: bool, l: Log)
    requires PositivesEarned(l.events)
    ensures PositivesEarned(HandleAll(w, cs, connected, l).events)
    decreases |cs|
  {
    if cs != [] {
      SuccessIsEarned(w, cs[1..], connected, Handle(w, cs[0], connected, l));
    }
  }

  /** The verdict the backend ends up with, both ways: positive exactly for a success whose first acknowledgement got
      through, and negative for a success exactly when only the second did. */
  lemma VerdictIff(w: World, c: Command, connected: bool, s: State)
    ensures var x := Execute(w, c, connected, s);
            var k := x.state.clock;
            && |VerdictOf(w, c, connected, s)| <= 1
            && (VerdictOf(w, c, connected, s) == [Verdict(c.id, true)] <==> x.result == Some(True_) && w.delivers(k))
            && (x.result == Some(True_) ==>
                  (VerdictOf(w, c, connected, s) == [Verdict(c.id, false)] <==> !w.delivers(k) && w.delivers(k + 1)))
  {
    var x := Execute(w, c, connected, s);
    assert [Verdict(c.id, true)][0].ok && ![Verdict(c.id, false)][0].ok;
  }
}
