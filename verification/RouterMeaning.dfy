/** What executing a router command does to the blocks in force, kind by kind, and over a whole synchronisation. */
module RouterMeaning {
  import opened Options
  import opened RouterExecutor
  import opened RouterSafety

  // ---------------------------------------------------------------- the most a command may do

  function StrategiesOf(c: Command): seq<Strategy> {
    if c.strategies.Some? then c.strategies.value else []
  }

  /** The blocks a command may put into force: those of its strategies, for the two kinds that block, or that of a single
      action. */
  function MayAdd(c: Command): set<Block> {
    match c.kind
    case BlockDevice => BlocksOf(StrategiesOf(c))
    case EndGamingSession => BlocksOf(StrategiesOf(c))
    case Single(PauseDevice) => {Paused}
    case Single(ApplyFirewallRule) => {Firewalled}
    case Single(BlockMac) => {MacBlocked}
    case _ => {}
  }

  /** The blocks a command may lift: those of its strategies, for unblocking and for the rollback of a session. */
  function MayLift(c: Command): set<Block> {
    match c.kind
    case UnblockDevice => BlocksOf(StrategiesOf(c))
    case EndGamingSession => BlocksOf(StrategiesOf(c))
    case Single(ResumeDevice) => {Paused}
    case Single(RemoveFirewallRule) => {Firewalled}
    case Single(UnblockMac) => {MacBlocked}
    case _ => {}
  }

  /** Within these bounds. */
  predicate Between(before: set<Block>, after: set<Block>, lifted: set<Block>, added: set<Block>) {
    before - lifted <= after <= before + added
  }

  // ---------------------------------------------------------------- runs of strategies

  lemma {:induction false} BlocksOfMember(strategies: seq<Strategy>, s: Strategy)
    requires s in strategies
    ensures BlockOf(s) <= BlocksOf(strategies)
  {
    if strategies[0] != s {
      BlocksOfMember(strategies[1..], s);
    }
  }

  lemma {:induction false} BlockingBounds(w: World, strategies: seq<Strategy>, e: Session)
    requires Honest(w) && !Over(e)
    ensures var n := RunActions(w, false, strategies, e);
            && Between(e.state.blocks, n.state.blocks, {}, BlocksOf(strategies))
            && (n.used.Some? ==> n.used.value in strategies)
    decreases |strategies|
  {
    if strategies != [] {
      var m := StrategyMethod(strategies[0]);
      var n := TryAction(w, m, strategies[0], e);
      InverseMatches(strategies[0]);
      if m.Some? { ActKeeps(w, m.value, e.state); }
      if !Over(n) { BlockingBounds(w, strategies[1..], n); }
    }
  }

  lemma TryBounds(w: World, strategy: Strategy, e: Session)
    requires Honest(w) && !Over(e)
    ensures Between(e.state.blocks, TryStrategy(w, strategy, e).state.blocks, BlockOf(strategy), BlockOf(strategy))
  {
    var m := StrategyMethod(strategy);
    InverseMatches(strategy);
    if m.Some? {
      var s := AfterAct(w, m.value, e.state);
      ActKeeps(w, m.value, e.state);
      if InverseMethod(strategy).Some? { ActKeeps(w, InverseMethod(strategy).value, s.(clock := s.clock + 1)); }
    }
  }

  lemma {:induction false} SessionBounds(w: World, strategies: seq<Strategy>, e: Session)
    requires Honest(w) && !Over(e)
    ensures var n := RunSession(w, strategies, e);
            && Between(e.state.blocks, n.state.blocks, BlocksOf(strategies), BlocksOf(strategies))
            && (n.used.Some? ==> n.used.value in strategies)
    decreases |strategies|
  {
    if strategies != [] {
      var n := TryStrategy(w, strategies[0], e);
      TryBounds(w, strategies[0], e);
      if !Over(n) { SessionBounds(w, strategies[1..], n); }
    }
  }

  /** A run of actions ends with one in use exactly when some attempt was reported as a success. */
  lemma {:induction false} UsedIff(w: World, unblock: bool, strategies: seq<Strategy>, e: Session)
    requires !Over(e) && forall a :: a in e.attempts ==> a.success.Falsy?
    ensures var n := RunActions(w, unblock, strategies, e);
            n.used.Some? <==> !n.thrown && exists a :: a in n.attempts && !a.success.Falsy?
    decreases |strategies|
  {
    if strategies != [] {
      var n := TryAction(w, Mapped(unblock, strategies[0]), strategies[0], e);
      if n.used.Some? {
        assert n.attempts[|n.attempts| - 1] in n.attempts;
      }
      if !Over(n) { UsedIff(w, unblock, strategies[1..], n); }
    }
  }

  /** The plugin method a strategy stands for, the one of the same name. */
  function Named(s: Strategy): set<Method> {
    match s
    case DISCONNECT_CLIENT => {DisconnectClient}
    case PAUSE_DEVICE => {PauseDevice}
    case APPLY_FIREWALL_RULE => {ApplyFirewallRule}
    case BLOCK_MAC => {BlockMac}
    case CHANGE_DNS => {ChangeDns}
    case Unknown(_) => {}
  }

  /** Blocking by one strategy makes one call if the plugin has the method of its name, and none otherwise: the answer
      is then that of the call. */
  lemma StrategyCalls(w: World, strategy: Strategy, s: State)
    ensures var e := RunActions(w, false, [strategy], Started(s));
            && (Named(strategy) !! w.has ==> e.state == s && e.used.None? && !e.thrown)
            && forall m :: m in Named(strategy) && m in w.has ==>
                 var r := w.act(s.clock, m, s.blocks);
                 && e.state == State(r.blocks, s.clock + 1) && e.thrown == r.thrown
                 && (e.used == Some(strategy) <==> !r.thrown && !r.success.Falsy?)
  {
    assert [strategy][1..] == [];
    var e := TryAction(w, StrategyMethod(strategy), strategy, Started(s));
    assert RunActions(w, false, [strategy], Started(s)) == RunActions(w, false, [], e);
  }

  // ---------------------------------------------------------------- one command, by its kind

  /** Whatever its outcome, a command changes no block beyond these; without a router, none at all. */
  lemma CommandBounds(w: World, c: Command, connected: bool, s: State)
    requires Honest(w)
    ensures var x := Execute(w, c, connected, s);
            && (connected ==> Between(s.blocks, x.state.blocks, MayLift(c), MayAdd(c)))
            && (!connected ==> x.state.blocks == s.blocks)
  {
    var strategies := StrategiesOf(c);
    match c.kind
    case Detect =>
    case EndGamingSession => SessionBounds(w, strategies, Started(s));
    case BlockDevice => BlockingBounds(w, strategies, Started(s));
    case UnblockDevice => UnblockOnlyRemoves(w, strategies, s);
    case Single(m) => ActKeeps(w, m, s);
    case Unsupported =>
  }

  /** BLOCK_DEVICE with a router: a positive answer means that the block of one of its strategies is in force and nothing
      else changed; a negative one that nothing did. It answers true exactly when some attempt reported success. */
  lemma BlockDeviceMeans(w: World, id: string, strategies: seq<Strategy>, s: State)
    requires Honest(w)
    ensures var x := Execute(w, Command(id, BlockDevice, Some(strategies)), true, s);
            && (x.result == Some(True_) ==> exists u :: u in strategies && x.state.blocks == s.blocks + BlockOf(u))
            && (x.result == Some(Falsy) ==> x.state.blocks == s.blocks)
            && x.result != Some(Truthy)
            && (x.result == Some(True_) <==>
                  var e := RunActions(w, false, strategies, Started(s));
                  !e.thrown && exists a :: a in e.attempts && !a.success.Falsy?)
  {
    BlockInstallsOne(w, strategies, s);
    BlockingBounds(w, strategies, Started(s));
    UsedIff(w, false, strategies, Started(s));
  }

  /** UNBLOCK_DEVICE with a router puts nothing into force and lifts only what its strategies install. It answers true
      exactly when some attempt reported success. */
  lemma UnblockDeviceMeans(w: World, id: string, strategies: seq<Strategy>, s: State)
    requires Honest(w)
    ensures var x := Execute(w, Command(id, UnblockDevice, Some(strategies)), true, s);
            && s.blocks - BlocksOf(strategies) <= x.state.blocks <= s.blocks
            && x.result != Some(Truthy)
            && (x.result == Some(True_) <==>
                  var e := RunActions(w, true, strategies, Started(s));
                  !e.thrown && exists a :: a in e.attempts && !a.success.Falsy?)
  {
    UnblockOnlyRemoves(w, strategies, s);
    UsedIff(w, true, strategies, Started(s));
  }

  /** A plugin that answers its unblocking calls with plain success has, after a positive answer, lifted the block of one
      of the strategies. */
  lemma UnblockLifts(w: World, id: string, strategy: Strategy, s: State)
    requires Honest(w) && BlockOf(strategy) != {}
    ensures var x := Execute(w, Command(id, UnblockDevice, Some([strategy])), true, s);
            var m := InverseMethod(strategy).value;
            x.result == Some(True_) && w.act(s.clock, m, s.blocks).success.True_? ==> x.state.blocks == s.blocks - BlockOf(strategy)
  {
    var m := InverseMethod(strategy).value;
    InverseMatches(strategy);
    ActKeeps(w, m, s);
    assert [strategy][1..] == [];
    var e := TryAction(w, Some(m), strategy, Started(s));
    assert RunActions(w, true, [strategy], Started(s)) == RunActions(w, true, [], e);
  }

  /** END_GAMING_SESSION with a router that returns: the block in force beyond those before is that of the strategy it
      stopped at, or of an attempt it reports as not rolled back; and it answers true exactly when some attempt succeeded
      and kept the connection. */
  lemma EndSessionMeans(w: World, id: string, strategies: seq<Strategy>, s: State)
    requires Honest(w)
    ensures var x := Execute(w, Command(id, EndGamingSession, Some(strategies)), true, s);
            var e := RunSession(w, strategies, Started(s));
            && x.result != Some(Truthy) && (x.result.None? <==> e.thrown)
            && (x.result.Some? ==>
                  && x.state.blocks <= s.blocks + UsedBlock(e.used) + AdmittedAll(e.attempts)
                  && UsedBlock(e.used) <= x.state.blocks)
            && (x.result == Some(True_) <==>
                  !e.thrown && exists a :: a in e.attempts && !a.success.Falsy? && a.rolledBack.None?)
  {
    var e := RunSession(w, strategies, Started(s));
    NoUnreportedBlock(w, strategies, s);
    TriedInOrder(w, strategies, Started(s));
    if e.used.Some? {
      assert e.attempts[|e.attempts| - 1] in e.attempts;
    }
  }

  /** The other kinds, and every command without a router. */
  lemma OtherCommandsMean(w: World, c: Command, connected: bool, s: State)
    requires Honest(w)
    ensures var x := Execute(w, c, connected, s);
            && (c.kind.Detect? ==> x.state.blocks == s.blocks && (x.result == Some(True_) <==> w.discovers(s.clock)))
            && (!c.kind.Detect? && !connected ==> x == Executed(Some(Falsy), s))
            && (c.kind.Unsupported? ==> x == Executed(Some(Falsy), s))
            && (connected && (c.kind.EndGamingSession? || c.kind.BlockDevice? || c.kind.UnblockDevice?) && c.strategies.None? ==>
                  x == Executed(None, s))
            && (connected && c.kind.Single? ==>
                  var m := c.kind.m;
                  && (m !in w.has ==> x == Executed(Some(Falsy), s))
                  && (m in w.has ==>
                        var r := w.act(s.clock, m, s.blocks);
                        && x.state == State(r.blocks, s.clock + 1)
                        && x.result == if r.thrown then None else Some(r.success)))
  {
  }

  // ---------------------------------------------------------------- a whole synchronisation

  function AllMayAdd(cs: seq<Command>): set<Block> {
    if cs == [] then {} else MayAdd(cs[0]) + AllMayAdd(cs[1..])
  }

  function AllMayLift(cs: seq<Command>): set<Block> {
    if cs == [] then {} else MayLift(cs[0]) + AllMayLift(cs[1..])
  }

  lemma HandleKeepsBlocks(w: World, c: Command, connected: bool, l: Log)
    ensures Handle(w, c, connected, l).state.blocks == Execute(w, c, connected, l.state).state.blocks
  {
  }

  /** All commands together change no block beyond what each may; in particular a list without unblocking, sessions and
      single lifting actions never lifts one. */
  lemma {:induction false} SyncBounds(w: World, cs: seq<Command>, connected: bool, l: Log)
    requires Honest(w)
    ensures var end := HandleAll(w, cs, connected, l).state.blocks;
            && Between(l.state.blocks, end, AllMayLift(cs), AllMayAdd(cs))
            && (!connected ==> end == l.state.blocks)
    decreases |cs|
  {
    if cs != [] {
      CommandBounds(w, cs[0], connected, l.state);
      HandleKeepsBlocks(w, cs[0], connected, l);
      SyncBounds(w, cs[1..], connected, Handle(w, cs[0], connected, l));
    }
  }

  lemma {:induction false} HandleAllConcat(w: World, a: seq<Command>, b: seq<Command>, connected: bool, l: Log)
    ensures HandleAll(w, a + b, connected, l) == HandleAll(w, b, connected, HandleAll(w, a, connected, l))
    decreases |a|
  {
    if a == [] {
      assert a + b == b;
    } else {
      assert (a + b)[0] == a[0] && (a + b)[1..] == a[1..] + b;
      HandleAllConcat(w, a[1..], b, connected, Handle(w, a[0], connected, l));
    }
  }

  /** A BLOCK_DEVICE that answered true stays in force to the end of the synchronisation, unless a later command of it
      may lift its block. */
  lemma BlockedStays(w: World, a: seq<Command>, id: string, strategies: seq<Strategy>, b: seq<Command>, l: Log)
    requires Honest(w)
    ensures var c := Command(id, BlockDevice, Some(strategies));
            var before := HandleAll(w, a, true, l);
            Execute(w, c, true, before.state).result == Some(True_) ==>
              exists u :: u in strategies
                && BlockOf(u) - AllMayLift(b) <= HandleAll(w, a + [c] + b, true, l).state.blocks
  {
    var c := Command(id, BlockDevice, Some(strategies));
    var before := HandleAll(w, a, true, l);
    var after := Handle(w, c, true, before);
    HandleAllConcat(w, a, [c] + b, true, l);
    assert a + [c] + b == a + ([c] + b);
    assert ([c] + b)[1..] == b;
    BlockDeviceMeans(w, id, strategies, before.state);
    HandleKeepsBlocks(w, c, true, before);
    SyncBounds(w, b, true, after);
    if u :| u in strategies && after.state.blocks == before.state.blocks + BlockOf(u)
            && Execute(w, c, true, before.state).result == Some(True_) {
      assert BlockOf(u) - AllMayLift(b) <= HandleAll(w, a + [c] + b, true, l).state.blocks;
    }
  }
}
