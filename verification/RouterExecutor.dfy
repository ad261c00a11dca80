/** The router command executor: strategies with rollback, and the acknowledgement of queued commands
    (router-command-executor.js) against any router plugin that keeps the written contract (plugin-interface.js). */
module RouterExecutor {
  import opened Options

  datatype Strategy = DISCONNECT_CLIENT | PAUSE_DEVICE | APPLY_FIREWALL_RULE | BLOCK_MAC | CHANGE_DNS | Unknown(name: string)

  datatype Method =
    DisconnectClient | PauseDevice | ResumeDevice | ApplyFirewallRule | RemoveFirewallRule | BlockMac | UnblockMac
    | ChangeDns | TestConnection

  /** The persistent effects a device can be under. */
  datatype Block = Paused | Firewalled | MacBlocked

  /** What `success` holds: the executor tests it for truth in some places and against `true` in others. */
  datatype Truth = True_ | Truthy | Falsy

  datatype Reply = Reply(thrown: bool, success: Truth, blocks: set<Block>)

  /** The plugin and the world around the executor, each answer depending on the number of the call. */
  datatype World = World(
    has: set<Method>,
    act: (nat, Method, set<Block>) -> Reply,
    online: nat -> bool,
    discovers: nat -> bool,
    delivers: nat -> bool)

  datatype State = State(blocks: set<Block>, clock: nat)

  function StrategyMethod(s: Strategy): Option<Method> {
    match s
    case DISCONNECT_CLIENT => Some(DisconnectClient)
    case PAUSE_DEVICE => Some(PauseDevice)
    case APPLY_FIREWALL_RULE => Some(ApplyFirewallRule)
    case BLOCK_MAC => Some(BlockMac)
    case CHANGE_DNS => Some(ChangeDns)
    case Unknown(_) => None
  }

  /** Both the rollback table and the table of UNBLOCK_DEVICE. */
  function InverseMethod(s: Strategy): Option<Method> {
    match s
    case PAUSE_DEVICE => Some(ResumeDevice)
    case APPLY_FIREWALL_RULE => Some(RemoveFirewallRule)
    case BLOCK_MAC => Some(UnblockMac)
    case _ => None
  }

  // ---------------------------------------------------------------- the plugin contract

  function Installs(m: Method): set<Block> {
    match m
    case PauseDevice => {Paused}
    case ApplyFirewallRule => {Firewalled}
    case BlockMac => {MacBlocked}
    case _ => {}
  }

  function Removes(m: Method): set<Block> {
    match m
    case ResumeDevice => {Paused}
    case RemoveFirewallRule => {Firewalled}
    case UnblockMac => {MacBlocked}
    case _ => {}
  }

  /** Success is verified success, failure has been restored; only a call that throws, or an inverse that does not
      report success, leaves open whether its own effect took place. */
  predicate KeepsContract(m: Method, before: set<Block>, r: Reply) {
    && before - Removes(m) <= r.blocks <= before + Installs(m)
    && (!r.thrown && !r.success.Falsy? ==> Installs(m) <= r.blocks)
    && (!r.thrown && r.success.Falsy? ==> r.blocks <= before)
    && (!r.thrown && r.success.True_? ==> r.blocks !! Removes(m))
  }

  ghost predicate Honest(w: World) {
    forall k: nat, m: Method, b: set<Block> :: KeepsContract(m, b, w.act(k, m, b))
  }

  /** `executeSingleAction`: a method the plugin lacks is a failure that touches nothing. */
  function Act(w: World, m: Method, s: State): Reply {
    if m in w.has then w.act(s.clock, m, s.blocks) else Reply(false, Falsy, s.blocks)
  }

  function AfterAct(w: World, m: Method, s: State): State {
    if m in w.has then State(w.act(s.clock, m, s.blocks).blocks, s.clock + 1) else s
  }

  // ---------------------------------------------------------------- strategies with rollback

  /** `rolledBack` is recorded only where connectivity was lost. */
  datatype Attempt = Attempt(strategy: Strategy, success: Truth, rolledBack: Option<bool>)

  datatype Session = Session(state: State, attempts: seq<Attempt>, used: Option<Strategy>, thrown: bool)

  predicate Over(e: Session) {
    e.used.Some? || e.thrown
  }

  function RollBack(w: World, strategy: Strategy, s: State): (State, bool) {
    match InverseMethod(strategy)
    case None => (s, false)
    case Some(m) =>
      var r := Act(w, m, s);
      (AfterAct(w, m, s), !r.thrown && r.success.True_?)
  }

  function TryStrategy(w: World, strategy: Strategy, e: Session): Session {
    match StrategyMethod(strategy)
    case None => e
    case Some(m) =>
      var r := Act(w, m, e.state);
      var s := AfterAct(w, m, e.state);
      if r.thrown then e.(state := s, thrown := true)
      else if r.success.Falsy? then e.(state := s, attempts := e.attempts + [Attempt(strategy, r.success, None)])
      else
        var checked := s.(clock := s.clock + 1);
        if w.online(s.clock)
        then Session(checked, e.attempts + [Attempt(strategy, r.success, None)], Some(strategy), false)
        else
          var (back, rolledBack) := RollBack(w, strategy, checked);
          e.(state := back, attempts := e.attempts + [Attempt(strategy, r.success, Some(rolledBack))])
  }

  function RunSession(w: World, strategies: seq<Strategy>, e: Session): Session {
    if strategies == [] || Over(e) then e else RunSession(w, strategies[1..], TryStrategy(w, strategies[0], e))
  }

  function Started(s: State): Session {
    Session(s, [], None, false)
  }

  // ---------------------------------------------------------------- strategies without rollback

  function TryAction(w: World, m: Option<Method>, strategy: Strategy, e: Session): Session {
    match m
    case None => e
    case Some(m) =>
      var r := Act(w, m, e.state);
      var s := AfterAct(w, m, e.state);
      if r.thrown then e.(state := s, thrown := true)
      else Session(s, e.attempts + [Attempt(strategy, r.success, None)], if r.success.Falsy? then None else Some(strategy), false)
  }

  function Mapped(unblock: bool, strategy: Strategy): Option<Method> {
    if unblock then InverseMethod(strategy) else StrategyMethod(strategy)
  }

  function RunActions(w: World, unblock: bool, strategies: seq<Strategy>, e: Session): Session {
    if strategies == [] || Over(e) then e
    else RunActions(w, unblock, strategies[1..], TryAction(w, Mapped(unblock, strategies[0]), strategies[0], e))
  }

  // ---------------------------------------------------------------- commands

  datatype Kind = Detect | EndGamingSession | BlockDevice | UnblockDevice | Single(m: Method) | Unsupported

  /** `strategies` is absent where the payload is null or does not hold a list: reading it throws. */
  datatype Command = Command(id: string, kind: Kind, strategies: Option<seq<Strategy>>)

  /** Nothing where the command threw. */
  datatype Executed = Executed(result: Option<Truth>, state: State)

  function Concluded(e: Session): Executed {
    Executed(if e.thrown then None else Some(if e.used.Some? then True_ else Falsy), e.state)
  }

  /** Discovery and the report of what it found are two calls; a report that fails is only logged. */
  function ExecuteDetect(w: World, s: State): Executed {
    if w.discovers(s.clock) then Executed(Some(True_), s.(clock := s.clock + 2))
    else Executed(None, s.(clock := s.clock + 1))
  }

  function Execute(w: World, c: Command, connected: bool, s: State): Executed {
    if c.kind.Detect? then ExecuteDetect(w, s)
    else if !connected then Executed(Some(Falsy), s)
    else if c.kind.Single? then
      var r := Act(w, c.kind.m, s);
      Executed(if r.thrown then None else Some(r.success), AfterAct(w, c.kind.m, s))
    else if c.kind.Unsupported? then Executed(Some(Falsy), s)
    else if c.strategies.None? then Executed(None, s)
    else if c.kind.EndGamingSession? then Concluded(RunSession(w, c.strategies.value, Started(s)))
    else Concluded(RunActions(w, c.kind.UnblockDevice?, c.strategies.value, Started(s)))
  }

  datatype Event = Ran(id: string, result: Option<Truth>) | Acked(id: string, ok: bool, delivered: bool)

  datatype Log = Log(state: State, events: seq<Event>)

  function Ack(w: World, id: string, ok: bool, l: Log): Log {
    Log(l.state.(clock := l.state.clock + 1), l.events + [Acked(id, ok, w.delivers(l.state.clock))])
  }

  /** An acknowledgement that fails inside the `try` is followed by a negative one. */
  function Report(w: World, id: string, x: Executed, l: Log): Log {
    var ran := Log(x.state, l.events + [Ran(id, x.result)]);
    if x.result.None? then Ack(w, id, false, ran)
    else
      var acked := Ack(w, id, x.result.value.True_?, ran);
      if w.delivers(x.state.clock) then acked else Ack(w, id, false, acked)
  }

  function Handle(w: World, c: Command, connected: bool, l: Log): Log {
    Report(w, c.id, Execute(w, c, connected, l.state), l)
  }

  function HandleAll(w: World, cs: seq<Command>, connected: bool, l: Log): Log {
    if cs == [] then l else HandleAll(w, cs[1..], connected, Handle(w, cs[0], connected, l))
  }

  class RouterCommandExecutor {
    const w: World
    var state: State

    constructor (w: World, blocks: set<Block>)
      ensures this.w == w && state == State(blocks, 0)
    {
      this.w := w;
      state := State(blocks, 0);
    }

    method ExecuteSingleAction(m: Method) returns (r: Reply)
      modifies this`state
      ensures r == Act(w, m, old(state)) && state == AfterAct(w, m, old(state))
    {
      if m !in w.has { return Reply(false, Falsy, state.blocks); }
      r := w.act(state.clock, m, state.blocks);
      state := State(r.blocks, state.clock + 1);
    }

    method CheckConnectivity() returns (online: bool)
      modifies this`state
      ensures online == w.online(old(state).clock) && state == old(state).(clock := old(state).clock + 1)
    {
      online := w.online(state.clock);
      state := state.(clock := state.clock + 1);
    }

    method TryWithRollback(strategy: Strategy, before: seq<Attempt>) returns (attempts: seq<Attempt>, stop: bool,
                           thrown: bool)
      modifies this`state
      ensures var e := TryStrategy(w, strategy, Session(old(state), before, None, false));
              && state == e.state && attempts == e.attempts && thrown == e.thrown
              && e.used == if stop then Some(strategy) else None
    {
      attempts, stop, thrown := before, false, false;
      var m := StrategyMethod(strategy);
      if m.None? { return; }
      var r := ExecuteSingleAction(m.value);
      if r.thrown { return attempts, false, true; }
      attempts := attempts + [Attempt(strategy, r.success, None)];
      if r.success.Falsy? { return; }
      var online := CheckConnectivity();
      if online { return attempts, true, false; }
      var inverse := InverseMethod(strategy);
      var rolledBack := false;
      if inverse.Some? {
        var back := ExecuteSingleAction(inverse.value);
        rolledBack := !back.thrown && back.success.True_?;
      }
      attempts := attempts[|attempts| - 1 := Attempt(strategy, r.success, Some(rolledBack))];
    }

    method RunEndGamingSession(strategies: seq<Strategy>) returns (used: Option<Strategy>, attempts: seq<Attempt>,
                               thrown: bool)
      modifies this`state
      ensures Session(state, attempts, used, thrown) == RunSession(w, strategies, Started(old(state)))
    {
      used, attempts, thrown := None, [], false;
      var i := 0;
      while i < |strategies|
        invariant 0 <= i <= |strategies| && used.None? && !thrown
        invariant RunSession(w, strategies, Started(old(state)))
               == RunSession(w, strategies[i..], Session(state, attempts, None, false))
      {
        assert strategies[i..][1..] == strategies[i + 1..];
        var stop;
        attempts, stop, thrown := TryWithRollback(strategies[i], attempts);
        if thrown { return; }
        if stop { return Some(strategies[i]), attempts, false; }
        i := i + 1;
      }
    }

    method RunMultiStrategyAction(unblock: bool, strategies: seq<Strategy>)
      returns (used: Option<Strategy>, attempts: seq<Attempt>, thrown: bool)
      modifies this`state
      ensures Session(state, attempts, used, thrown) == RunActions(w, unblock, strategies, Started(old(state)))
    {
      used, attempts, thrown := None, [], false;
      var i := 0;
      while i < |strategies|
        invariant 0 <= i <= |strategies| && used.None? && !thrown
        invariant RunActions(w, unblock, strategies, Started(old(state)))
               == RunActions(w, unblock, strategies[i..], Session(state, attempts, None, false))
      {
        assert strategies[i..][1..] == strategies[i + 1..];
        var m := Mapped(unblock, strategies[i]);
        i := i + 1;
        if m.None? { continue; }
        var r := ExecuteSingleAction(m.value);
        if r.thrown { return None, attempts, true; }
        attempts := attempts + [Attempt(strategies[i - 1], r.success, None)];
        if !r.success.Falsy? { return Some(strategies[i - 1]), attempts, false; }
      }
    }

    method ExecuteCommand(c: Command, connected: bool) returns (result: Option<Truth>)
      modifies this`state
      ensures Executed(result, state) == Execute(w, c, connected, old(state))
    {
      if c.kind.Detect? {
        var found := w.discovers(state.clock);
        state := state.(clock := state.clock + if found then 2 else 1);
        return if found then Some(True_) else None;
      }
      if !connected { return Some(Falsy); }
      if c.kind.Single? {
        var r := ExecuteSingleAction(c.kind.m);
        return if r.thrown then None else Some(r.success);
      }
      if c.kind.Unsupported? { return Some(Falsy); }
      if c.strategies.None? { return None; }
      var used, attempts, thrown;
      if c.kind.EndGamingSession? {
        used, attempts, thrown := RunEndGamingSession(c.strategies.value);
      } else {
        used, attempts, thrown := RunMultiStrategyAction(c.kind.UnblockDevice?, c.strategies.value);
      }
      result := if thrown then None else Some(if used.Some? then True_ else Falsy);
    }

    method AckRouterCommand(id: string, ok: bool) returns (event: Event)
      modifies this`state
      ensures event == Acked(id, ok, w.delivers(old(state).clock)) && state == old(state).(clock := old(state).clock + 1)
    {
      event := Acked(id, ok, w.delivers(state.clock));
      state := state.(clock := state.clock + 1);
    }

    /** The commands have been fetched; `events` is what happened, in order. */
    method Sync(cs: seq<Command>, connected: bool) returns (events: seq<Event>)
      modifies this`state
      ensures Log(state, events) == HandleAll(w, cs, connected, Log(old(state), []))
    {
      events := [];
      var i := 0;
      while i < |cs|
        invariant 0 <= i <= |cs|
        invariant HandleAll(w, cs, connected, Log(old(state), [])) == HandleAll(w, cs[i..], connected, Log(state, events))
      {
        assert cs[i..][1..] == cs[i + 1..];
        events := HandleOne(cs[i], connected, events);
        i := i + 1;
      }
    }

    method HandleOne(c: Command, connected: bool, before: seq<Event>) returns (events: seq<Event>)
      modifies this`state
      ensures Log(state, events) == Handle(w, c, connected, Log(old(state), before))
    {
      var result := ExecuteCommand(c, connected);
      events := before + [Ran(c.id, result)];
      var failed := result.None?;
      if !failed {
        var ack := AckRouterCommand(c.id, result.value.True_?);
        events := events + [ack];
        failed := !ack.delivered;
      }
      if failed {
        var nack := AckRouterCommand(c.id, false);
        events := events + [nack];
      }
    }
  }
}
