/** The kernel's traffic control as the shaping stage uses it: one HTB tree per interface, the tc commands, scripts
    of them in which any call may fail, and the class a packet is put into. */
module Tc {
  import opened Options
  import opened Policy

  datatype Rate = Configured(text: string) | Kbit(n: nat)

  /** A class; parent 0 is the qdisc itself. */
  datatype HtbClass = HtbClass(parent: nat, rate: Rate, ceil: Option<Rate>)

  /** A u32 filter of one protocol. */
  datatype Filter = Filter(prio: nat, src: Option<nat>, dst: Option<nat>, flow: nat)

  datatype Root = NoQdisc | OtherQdisc | Htb(classes: map<nat, HtbClass>, v4: seq<Filter>, v6: seq<Filter>)

  type Links = map<string, Root>

  function RootOf(links: Links, iface: string): Root {
    if iface in links then links[iface] else NoQdisc
  }

  datatype Command =
    | ReplaceQdisc(iface: string)
    | ReplaceClass(iface: string, minor: nat, class_: HtbClass)
    | DelFilters(iface: string, ipv6: bool)
    | AddFilter(iface: string, ipv6: bool, filter: Filter)
    | DelQdisc(iface: string)

  /** What a command makes of the root of its interface; None is the kernel's refusal. Replacing the tree by itself
      keeps its classes and filters. */
  function Exec(cmd: Command, root: Root): Option<Root> {
    match cmd
    case ReplaceQdisc(_) => Some(if root.Htb? then root else Htb(map[], [], []))
    case ReplaceClass(_, minor, c) =>
      if root.Htb? && (c.parent == 0 || c.parent in root.classes)
      then Some(root.(classes := root.classes[minor := c])) else None
    case DelFilters(_, ipv6) =>
      if !root.Htb? then None else Some(if ipv6 then root.(v6 := []) else root.(v4 := []))
    case AddFilter(_, ipv6, f) =>
      if !root.Htb? then None else Some(if ipv6 then root.(v6 := root.v6 + [f]) else root.(v4 := root.v4 + [f]))
    case DelQdisc(_) => if root.NoQdisc? then None else Some(NoQdisc)
  }

  datatype Outcome = Outcome(ok: bool, links: Links, clock: nat)

  function RunCommand(links: Links, cmd: Command, clock: nat, faults: set<nat>): Outcome {
    var result := Exec(cmd, RootOf(links, cmd.iface));
    if clock in faults || result.None?
    then Outcome(false, links, clock + 1)
    else Outcome(true, links[cmd.iface := result.value], clock + 1)
  }

  /** Guarded: the commands of the body; if one fails the interface loses its whole tree, and the script goes on. */
  datatype Step = Must(cmd: Command) | Try(cmd: Command) | Guarded(iface: string, body: seq<Command>)

  function RunBody(links: Links, body: seq<Command>, clock: nat, faults: set<nat>): Outcome
    decreases |body|
  {
    if body == [] then Outcome(true, links, clock)
    else
      var first := RunCommand(links, body[0], clock, faults);
      if first.ok then RunBody(first.links, body[1..], first.clock, faults) else first
  }

  function RunStep(links: Links, step: Step, clock: nat, faults: set<nat>): Outcome {
    match step
    case Must(cmd) => RunCommand(links, cmd, clock, faults)
    case Try(cmd) => RunCommand(links, cmd, clock, faults).(ok := true)
    case Guarded(iface, body) =>
      var o := RunBody(links, body, clock, faults);
      if o.ok then o else RunCommand(o.links, DelQdisc(iface), o.clock, faults).(ok := true)
  }

  function RunSteps(links: Links, steps: seq<Step>, clock: nat, faults: set<nat>): Outcome
    decreases |steps|
  {
    if steps == [] then Outcome(true, links, clock)
    else
      var first := RunStep(links, steps[0], clock, faults);
      if first.ok then RunSteps(first.links, steps[1..], first.clock, faults) else first
  }

  lemma {:induction false} RunStepsConcat(links: Links, a: seq<Step>, b: seq<Step>, clock: nat, faults: set<nat>)
    ensures var first := RunSteps(links, a, clock, faults);
            RunSteps(links, a + b, clock, faults)
            == if first.ok then RunSteps(first.links, b, first.clock, faults) else first
    decreases |a|
  {
    if a == [] {
      assert a + b == b;
    } else {
      var first := RunStep(links, a[0], clock, faults);
      assert (a + b)[0] == a[0] && (a + b)[1..] == a[1..] + b;
      if first.ok {
        RunStepsConcat(first.links, a[1..], b, first.clock, faults);
      }
    }
  }

  lemma RunStepsCons(links: Links, step: Step, rest: seq<Step>, clock: nat, faults: set<nat>)
    ensures var first := RunStep(links, step, clock, faults);
            RunSteps(links, [step] + rest, clock, faults)
            == if first.ok then RunSteps(first.links, rest, first.clock, faults) else first
  {
    assert ([step] + rest)[0] == step && ([step] + rest)[1..] == rest;
  }

  // ---------------------------------------------------------------- classification

  predicate Matches(f: Filter, p: Packet) {
    (f.src.Some? ==> f.src.value == p.src) && (f.dst.Some? ==> f.dst.value == p.dst)
  }

  /** The filter that decides: of those that match, the first of the lowest priority number. */
  function Best(filters: seq<Filter>, p: Packet): Option<Filter> {
    if filters == [] then None
    else
      var rest := Best(filters[1..], p);
      if Matches(filters[0], p) && (rest.None? || filters[0].prio <= rest.value.prio) then Some(filters[0]) else rest
  }

  const DEFAULT_CLASS: nat := 0x30

  /** The class of a packet on a shaped interface. */
  function Classify(root: Root, p: Packet): nat
    requires root.Htb?
  {
    var best := Best(if p.ipv6 then root.v6 else root.v4, p);
    if best.Some? then best.value.flow else DEFAULT_CLASS
  }

  /** The first filter of a list that matches. */
  function First(filters: seq<Filter>, p: Packet): Option<Filter> {
    if filters == [] then None else if Matches(filters[0], p) then Some(filters[0]) else First(filters[1..], p)
  }

  predicate OfPrio(filters: seq<Filter>, lo: nat, hi: nat) {
    forall f :: f in filters ==> lo <= f.prio <= hi
  }

  lemma {:induction false} BestOfOnePrio(filters: seq<Filter>, prio: nat, p: Packet)
    requires OfPrio(filters, prio, prio)
    ensures Best(filters, p) == First(filters, p)
    ensures Best(filters, p).Some? ==> Best(filters, p).value.prio == prio
  {
    if filters != [] {
      assert filters[0] in filters;
      BestOfOnePrio(filters[1..], prio, p);
    }
  }

  lemma {:induction false} BestMember(filters: seq<Filter>, p: Packet)
    ensures Best(filters, p).None? <==> forall f :: f in filters ==> !Matches(f, p)
    ensures Best(filters, p).Some? ==> Best(filters, p).value in filters && Matches(Best(filters, p).value, p)
  {
    if filters != [] {
      BestMember(filters[1..], p);
      assert forall f :: f in filters <==> f == filters[0] || f in filters[1..];
    }
  }

  /** Urgent filters in front decide before less urgent ones behind. */
  lemma {:induction false} BestOfBands(urgent: seq<Filter>, rest: seq<Filter>, lo: nat, hi: nat, p: Packet)
    requires lo < hi && OfPrio(urgent, 0, lo) && OfPrio(rest, hi, hi)
    ensures Best(urgent + rest, p) == if Best(urgent, p).Some? then Best(urgent, p) else First(rest, p)
  {
    if urgent == [] {
      assert urgent + rest == rest;
      BestOfOnePrio(rest, hi, p);
    } else {
      assert (urgent + rest)[0] == urgent[0] && (urgent + rest)[1..] == urgent[1..] + rest && urgent[0] in urgent;
      BestOfBands(urgent[1..], rest, lo, hi, p);
      BestOfOnePrio(rest, hi, p);
    }
  }
}
