/** container/msque.h: a lock-free list with a lagging tail, replaced as a whole by clear. */
module Msque {
  import opened Linearizability
  import opened NodeChains
  import opened Counting

  datatype List = List(begin: Node, end: Node, size: nat)

  /** Where an operation stands, with the contents of its hazard pointers. */
  datatype Local =
    | PushTop(v: Value)
    | PushList(v: Value, g: nat)
    | PushEnd(v: Value, g: nat, hp: Node)
    | PushHelp(v: Value, g: nat, hp: Node, next: Node)
    | PushAgain(v: Value, g: nat, hp: Node)
    | PushLink(v: Value, g: nat, hp: Node)
    | PushSwing(v: Value, g: nat, hp: Node)
    | PushCount(g: nat)
    | PopTop
    | PopList(g: nat)
    | PopBegin(g: nat, n0: Node)
    | PopAgain(g: nat, n0: Node, n1: Node)
    | PopCas(g: nat, n0: Node, n1: Node)
    | PopTake(g: nat, n1: Node)
    | PopCount(g: nat, v: Value)
    | ClearTop
    | Exit(res: Res)
    | Done

  /** The heap of nodes, every list ever installed, the list __list points to, the operations. */
  datatype State = State(next: map<Node, Node>, lists: seq<List>, cur: nat, threads: map<OpId, Local>)

  datatype Action = Start(t: OpId, op: Op) | Exec(t: OpId, spurious: bool)

  const Init: State := State(map[Dummy(0) := Null], [List(Dummy(0), Dummy(0), 0)], 0, map[])

  function ListAt(s: State, g: nat): List {
    if g < |s.lists| then s.lists[g] else List(Null, Null, 0)
  }

  function Goto(s: State, t: OpId, l: Local): State {
    s.(threads := s.threads[t := l])
  }

  function SetList(s: State, g: nat, list: List): State {
    if g < |s.lists| then s.(lists := s.lists[g := list]) else s
  }

  /** The call: a push allocates its node. */
  function Begin(s: State, t: OpId, op: Op): State {
    match op
    case Push(v) => Goto(s, t, PushTop(v)).(next := s.next[Elem(t, v) := Null])
    case Pop => Goto(s, t, PopTop)
    case Clear => Goto(s, t, ClearTop)
  }

  /** One atomic instruction of t; spurious lets a weak compare-and-exchange fail. */
  function Instr(s: State, t: OpId, spurious: bool): (r: State)
    requires t in s.threads
    ensures t in r.threads && r.threads == s.threads[t := r.threads[t]]
  {
    match s.threads[t]
    // push
    case PushTop(v) => Goto(s, t, PushList(v, s.cur))
    case PushList(v, g) => Goto(s, t, PushEnd(v, g, ListAt(s, g).end))
    case PushEnd(v, g, hp) =>
      var next := Of(s.next, hp);
      Goto(s, t, if next != Null then PushHelp(v, g, hp, next) else PushAgain(v, g, hp))
    case PushHelp(v, g, hp, next) =>
      var s' := if ListAt(s, g).end == hp && !spurious then SetList(s, g, ListAt(s, g).(end := next)) else s;
      Goto(s', t, PushTop(v))
    case PushAgain(v, g, hp) =>
      Goto(s, t, if hp != ListAt(s, g).end then PushTop(v) else PushLink(v, g, hp))
    case PushLink(v, g, hp) =>
      if Of(s.next, hp) == Null && !spurious
      then Goto(s, t, PushSwing(v, g, hp)).(next := s.next[hp := Elem(t, v)])
      else Goto(s, t, PushTop(v))
    case PushSwing(v, g, hp) =>
      var s' := if ListAt(s, g).end == hp && !spurious then SetList(s, g, ListAt(s, g).(end := Elem(t, v))) else s;
      Goto(s', t, PushCount(g))
    case PushCount(g) =>
      Goto(SetList(s, g, ListAt(s, g).(size := Increment(ListAt(s, g).size))), t, Exit(Ack))
    // pop
    case PopTop => Goto(s, t, PopList(s.cur))
    case PopList(g) => Goto(s, t, PopBegin(g, ListAt(s, g).begin))
    case PopBegin(g, n0) =>
      var n1 := Of(s.next, n0);
      Goto(s, t, if n1 == Null then Exit(Empty) else PopAgain(g, n0, n1))
    case PopAgain(g, n0, n1) =>
      Goto(s, t, if n0 != ListAt(s, g).begin then PopTop else PopCas(g, n0, n1))
    case PopCas(g, n0, n1) =>
      if ListAt(s, g).begin == n0
      then Goto(SetList(s, g, ListAt(s, g).(begin := n1)), t, PopTake(g, n1))
      else Goto(s, t, PopTop)
    case PopTake(g, n1) => Goto(s, t, if n1.Elem? then PopCount(g, n1.data) else Done)
    case PopCount(g, v) =>
      Goto(SetList(s, g, ListAt(s, g).(size := Decrement(ListAt(s, g).size))), t, Exit(Got(v)))
    // clear
    case ClearTop =>
      var g := |s.lists|;
      Goto(s.(lists := s.lists + [List(Dummy(g), Dummy(g), 0)], cur := g, next := s.next[Dummy(g) := Null]), t,
        Exit(Ack))
    case Exit(_) => Goto(s, t, Done)
    case Done => s
  }

  predicate Enabled(s: State, a: Action) {
    match a
    case Start(t, _) => t !in s.threads
    case Exec(t, _) => t in s.threads && s.threads[t] != Done
  }

  function Step(s: State, a: Action): State
    requires Enabled(s, a)
  {
    match a
    case Start(t, op) => Begin(s, t, op)
    case Exec(t, spurious) => Instr(s, t, spurious)
  }

  function EventOf(s: State, a: Action): Event
    requires Enabled(s, a)
  {
    match a
    case Start(t, op) => Call(t, op)
    case Exec(t, _) => if s.threads[t].Exit? then Ret(t, s.threads[t].res) else Tau
  }

  // ----- Runs: any interleaving of any number of operations -----

  datatype Run = Run(state: State, trace: seq<Event>)

  /** The state and trace after a schedule, when every action was possible in its turn. */
  function After(acts: seq<Action>): (r: Run)
    decreases |acts|
  {
    if acts == [] then Run(Init, [])
    else
      var r := After(acts[..|acts| - 1]);
      var a := acts[|acts| - 1];
      if Enabled(r.state, a) then Run(Step(r.state, a), r.trace + [EventOf(r.state, a)]) else r
  }
}
