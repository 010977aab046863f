/** container/optimisticque.h: a list linked backwards by the exchange that adds a node, and
    forwards by a later store that a pop may have to repair. */
module Optimisticque {
  import opened Linearizability
  import opened NodeChains
  import opened Counting

  /** Where an operation stands.  In the repair walk tail is the node it has reached and top
      the one it started from; no instruction reads top. */
  datatype Local =
    | PushTop(v: Value)
    | PushPrev(v: Value, hp: Node)
    | PushCas(v: Value, hp: Node)
    | PushLink(v: Value, hp: Node)
    | PushCount
    | PopTop
    | PopDetail(n0: Node)
    | PopNext(n0: Node)
    | PopTail(n0: Node)
    | PopHead(n0: Node, top: Node, tail: Node)
    | PopPrev(n0: Node, top: Node, tail: Node)
    | PopStore(n0: Node, top: Node, tail: Node, before: Node)
    | PopCas(n0: Node, n1: Node)
    | PopTake(n1: Node)
    | PopCount(v: Value)
    | Exit(res: Res)
    | Done
    | Crashed

  datatype State = State(
    next: map<Node, Node>, prev: map<Node, Node>, head: Node, detail: Node, size: nat, threads: map<OpId, Local>)

  datatype Action = Start(t: OpId, op: Op) | Exec(t: OpId, spurious: bool)

  const Init: State := State(map[Dummy(0) := Null], map[Dummy(0) := Null], Dummy(0), Dummy(0), 0, map[])

  function Goto(s: State, t: OpId, l: Local): State {
    s.(threads := s.threads[t := l])
  }

  function Begin(s: State, t: OpId, op: Op): State {
    match op
    case Push(v) => Goto(s, t, PushTop(v)).(next := s.next[Elem(t, v) := Null], prev := s.prev[Elem(t, v) := Null])
    case _ => Goto(s, t, PopTop)
  }

  /** One atomic instruction of t; spurious lets a weak compare-and-exchange fail.  After its
      repair walk a pop starts over when retry; the source goes on to exchange the head with
      the null link it had read. */
  function Instr(s: State, t: OpId, spurious: bool, retry: bool): (r: State)
    requires t in s.threads
    ensures t in r.threads && r.threads == s.threads[t := r.threads[t]]
  {
    match s.threads[t]
    // push
    case PushTop(v) => Goto(s, t, PushPrev(v, s.detail))
    case PushPrev(v, hp) => Goto(s, t, PushCas(v, hp)).(prev := s.prev[Elem(t, v) := hp])
    case PushCas(v, hp) =>
      if s.detail == hp && !spurious
      then Goto(s, t, PushLink(v, hp)).(detail := Elem(t, v))
      else Goto(s, t, PushTop(v))
    case PushLink(v, hp) => Goto(s, t, PushCount).(next := s.next[hp := Elem(t, v)])
    case PushCount => Goto(s, t, Exit(Ack)).(size := Increment(s.size))
    // pop
    case PopTop => Goto(s, t, PopDetail(s.head))
    case PopDetail(n0) => Goto(s, t, if n0 == s.detail then Exit(Empty) else PopNext(n0))
    case PopNext(n0) =>
      var n1 := Of(s.next, n0);
      Goto(s, t, if n0 == Null then Crashed else if n1 == Null then PopTail(n0) else PopCas(n0, n1))
    case PopTail(n0) => Goto(s, t, PopHead(n0, s.detail, s.detail))
    case PopHead(n0, top, tail) =>
      Goto(s, t,
        if n0 == s.head && tail != n0 then PopPrev(n0, top, tail) else if retry then PopTop else PopCas(n0, Null))
    case PopPrev(n0, top, tail) => Goto(s, t, PopStore(n0, top, tail, Of(s.prev, tail)))
    case PopStore(n0, top, tail, before) =>
      if before == Null then Goto(s, t, Crashed)
      else Goto(s, t, PopHead(n0, top, before)).(next := s.next[before := tail])
    case PopCas(n0, n1) =>
      if s.head == n0 && !spurious then Goto(s, t, PopTake(n1)).(head := n1) else Goto(s, t, PopTop)
    case PopTake(n1) => Goto(s, t, if n1.Elem? then PopCount(n1.data) else Crashed)
    case PopCount(v) => Goto(s, t, Exit(Got(v))).(size := Decrement(s.size))
    case Exit(_) => Goto(s, t, Done)
    case _ => s
  }

  predicate Enabled(s: State, a: Action) {
    match a
    case Start(t, op) => t !in s.threads && op != Clear
    case Exec(t, _) => t in s.threads && s.threads[t] != Done && s.threads[t] != Crashed
  }

  function Step(s: State, a: Action, retry: bool): State
    requires Enabled(s, a)
  {
    match a
    case Start(t, op) => Begin(s, t, op)
    case Exec(t, spurious) => Instr(s, t, spurious, retry)
  }

  function EventOf(s: State, a: Action): Event
    requires Enabled(s, a)
  {
    match a
    case Start(t, op) => Call(t, op)
    case Exec(t, _) => if s.threads[t].Exit? then Ret(t, s.threads[t].res) else Tau
  }

  datatype Run = Run(state: State, trace: seq<Event>)

  /** The state and trace after a schedule; actions that are not possible are skipped. */
  function After(acts: seq<Action>, retry: bool): (r: Run)
    decreases |acts|
  {
    if acts == [] then Run(Init, [])
    else
      var r := After(acts[..|acts| - 1], retry);
      var a := acts[|acts| - 1];
      if Enabled(r.state, a) then Run(Step(r.state, a, retry), r.trace + [EventOf(r.state, a)]) else r
  }

  /** Thread t alone takes n steps, none of them a spurious failure. */
  function Lone(s: State, t: OpId, n: nat, retry: bool): (r: State)
    requires t in s.threads
    ensures t in r.threads
    decreases n
  {
    if n == 0 then s else Lone(Instr(s, t, false, retry), t, n - 1, retry)
  }
}
