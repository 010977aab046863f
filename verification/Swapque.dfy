/** container/swapque.h: two chains, a front to pop from and a back to push to, exchanged
    under the unique side of a shared mutex when the front runs out. */
module Swapque {
  import opened Linearizability
  import opened NodeChains
  import opened Counting

  datatype Micro = Micro(begin: Node, end: Node)

  datatype Local =
    | PushTry(v: Value)
    | PushExchange(v: Value)
    | PushLink(v: Value, prev: Node)
    | PushCount(v: Value)
    | PushUnlock
    | PopStart
    | PopTry
    | PopBegin
    | PopEnd(n0: Node)
    | PopSize
    | PopUnlock
    | PopTryUnique
    | PopSwap
    | PopUnlockUnique
    | PopRelock
    | PopNext(n0: Node)
    | PopCas(n0: Node, n1: Node)
    | PopTake(n1: Node)
    | PopCount(v: Value)
    | PopRelease(res: Res)
    | Exit(res: Res)
    | Done

  /** readers hold the shared side of the mutex, writer the unique side. */
  datatype State = State(
    next: map<Node, Node>, front: Micro, back: Micro, size: nat,
    readers: set<OpId>, writer: bool, threads: map<OpId, Local>)

  datatype Action = Start(t: OpId, op: Op) | Exec(t: OpId, miss: bool)

  const Init: State :=
    State(map[Dummy(0) := Null, Dummy(1) := Null], Micro(Dummy(0), Dummy(0)), Micro(Dummy(1), Dummy(1)), 0, {}, false,
      map[])

  function Goto(s: State, t: OpId, l: Local): State {
    s.(threads := s.threads[t := l])
  }

  /** try_lock on the shared side; it may also miss for no reason. */
  function TryShared(s: State, t: OpId, miss: bool, got: Local, not: Local): State {
    if !s.writer && !miss then Goto(s, t, got).(readers := s.readers + {t}) else Goto(s, t, not)
  }

  function Unlock(s: State, t: OpId, l: Local): State {
    Goto(s, t, l).(readers := s.readers - {t})
  }

  function Begin(s: State, t: OpId, op: Op): State {
    match op
    case Push(v) => Goto(s, t, PushTry(v)).(next := s.next[Elem(t, v) := Null])
    case _ => Goto(s, t, PopStart)
  }

  /** One atomic instruction of t; miss lets a try_lock fail for no reason. */
  function Instr(s: State, t: OpId, miss: bool): (r: State)
    requires t in s.threads
    ensures t in r.threads && r.threads == s.threads[t := r.threads[t]]
  {
    match s.threads[t]
    // push
    case PushTry(v) => TryShared(s, t, miss, PushExchange(v), PushTry(v))
    case PushExchange(v) => Goto(s, t, PushLink(v, s.back.end)).(back := s.back.(end := Elem(t, v)))
    case PushLink(v, prev) => Goto(s, t, PushCount(v)).(next := s.next[prev := Elem(t, v)])
    case PushCount(v) => Goto(s, t, PushUnlock).(size := Increment(s.size))
    case PushUnlock => Unlock(s, t, Exit(Ack))
    // pop
    case PopStart => Goto(s, t, if s.size == 0 then Exit(Empty) else PopTry)
    case PopTry => TryShared(s, t, miss, PopBegin, PopTry)
    case PopBegin => Goto(s, t, PopEnd(s.front.begin))
    case PopEnd(n0) => Goto(s, t, if n0 == s.front.end then PopSize else PopNext(n0))
    case PopSize => Goto(s, t, if s.size == 0 then PopRelease(Empty) else PopUnlock)
    case PopUnlock => Unlock(s, t, PopTryUnique)
    case PopTryUnique =>
      if s.readers == {} && !s.writer && !miss then Goto(s, t, PopSwap).(writer := true) else Goto(s, t, PopRelock)
    case PopSwap => Goto(s, t, PopUnlockUnique).(front := s.back, back := s.front)
    case PopUnlockUnique => Goto(s, t, PopRelock).(writer := false)
    case PopRelock => TryShared(s, t, false, PopBegin, PopRelock)
    case PopNext(n0) => Goto(s, t, PopCas(n0, Of(s.next, n0)))
    case PopCas(n0, n1) =>
      if s.front.begin == n0
      then Goto(s, t, PopTake(n1)).(front := s.front.(begin := n1))
      else Goto(s, t, PopEnd(s.front.begin))
    case PopTake(n1) => Goto(s, t, if n1.Elem? then PopCount(n1.data) else Done)
    case PopCount(v) => Goto(s, t, PopRelease(Got(v))).(size := Decrement(s.size))
    case PopRelease(res) => Unlock(s, t, Exit(res))
    case Exit(_) => Goto(s, t, Done)
    case Done => s
  }

  predicate Popping(l: Local) {
    l.PopStart? || l.PopTry? || l.PopBegin? || l.PopEnd? || l.PopSize? || l.PopUnlock? || l.PopTryUnique? ||
    l.PopSwap? || l.PopUnlockUnique? || l.PopRelock? || l.PopNext? || l.PopCas?
  }

  /** Which schedules to look at: all of them, those whose swaps find one of the chains at
      its end, or those in which no two pops search at the same time. */
  datatype Mode = AnySwap | CleanSwap | OnePop

  predicate OneSideEmpty(s: State) {
    s.front.begin == s.front.end || s.back.begin == s.back.end
  }

  /** The counter never wraps: the queue never holds 2^32 elements. */
  predicate Enabled(s: State, a: Action, mode: Mode) {
    match a
    case Start(t, op) =>
      t !in s.threads && op != Clear &&
      (mode.OnePop? && op == Pop ==> forall u | u in s.threads :: !Popping(s.threads[u]))
    case Exec(t, _) =>
      t in s.threads && s.threads[t] != Done && (s.threads[t].PushCount? ==> s.size + 1 < WORD) &&
      (mode.CleanSwap? && s.threads[t].PopSwap? ==> OneSideEmpty(s))
  }

  function Step(s: State, a: Action): State
    requires Enabled(s, a, AnySwap)
  {
    match a
    case Start(t, op) => Begin(s, t, op)
    case Exec(t, miss) => Instr(s, t, miss)
  }

  function EventOf(s: State, a: Action): Event
    requires Enabled(s, a, AnySwap)
  {
    match a
    case Start(t, op) => Call(t, op)
    case Exec(t, _) => if s.threads[t].Exit? then Ret(t, s.threads[t].res) else Tau
  }

  datatype Run = Run(state: State, trace: seq<Event>)

  /** The state and trace after a schedule; actions that are not possible are skipped. */
  function After(acts: seq<Action>, mode: Mode): (r: Run)
    decreases |acts|
  {
    if acts == [] then Run(Init, [])
    else
      var r := After(acts[..|acts| - 1], mode);
      var a := acts[|acts| - 1];
      if Enabled(r.state, a, mode) then Run(Step(r.state, a), r.trace + [EventOf(r.state, a)]) else r
  }
}
