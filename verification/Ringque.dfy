/** container/ringque.h: a circular array of slots that doubles under the unique side of a
    shared mutex. */
module Ringque {
  import opened Linearizability
  import opened Counting

  /** A slot holds a pointer to an element, or null. */
  datatype Slot = Free | Full(v: Value)

  datatype Local =
    | PushLock(v: Value)
    | PushLoad(v: Value)
    | PushCheck(v: Value, slide: nat, newslide: nat)
    | PushUnlock(v: Value, slide: nat, newslide: nat)
    | PushTry(v: Value, slide: nat, newslide: nat)
    | PushRecheck(v: Value, slide: nat, newslide: nat)
    | PushResize(v: Value, slide: nat, newslide: nat)
    | PushRelease(v: Value, slide: nat, newslide: nat)
    | PushRelock(v: Value, slide: nat, newslide: nat)
    | PushClaim(v: Value, slide: nat, newslide: nat)
    | PushFill(v: Value, slide: nat)
    | PushCount
    | PushExit
    | PopLock
    | PopLoad
    | PopCheck(slide: nat, slidetail: nat)
    | PopClaim(slide: nat, slidetail: nat)
    | PopTake(slidetail: nat)
    | PopCount(v: Value)
    | PopExit(res: Res)
    | Exit(res: Res)
    | Done

  datatype State = State(
    que: seq<Slot>, push: nat, pop: nat, size: nat, readers: set<OpId>, writer: bool, threads: map<OpId, Local>)

  datatype Action = Start(t: OpId, op: Op) | Exec(t: OpId, miss: bool)

  function Empties(n: nat): (que: seq<Slot>)
    ensures |que| == n && forall i :: 0 <= i < n ==> que[i] == Free
  {
    seq(n, i => Free)
  }

  /** pop starts at the array length: it runs from 1 to the length, push from 0 to one less. */
  function Init(max: nat): State {
    State(Empties(max), 0, max, 0, {}, false, map[])
  }

  /** The slot the next pop takes. */
  function Tail(pop: nat, max: nat): nat {
    if pop == max then 0 else pop
  }

  function SlotAt(que: seq<Slot>, i: nat): Slot {
    if i < |que| then que[i] else Free
  }

  function SetSlot(que: seq<Slot>, i: nat, slot: Slot): seq<Slot> {
    if i < |que| then que[i := slot] else que
  }

  /** Slot i of the array that replaces que, with as many slots again put in front of the
      slots from pop on, or behind all slots when pop is below push. */
  function Moved(que: seq<Slot>, push: nat, pop: nat, i: nat): Slot {
    if pop >= push then
      (if i < push then SlotAt(que, i) else if i >= |que| + pop then SlotAt(que, i - |que|) else Free)
    else
      (if pop <= i < push then SlotAt(que, i) else Free)
  }

  function Resized(que: seq<Slot>, push: nat, pop: nat): seq<Slot> {
    seq(2 * |que|, i requires 0 <= i => Moved(que, push, pop, i))
  }

  function ResizedPop(push: nat, pop: nat, max: nat): nat {
    if pop >= push then pop + max else pop
  }

  function Goto(s: State, t: OpId, l: Local): State {
    s.(threads := s.threads[t := l])
  }

  /** lock on the shared side: the thread stays where it is while the unique side is held. */
  function Shared(s: State, t: OpId, got: Local): State {
    if s.writer then s else Goto(s, t, got).(readers := s.readers + {t})
  }

  function Unshared(s: State, t: OpId, l: Local): State {
    Goto(s, t, l).(readers := s.readers - {t})
  }

  function Begin(s: State, t: OpId, op: Op): State {
    match op
    case Push(v) => Goto(s, t, PushLock(v))
    case _ => Goto(s, t, PopLock)
  }

  /** One atomic instruction of t; miss lets a try_lock or a weak compare-and-exchange fail
      for no reason. */
  function Instr(s: State, t: OpId, miss: bool): (r: State)
    requires t in s.threads
    ensures t in r.threads && r.threads == s.threads[t := r.threads[t]]
  {
    match s.threads[t]
    // push
    case PushLock(v) => Shared(s, t, PushLoad(v))
    case PushLoad(v) => Goto(s, t, PushCheck(v, s.push, s.push + 1))
    case PushCheck(v, slide, newslide) =>
      Goto(s, t, if newslide == s.pop then PushUnlock(v, slide, newslide) else PushClaim(v, slide, newslide))
    case PushUnlock(v, slide, newslide) => Unshared(s, t, PushTry(v, slide, newslide))
    case PushTry(v, slide, newslide) =>
      if s.readers == {} && !s.writer && !miss
      then Goto(s, t, PushRecheck(v, slide, newslide)).(writer := true)
      else Goto(s, t, PushRelock(v, slide, newslide))
    case PushRecheck(v, slide, newslide) =>
      Goto(s, t, if newslide == s.pop then PushResize(v, slide, newslide) else PushRelease(v, slide, newslide))
    case PushResize(v, slide, newslide) =>
      Goto(s, t, PushRelease(v, slide, newslide)).(que := Resized(s.que, s.push, s.pop),
        pop := ResizedPop(s.push, s.pop, |s.que|))
    case PushRelease(v, slide, newslide) => Goto(s, t, PushRelock(v, slide, newslide)).(writer := false)
    case PushRelock(v, slide, newslide) => Shared(s, t, PushCheck(v, slide, newslide))
    case PushClaim(v, slide, newslide) =>
      if s.push == slide
      then Goto(s, t, PushFill(v, slide)).(push := if newslide == |s.que| then 0 else newslide)
      else Goto(s, t, PushCheck(v, s.push, s.push + 1))
    case PushFill(v, slide) =>
      if SlotAt(s.que, slide) == Free && !miss
      then Goto(s, t, PushCount).(que := SetSlot(s.que, slide, Full(v)))
      else s
    case PushCount => Goto(s, t, PushExit).(size := Increment(s.size))
    case PushExit => Unshared(s, t, Exit(Ack))
    // pop
    case PopLock => Shared(s, t, PopLoad)
    case PopLoad => Goto(s, t, PopCheck(s.pop, Tail(s.pop, |s.que|)))
    case PopCheck(slide, slidetail) =>
      Goto(s, t, if slidetail == s.push then PopExit(Empty) else PopClaim(slide, slidetail))
    case PopClaim(slide, slidetail) =>
      if s.pop == slide
      then Goto(s, t, PopTake(slidetail)).(pop := slidetail + 1)
      else Goto(s, t, PopCheck(s.pop, slidetail))
    case PopTake(slidetail) =>
      (match SlotAt(s.que, slidetail)
       case Free => s
       case Full(v) => Goto(s, t, PopCount(v)).(que := SetSlot(s.que, slidetail, Free)))
    case PopCount(v) => Goto(s, t, PopExit(Got(v))).(size := Decrement(s.size))
    case PopExit(res) => Unshared(s, t, Exit(res))
    case Exit(_) => Goto(s, t, Done)
    case Done => s
  }

  predicate Pushing(l: Local) {
    l.PushLock? || l.PushLoad? || l.PushCheck? || l.PushUnlock? || l.PushTry? || l.PushRecheck? || l.PushResize? ||
    l.PushRelease? || l.PushRelock? || l.PushClaim? || l.PushFill? || l.PushCount? || l.PushExit?
  }

  predicate Popping(l: Local) {
    l.PopLock? || l.PopLoad? || l.PopCheck? || l.PopClaim? || l.PopTake? || l.PopCount? || l.PopExit?
  }

  /** When single, pushes do not overlap and pops do not overlap. */
  predicate Enabled(s: State, a: Action, single: bool) {
    match a
    case Start(t, op) =>
      t !in s.threads && op != Clear &&
      (single ==> forall u | u in s.threads :: !(if op.Push? then Pushing(s.threads[u]) else Popping(s.threads[u])))
    case Exec(t, _) => t in s.threads && s.threads[t] != Done
  }

  function Step(s: State, a: Action): State
    requires Enabled(s, a, false)
  {
    match a
    case Start(t, op) => Begin(s, t, op)
    case Exec(t, miss) => Instr(s, t, miss)
  }

  function EventOf(s: State, a: Action): Event
    requires Enabled(s, a, false)
  {
    match a
    case Start(t, op) => Call(t, op)
    case Exec(t, _) => if s.threads[t].Exit? then Ret(t, s.threads[t].res) else Tau
  }

  datatype Run = Run(state: State, trace: seq<Event>)

  /** The state and trace after a schedule on a ring of max slots; actions that are not
      possible are skipped. */
  function After(max: nat, acts: seq<Action>, single: bool): (r: Run)
    decreases |acts|
  {
    if acts == [] then Run(Init(max), [])
    else
      var r := After(max, acts[..|acts| - 1], single);
      var a := acts[|acts| - 1];
      if Enabled(r.state, a, single) then Run(Step(r.state, a), r.trace + [EventOf(r.state, a)]) else r
  }
}
