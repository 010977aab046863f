/** swapque: first in, first out when pops do not overlap; nothing lost, nothing duplicated
    and no false "empty" for any number of consumers. */
module SwapqueProof {
  import opened Linearizability
  import opened NodeChains
  import opened Counting
  import opened SharedMutex
  import opened Swapque

  /** The history of a chain: its nodes in the order of the exchanges, and the position of
      its begin pointer.  id names its dummy. */
  datatype Side = Side(id: nat, chain: seq<Node>, b: nat)

  datatype Place = Place(id: nat, i: nat)

  /** f and k are the front and the back chain.  A push takes effect with the first push at
      or behind it that is counted: com is the position of the last node of k that has. */
  datatype History = History(
    f: Side, k: Side, com: nat, home: map<Node, Place>,
    done: set<OpId>, counted: set<OpId>, taken: set<OpId>, log: seq<Entry>)

  function PhaseOf(l: Local, effected: bool): Phase {
    match l
    case PushTry(v) => Pending(Push(v))
    case PushExchange(v) => Pending(Push(v))
    case PushLink(v, _) => if effected then Effected(Ack) else Pending(Push(v))
    case PushCount(v) => if effected then Effected(Ack) else Pending(Push(v))
    case PushUnlock => Effected(Ack)
    case PopTake(n1) => if n1.Elem? then Effected(Got(n1.data)) else Effected(Empty)
    case PopCount(v) => Effected(Got(v))
    case PopRelease(res) => Effected(res)
    case Exit(res) => Effected(res)
    case Done => Over
    case _ => Pending(Pop)
  }

  function PhasesOf(threads: map<OpId, Local>, done: set<OpId>): Phases {
    map t | t in threads :: PhaseOf(threads[t], t in done)
  }

  function Rest(f: Side): seq<Value> {
    if f.b < |f.chain| then Values(f.chain[f.b + 1..]) else []
  }

  function Upto(k: Side, com: nat): seq<Value> {
    if k.b <= com < |k.chain| then Values(k.chain[k.b + 1..com + 1]) else []
  }

  /** The elements of the queue: the rest of the front, then the part of the back that has
      taken effect. */
  function Content(h: History): seq<Value> { Rest(h.f) + Upto(h.k, h.com) }

  // ----- The queue as a bag -----

  /** How often v occurs in q. */
  function Occurs(q: seq<Value>, v: Value): nat {
    if q == [] then 0 else Occurs(q[..|q| - 1], v) + (if q[|q| - 1] == v then 1 else 0)
  }

  /** How many copies of v are in the bag after the logged operations. */
  ghost function InBag(log: seq<Entry>, v: Value): int
    decreases |log|
  {
    if log == [] then 0
    else
      var e := log[|log| - 1];
      InBag(log[..|log| - 1], v) + (if e.op == Push(v) then 1 else 0) - (if e.res == Got(v) then 1 else 0)
  }

  /** A pop gets some element that is there, and "empty" only when nothing is. */
  ghost predicate BagAllows(log: seq<Entry>, e: Entry) {
    match e.op
    case Push(_) => e.res == Ack
    case Pop => (e.res.Got? && InBag(log, e.res.v) > 0) || (e.res == Empty && forall v :: InBag(log, v) == 0)
    case Clear => false
  }

  ghost predicate BagLegal(log: seq<Entry>)
    decreases |log|
  {
    log == [] || (BagLegal(log[..|log| - 1]) && BagAllows(log[..|log| - 1], log[|log| - 1]))
  }

  ghost predicate BagLinearizable(trace: seq<Event>) {
    exists log :: Orders(trace, log) && BagLegal(log)
  }

  // ----- The invariant -----

  predicate At(h: History, n: Node, id: nat, i: nat) {
    n in h.home && h.home[n] == Place(id, i)
  }

  ghost predicate Chained(next: map<Node, Node>, m: Micro, c: Side) {
    && c.b < |c.chain|
    && c.chain[0] == Dummy(c.id)
    && c.chain[c.b] == m.begin && c.chain[|c.chain| - 1] == m.end
    && (forall i :: 0 < i < |c.chain| ==> c.chain[i].Elem?)
    && (forall i :: 0 <= i < |c.chain| ==> c.chain[i] in next)
  }

  /** The push that has put n behind p but not yet stored the link. */
  predicate Linking(threads: map<OpId, Local>, n: Node, p: Node) {
    n.Elem? && n.t in threads && threads[n.t] == PushLink(n.data, p)
  }

  /** The push of n is between its exchange and its counting. */
  predicate InFlight(threads: map<OpId, Local>, n: Node) {
    n.Elem? && n.t in threads &&
    (threads[n.t] == PushCount(n.data) || (threads[n.t].PushLink? && threads[n.t].v == n.data))
  }

  /** Every link of the front is stored. */
  ghost predicate FrontLinked(next: map<Node, Node>, f: Side) {
    forall i {:trigger Following(f.chain, i)} ::
      0 <= i < |f.chain| && f.chain[i] in next ==> next[f.chain[i]] == Following(f.chain, i)
  }

  /** A link of the back is stored or a push is about to store it. */
  ghost predicate BackLinked(next: map<Node, Node>, k: Side, threads: map<OpId, Local>) {
    forall i {:trigger Following(k.chain, i)} :: 0 <= i < |k.chain| && k.chain[i] in next ==>
      || next[k.chain[i]] == Following(k.chain, i)
      || (next[k.chain[i]] == Null && Linking(threads, Following(k.chain, i), k.chain[i]))
  }

  ghost predicate HomesOf(h: History, c: Side) {
    forall i {:trigger At(h, c.chain[i], c.id, i)} :: 0 <= i < |c.chain| ==> At(h, c.chain[i], c.id, i)
  }

  /** The parts of the invariant.  The verifier looks inside a part only where a proof
      mentions Look. */
  datatype Part = TheShape | TheLedger | TheTally | TheNodes | TheLog | TheSearch | ThePlaces

  predicate Look(part: Part) { true }

  ghost predicate Shape(next: map<Node, Node>, front: Micro, back: Micro, threads: map<OpId, Local>, h: History) {
    forall part {:trigger Look(part)} :: Look(part) && part == TheShape ==> Shaped(next, front, back, threads, h)
  }

  ghost predicate Shaped(next: map<Node, Node>, front: Micro, back: Micro, threads: map<OpId, Local>, h: History) {
    && Chained(next, front, h.f) && Chained(next, back, h.k)
    && FrontLinked(next, h.f) && BackLinked(next, h.k, threads)
    && HomesOf(h, h.f) && HomesOf(h, h.k) && h.f.id != h.k.id
    && h.k.b <= h.com < |h.k.chain|
  }

  function Owing(threads: map<OpId, Local>): set<OpId> {
    set t | t in threads && (threads[t].PopTake? || threads[t].PopCount?)
  }

  /** Which pushes are counted, taken, in flight, and have taken effect. */
  ghost predicate Booked(h: History, threads: map<OpId, Local>) {
    && (forall i :: 0 < i < |h.f.chain| && h.f.chain[i].Elem? ==>
          var t := h.f.chain[i].t; t in h.counted && t in h.done && (t in h.taken <==> i <= h.f.b))
    && (forall i :: 0 < i < |h.k.chain| && h.k.chain[i].Elem? ==>
          var t := h.k.chain[i].t;
          && (t in h.taken <==> i <= h.k.b)
          && (t in h.done <==> i <= h.com)
          && (t in h.counted || InFlight(threads, h.k.chain[i])))
    && (h.com > h.k.b && h.com < |h.k.chain| && h.k.chain[h.com].Elem? ==> h.k.chain[h.com].t in h.counted)
    && h.taken <= h.counted <= h.done
    && (forall t :: t in h.done ==> t in threads && !threads[t].PushTry? && !threads[t].PushExchange?)
    && (forall n :: n in h.home && n.Elem? ==> n.t in threads && !threads[n.t].PushTry? && !threads[n.t].PushExchange?)
    && (forall n, n' :: n in h.home && n' in h.home && n.Elem? && n'.Elem? && n.t == n'.t ==> n == n')
  }

  ghost predicate Counted(size: nat, h: History, threads: map<OpId, Local>) {
    size == |h.counted| - |h.taken| + |Owing(threads)| < WORD
  }

  ghost predicate Ledger(h: History, threads: map<OpId, Local>) {
    forall part {:trigger Look(part)} :: Look(part) && part == TheLedger ==> Booked(h, threads)
  }

  ghost predicate Tally(size: nat, h: History, threads: map<OpId, Local>) {
    forall part {:trigger Look(part)} :: Look(part) && part == TheTally ==> Counted(size, h, threads)
  }

  ghost predicate Books(size: nat, h: History, threads: map<OpId, Local>) {
    Ledger(h, threads) && Tally(size, h, threads)
  }

  ghost predicate OnSide(h: History, t: OpId) {
    exists n: Node :: n.Elem? && n.t == t && (On(h, h.f, n) || On(h, h.k, n))
  }

  /** The node of a counted push is in one of the chains. */
  ghost predicate Placed(h: History) {
    forall part {:trigger Look(part)} :: Look(part) && part == ThePlaces ==> forall t :: t in h.counted ==> OnSide(h, t)
  }

  predicate HoldsShared(l: Local) {
    l.PushExchange? || l.PushLink? || l.PushCount? || l.PushUnlock? || l.PopBegin? || l.PopEnd? || l.PopSize? ||
    l.PopUnlock? || l.PopNext? || l.PopCas? || l.PopTake? || l.PopCount? || l.PopRelease?
  }

  predicate HoldsUnique(l: Local) {
    l.PopSwap? || l.PopUnlockUnique?
  }

  ghost predicate Nodes(next: map<Node, Node>, h: History, threads: map<OpId, Local>) {
    forall part {:trigger Look(part)} :: Look(part) && part == TheNodes ==> Allocated(next, h, threads)
  }

  ghost predicate Allocated(next: map<Node, Node>, h: History, threads: map<OpId, Local>) {
    && (forall n :: n in next && n.Elem? ==> n.t in threads)
    && (forall n :: n in h.home ==> n in next)
  }

  predicate Private(next: map<Node, Node>, h: History, t: OpId, v: Value) {
    var n := Elem(t, v);
    n in next && next[n] == Null && n !in h.home
  }

  predicate On(h: History, c: Side, n: Node) {
    n in h.home && h.home[n].id == c.id && h.home[n].i < |c.chain| && c.chain[h.home[n].i] == n
  }

  ghost predicate Thread(next: map<Node, Node>, h: History, t: OpId, l: Local) {
    match l
    case PushTry(v) => Private(next, h, t, v)
    case PushExchange(v) => Private(next, h, t, v)
    case PushLink(v, p) =>
      var n := Elem(t, v);
      && On(h, h.k, n) && On(h, h.k, p) && h.home[n].i == h.home[p].i + 1
      && p in next && next[p] == Null && t !in h.counted
    case PushCount(v) => On(h, h.k, Elem(t, v)) && h.home[Elem(t, v)].i > 0 && t !in h.counted
    case PopEnd(n0) => On(h, h.f, n0) && h.home[n0].i <= h.f.b
    case PopNext(n0) => On(h, h.f, n0) && h.home[n0].i <= h.f.b && h.home[n0].i + 1 < |h.f.chain|
    case PopCas(n0, n1) => On(h, h.f, n0) && h.home[n0].i <= h.f.b && On(h, h.f, n1) &&
      h.home[n1].i == h.home[n0].i + 1 && n1.Elem?
    case PopTake(n1) => n1.Elem?
    case _ => true
  }

  ghost predicate Threads(next: map<Node, Node>, h: History, threads: map<OpId, Local>) {
    forall t {:trigger Thread(next, h, t, threads[t])} :: t in threads ==> Thread(next, h, t, threads[t])
  }

  ghost predicate Explains(h: History, mode: Mode) {
    if mode != AnySwap then Legal([], h.log) && Replay([], h.log) == Content(h)
    else BagLegal(h.log) && forall v :: InBag(h.log, v) == Occurs(Content(h), v)
  }

  ghost predicate Explained(h: History, mode: Mode) {
    forall part {:trigger Look(part)} :: Look(part) && part == TheLog ==> Explains(h, mode)
  }

  /** Between finding the front empty and the swap. */
  predicate FoundFrontEmpty(l: Local) {
    l.PopSize? || l.PopUnlock? || l.PopTryUnique? || l.PopSwap?
  }

  /** At most one pop is searching, and what it found is still so. */
  ghost predicate Alone(threads: map<OpId, Local>, h: History) {
    forall part {:trigger Look(part)} :: Look(part) && part == TheSearch ==> OnlyOne(threads, h)
  }

  ghost predicate OnlyOne(threads: map<OpId, Local>, h: History) {
    && (forall t, u :: t in threads && u in threads && Popping(threads[t]) && Popping(threads[u]) ==> t == u)
    && (forall t :: t in threads && FoundFrontEmpty(threads[t]) ==> h.f.b == |h.f.chain| - 1)
  }

  ghost predicate Inv(s: State, trace: seq<Event>, h: History, mode: Mode) {
    && Shape(s.next, s.front, s.back, s.threads, h)
    && Books(s.size, h, s.threads)
    && Locks(s.readers, s.writer, s.threads, HoldsShared, HoldsUnique)
    && Nodes(s.next, h, s.threads)
    && Threads(s.next, h, s.threads)
    && Track(trace, h.log, PhasesOf(s.threads, h.done))
    && Explained(h, mode)
    && Placed(h)
    && (mode.OnePop? ==> Alone(s.threads, h))
  }

  ghost predicate Holds(s: State, trace: seq<Event>, h: History, mode: Mode) {
    exists h' :: h' == h && Inv(s, trace, h', mode)
  }

  ghost predicate Simulated(s: State, trace: seq<Event>, mode: Mode) {
    exists h :: Inv(s, trace, h, mode)
  }

  // ----- Logs -----

  function Pushes(nodes: seq<Node>): seq<Entry>
    decreases |nodes|
  {
    if nodes == [] then []
    else
      var n := nodes[|nodes| - 1];
      Pushes(nodes[..|nodes| - 1]) + (if n.Elem? then [Entry(n.t, Push(n.data), Ack)] else [])
  }

  lemma BagSnoc(log: seq<Entry>, e: Entry)
    ensures BagLegal(log + [e]) <==> BagLegal(log) && BagAllows(log, e)
    ensures forall v ::
      InBag(log + [e], v) == InBag(log, v) + (if e.op == Push(v) then 1 else 0) - (if e.res == Got(v) then 1 else 0)
  {
    assert (log + [e])[..|log|] == log;
  }

  lemma {:induction false} OccursConcat(a: seq<Value>, b: seq<Value>, v: Value)
    ensures Occurs(a + b, v) == Occurs(a, v) + Occurs(b, v)
    decreases |b|
  {
    if b == [] {
      assert a + b == a;
    } else {
      assert (a + b)[..|a + b| - 1] == a + b[..|b| - 1];
      OccursConcat(a, b[..|b| - 1], v);
    }
  }

  /** Pushes that take effect together add their values in order. */
  lemma {:induction false} PushesAppend(log: seq<Entry>, nodes: seq<Node>)
    requires Legal([], log) && forall i :: 0 <= i < |nodes| ==> nodes[i].Elem?
    ensures Legal([], log + Pushes(nodes)) && Replay([], log + Pushes(nodes)) == Replay([], log) + Values(nodes)
    decreases |nodes|
  {
    if nodes == [] {
      assert log + Pushes(nodes) == log;
    } else {
      var n, rest := nodes[|nodes| - 1], nodes[..|nodes| - 1];
      PushesAppend(log, rest);
      ReplaySnoc([], log + Pushes(rest), Entry(n.t, Push(n.data), Ack));
      assert log + Pushes(nodes) == log + Pushes(rest) + [Entry(n.t, Push(n.data), Ack)];
    }
  }

  lemma {:induction false} PushesBagged(log: seq<Entry>, nodes: seq<Node>)
    requires BagLegal(log) && forall i :: 0 <= i < |nodes| ==> nodes[i].Elem?
    ensures BagLegal(log + Pushes(nodes))
    ensures forall v :: InBag(log + Pushes(nodes), v) == InBag(log, v) + Occurs(Values(nodes), v)
    decreases |nodes|
  {
    if nodes == [] {
      assert log + Pushes(nodes) == log;
    } else {
      var n, rest := nodes[|nodes| - 1], nodes[..|nodes| - 1];
      var log', e := log + Pushes(rest), Entry(n.t, Push(n.data), Ack);
      PushesBagged(log, rest);
      BagSnoc(log', e);
      assert log + Pushes(nodes) == log' + [e];
      assert Values(nodes)[..|Values(nodes)| - 1] == Values(rest);
    }
  }

  function Ids(nodes: seq<Node>): set<OpId> {
    set n | n in nodes && n.Elem? :: n.t
  }

  lemma PhasesUpdate(threads: map<OpId, Local>, done: set<OpId>, t: OpId, l: Local)
    ensures PhasesOf(threads[t := l], done) == PhasesOf(threads, done)[t := PhaseOf(l, t in done)]
    ensures t in threads && PhaseOf(l, t in done) == PhaseOf(threads[t], t in done) ==>
      PhasesOf(threads[t := l], done) == PhasesOf(threads, done)
  {}

  lemma InFlightTakesEffect(threads: map<OpId, Local>, done: set<OpId>, n: Node)
    requires InFlight(threads, n) && n.t !in done
    ensures PhasesOf(threads, done)[n.t] == Pending(Push(n.data))
    ensures PhasesOf(threads, done + {n.t}) == PhasesOf(threads, done)[n.t := Effected(Ack)]
  {}

  lemma PushTakesEffect(trace: seq<Event>, log: seq<Entry>, threads: map<OpId, Local>, done: set<OpId>, n: Node)
    requires Track(trace, log, PhasesOf(threads, done)) && InFlight(threads, n) && n.t !in done
    ensures Track(trace, log + [Entry(n.t, Push(n.data), Ack)], PhasesOf(threads, done + {n.t}))
  {
    InFlightTakesEffect(threads, done, n);
    TrackAppend(trace, log, PhasesOf(threads, done), PhasesOf(threads, done + {n.t}), Entry(n.t, Push(n.data), Ack));
  }

  lemma {:induction false} PushesTakeEffect(trace: seq<Event>, log: seq<Entry>, threads: map<OpId, Local>,
                                            done: set<OpId>, nodes: seq<Node>)
    requires Track(trace, log, PhasesOf(threads, done))
    requires forall i :: 0 <= i < |nodes| ==> InFlight(threads, nodes[i]) && nodes[i].t !in done
    requires forall i, j :: 0 <= i < j < |nodes| ==> nodes[i].Elem? && nodes[j].Elem? ==> nodes[i].t != nodes[j].t
    ensures Track(trace, log + Pushes(nodes), PhasesOf(threads, done + Ids(nodes)))
    decreases |nodes|
  {
    hide Track, PhasesOf;
    if nodes == [] {
      assert log + Pushes(nodes) == log;
      assert done + Ids(nodes) == done;
    } else {
      var n, rest := nodes[|nodes| - 1], nodes[..|nodes| - 1];
      PushesTakeEffect(trace, log, threads, done, rest);
      var done1 := done + Ids(rest);
      assert n.t !in done1;
      assert done + Ids(nodes) == done1 + {n.t};
      PushTakesEffect(trace, log + Pushes(rest), threads, done1, n);
      assert log + Pushes(nodes) == log + Pushes(rest) + [Entry(n.t, Push(n.data), Ack)];
    }
  }

  lemma TrackNext(trace: seq<Event>, x: Event, log: seq<Entry>, threads: map<OpId, Local>, done: set<OpId>, t: OpId,
                  l: Local)
    requires Track(trace, log, PhasesOf(threads, done))
    requires match x
      case Call(u, op) => u == t && t !in threads && PhaseOf(l, t in done) == Pending(op)
      case Ret(u, res) => u == t && t in threads && PhaseOf(threads[t], t in done) == Effected(res) &&
        PhaseOf(l, t in done) == Over
      case Tau => t in threads && PhaseOf(l, t in done) == PhaseOf(threads[t], t in done)
    ensures Track(trace + [x], log, PhasesOf(threads[t := l], done))
  {
    PhasesUpdate(threads, done, t, l);
    TrackEvent(trace, x, log, PhasesOf(threads, done), PhasesOf(threads[t := l], done), t, PhaseOf(l, t in done));
  }

  lemma TrackPop(trace: seq<Event>, log: seq<Entry>, threads: map<OpId, Local>, done: set<OpId>, t: OpId, l: Local,
                 res: Res)
    requires Track(trace, log, PhasesOf(threads, done))
    requires t in threads && PhaseOf(threads[t], t in done) == Pending(Pop) && PhaseOf(l, t in done) == Effected(res)
    ensures Track(trace + [Tau], log + [Entry(t, Pop, res)], PhasesOf(threads[t := l], done))
  {
    PhasesUpdate(threads, done, t, l);
    TrackEffect(trace, log, PhasesOf(threads, done), PhasesOf(threads[t := l], done), Entry(t, Pop, res));
  }

  // ----- Parts of the invariant under a step of t -----

  lemma ShapeQuiet(next: map<Node, Node>, front: Micro, back: Micro, threads: map<OpId, Local>, h: History, t: OpId,
                   l: Local)
    requires Shape(next, front, back, threads, h) && (t in threads ==> !threads[t].PushLink?)
    ensures Shape(next, front, back, threads[t := l], h)
  {
    assert Look(TheShape);
    forall i | 0 <= i < |h.k.chain| && h.k.chain[i] in next
      ensures || next[h.k.chain[i]] == Following(h.k.chain, i)
              || (next[h.k.chain[i]] == Null && Linking(threads[t := l], Following(h.k.chain, i), h.k.chain[i]))
    {}
  }

  lemma BooksQuiet(size: nat, h: History, threads: map<OpId, Local>, t: OpId, l: Local)
    requires Books(size, h, threads) && (t in threads ==> !threads[t].PushLink? && !threads[t].PushCount?)
    requires t !in threads ==> l.PushTry? || l.PopStart?
    requires (l.PopTake? || l.PopCount?) <==> t in Owing(threads)
    requires l.PushTry? || l.PushExchange? ==> t !in threads || threads[t].PushTry?
    ensures Books(size, h, threads[t := l])
  {
    assert Look(TheLedger) && Look(TheTally);
    assert Owing(threads[t := l]) == Owing(threads);
    assert forall n :: InFlight(threads, n) ==> InFlight(threads[t := l], n);
  }

  lemma AloneStep(threads: map<OpId, Local>, h: History, h': History, t: OpId, l: Local)
    requires Alone(threads, h)
    requires Popping(l) ==> (t in threads && Popping(threads[t])) || forall u :: u in threads ==> !Popping(threads[u])
    requires FoundFrontEmpty(l) ==> h'.f.b == |h'.f.chain| - 1
    requires h'.f == h.f || (t in threads && Popping(threads[t]))
    ensures Alone(threads[t := l], h')
  {
    assert Look(TheSearch);
    forall u | u in threads && u != t && FoundFrontEmpty(threads[u]) ensures h'.f.b == |h'.f.chain| - 1 {
      assert Popping(threads[u]);
    }
  }

  /** What a step of t other than a swap may change in the history. */
  ghost predicate Grows(h: History, h': History, t: OpId) {
    && h'.f.id == h.f.id && h'.f.chain == h.f.chain && h.f.b <= h'.f.b
    && h'.k.id == h.k.id && h.k.chain <= h'.k.chain
    && (forall n :: n in h.home ==> n in h'.home && h'.home[n] == h.home[n])
    && (forall n :: n in h'.home ==> n in h.home || (n.Elem? && n.t == t))
    && (forall u :: u in h'.counted ==> u in h.counted || u == t)
  }

  /** The node behind n in the back chain is that of push t. */
  predicate BeforeNodeOf(h: History, n: Node, t: OpId) {
    On(h, h.k, n) && h.home[n].i + 1 < |h.k.chain| &&
    h.k.chain[h.home[n].i + 1].Elem? && h.k.chain[h.home[n].i + 1].t == t
  }

  /** A step of t writes no link but the one it has been preparing. */
  ghost predicate HeapGrows(next: map<Node, Node>, next': map<Node, Node>, h: History, t: OpId) {
    forall n :: n in next ==> n in next' && (next'[n] == next[n] || BeforeNodeOf(h, n, t))
  }

  lemma ThreadStable(next: map<Node, Node>, next': map<Node, Node>, h: History, h': History, t: OpId, u: OpId, l: Local)
    requires Grows(h, h', t) && HeapGrows(next, next', h, t) && u != t && Thread(next, h, u, l)
    ensures Thread(next', h', u, l)
  {}

  lemma ThreadHolds(next: map<Node, Node>, h: History, threads: map<OpId, Local>, t: OpId)
    requires Threads(next, h, threads) && t in threads
    ensures Thread(next, h, t, threads[t])
  {}

  ghost predicate Fits(next: map<Node, Node>, h: History, t: OpId, l: Local) {
    forall u :: u == t ==> Thread(next, h, u, l)
  }

  lemma ThreadsStable(next: map<Node, Node>, next': map<Node, Node>, h: History, h': History, threads: map<OpId, Local>,
                      t: OpId, l: Local)
    requires Threads(next, h, threads) && Grows(h, h', t) && HeapGrows(next, next', h, t) && Fits(next', h', t, l)
    ensures Threads(next', h', threads[t := l])
  {
    forall u | u in threads && u != t ensures Thread(next', h', u, threads[u]) {
      ThreadHolds(next, h, threads, u);
      ThreadStable(next, next', h, h', t, u, threads[u]);
    }
  }

  // ----- Steps that leave the history as it is -----

  lemma Starts(s: State, trace: seq<Event>, h: History, mode: Mode, t: OpId, op: Op)
    requires Holds(s, trace, h, mode) && Enabled(s, Start(t, op), mode)
    ensures Simulated(Begin(s, t, op), trace + [Call(t, op)], mode)
  {
    var s' := Begin(s, t, op);
    var l := s'.threads[t];
    LocksSame(s.readers, s.writer, s.threads, HoldsShared, HoldsUnique, t, l);
    StartAllocates(s.next, s'.next, h, s.threads, t, op, l);
    ShapeAllocates(s.next, s'.next, s.front, s.back, s.threads, h);
    ShapeQuiet(s'.next, s.front, s.back, s.threads, h, t, l);
    BooksQuiet(s.size, h, s.threads, t, l);
    TrackNext(trace, Call(t, op), h.log, s.threads, h.done, t, l);
    ThreadsStable(s.next, s'.next, h, h, s.threads, t, l);
    if mode.OnePop? { StartAlone(s.threads, h, t, l); }
    var _ := Inv(s', trace + [Call(t, op)], h, mode);
  }

  lemma StartAlone(threads: map<OpId, Local>, h: History, t: OpId, l: Local)
    requires Alone(threads, h) && t !in threads && (l.PushTry? || l.PopStart?)
    requires l.PopStart? ==> forall u | u in threads :: !Popping(threads[u])
    ensures Alone(threads[t := l], h)
  {
    AloneStep(threads, h, h, t, l);
  }

  lemma StartAllocates(next: map<Node, Node>, next': map<Node, Node>, h: History, threads: map<OpId, Local>, t: OpId,
                       op: Op, l: Local)
    requires Nodes(next, h, threads) && t !in threads
    requires
      if op.Push? then next' == next[Elem(t, op.v) := Null] && l == PushTry(op.v) else next' == next && l == PopStart
    ensures Nodes(next', h, threads[t := l]) && Fits(next', h, t, l)
    ensures forall n :: n in next ==> n in next' && next'[n] == next[n]
  {
    assert Look(TheNodes);
  }

  lemma NodesStay(next: map<Node, Node>, next': map<Node, Node>, h: History, h': History, threads: map<OpId, Local>,
                  t: OpId, l: Local)
    requires Nodes(next, h, threads) && next'.Keys == next.Keys && t in threads
    requires forall n :: n in h'.home ==> n in h.home || n in next
    ensures Nodes(next', h', threads[t := l])
  {
    assert Look(TheNodes);
  }

  lemma ShapeAllocates(next: map<Node, Node>, next': map<Node, Node>, front: Micro, back: Micro,
                       threads: map<OpId, Local>, h: History)
    requires Shape(next, front, back, threads, h)
    requires forall n :: n in next ==> n in next' && next'[n] == next[n]
    ensures Shape(next', front, back, threads, h)
  {
    assert Look(TheShape);
    assert forall i :: 0 <= i < |h.k.chain| ==> h.k.chain[i] in next;
    assert forall i :: 0 <= i < |h.f.chain| ==> h.f.chain[i] in next;
  }

  /** A step that only moves t on and takes or releases the mutex. */
  lemma Quiet(s: State, trace: seq<Event>, h: History, mode: Mode, t: OpId, l: Local, readers: set<OpId>, writer: bool)
    requires Holds(s, trace, h, mode) && t in s.threads
    requires !s.threads[t].PushLink? && !s.threads[t].PushCount? && !s.threads[t].Exit?
    requires PhaseOf(l, t in h.done) == PhaseOf(s.threads[t], t in h.done)
    requires (l.PopTake? || l.PopCount?) <==> t in Owing(s.threads)
    requires l.PushTry? || l.PushExchange? ==> s.threads[t].PushTry?
    requires Popping(l) ==> Popping(s.threads[t])
    requires mode.OnePop? && FoundFrontEmpty(l) ==> h.f.b == |h.f.chain| - 1
    requires Fits(s.next, h, t, l)
    requires Locks(readers, writer, s.threads[t := l], HoldsShared, HoldsUnique)
    ensures Simulated(Goto(s, t, l).(readers := readers, writer := writer), trace + [Tau], mode)
  {
    ShapeQuiet(s.next, s.front, s.back, s.threads, h, t, l);
    BooksQuiet(s.size, h, s.threads, t, l);
    TrackNext(trace, Tau, h.log, s.threads, h.done, t, l);
    ThreadsStable(s.next, s.next, h, h, s.threads, t, l);
    NodesStay(s.next, s.next, h, h, s.threads, t, l);
    if mode.OnePop? { AloneStep(s.threads, h, h, t, l); }
    var _ := Inv(Goto(s, t, l).(readers := readers, writer := writer), trace + [Tau], h, mode);
  }

  lemma Returns(s: State, trace: seq<Event>, h: History, mode: Mode, t: OpId)
    requires Holds(s, trace, h, mode) && t in s.threads && s.threads[t].Exit?
    ensures Simulated(Goto(s, t, Done), trace + [Ret(t, s.threads[t].res)], mode)
  {
    LocksSame(s.readers, s.writer, s.threads, HoldsShared, HoldsUnique, t, Done);
    ShapeQuiet(s.next, s.front, s.back, s.threads, h, t, Done);
    BooksQuiet(s.size, h, s.threads, t, Done);
    TrackNext(trace, Ret(t, s.threads[t].res), h.log, s.threads, h.done, t, Done);
    ThreadsStable(s.next, s.next, h, h, s.threads, t, Done);
    NodesStay(s.next, s.next, h, h, s.threads, t, Done);
    if mode.OnePop? { AloneStep(s.threads, h, h, t, Done); }
    var _ := Inv(Goto(s, t, Done), trace + [Ret(t, s.threads[t].res)], h, mode);
  }

  /** The counter goes down. */
  lemma CountsPop(s: State, trace: seq<Event>, h: History, mode: Mode, t: OpId, l: Local, size: nat)
    requires Holds(s, trace, h, mode) && t in s.threads && s.threads[t].PopCount?
    requires l == PopRelease(Got(s.threads[t].v)) && size == Decrement(s.size)
    ensures Simulated(Goto(s, t, l).(size := size), trace + [Tau], mode)
  {
    BooksPopCounted(s.size, h, s.threads, t, l);
    LocksSame(s.readers, s.writer, s.threads, HoldsShared, HoldsUnique, t, l);
    ShapeQuiet(s.next, s.front, s.back, s.threads, h, t, l);
    TrackNext(trace, Tau, h.log, s.threads, h.done, t, l);
    ThreadsStable(s.next, s.next, h, h, s.threads, t, l);
    NodesStay(s.next, s.next, h, h, s.threads, t, l);
    if mode.OnePop? { AloneStep(s.threads, h, h, t, l); }
    var _ := Inv(Goto(s, t, l).(size := size), trace + [Tau], h, mode);
  }

  lemma TakenFewer(h: History, threads: map<OpId, Local>)
    requires Booked(h, threads)
    ensures |h.taken| <= |h.counted|
  {
    assert h.counted == h.taken + (h.counted - h.taken);
  }

  lemma BooksPopCounted(size: nat, h: History, threads: map<OpId, Local>, t: OpId, l: Local)
    requires Books(size, h, threads) && t in threads && threads[t].PopCount? && l.PopRelease?
    ensures Books(Decrement(size), h, threads[t := l])
  {
    assert Look(TheLedger) && Look(TheTally);
    TakenFewer(h, threads);
    assert Owing(threads[t := l]) == Owing(threads) - {t};
    assert forall n :: InFlight(threads, n) ==> InFlight(threads[t := l], n);
  }

  // ----- A push joins the back chain, links, and is counted -----

  lemma Bounds(next: map<Node, Node>, front: Micro, back: Micro, threads: map<OpId, Local>, h: History)
    requires Shape(next, front, back, threads, h)
    ensures h.f.b < |h.f.chain| && h.k.b <= h.com < |h.k.chain| && h.f.id != h.k.id
    ensures forall i :: 0 < i < |h.f.chain| ==> h.f.chain[i].Elem?
    ensures forall i :: 0 < i < |h.k.chain| ==> h.k.chain[i].Elem?
  {
    assert Look(TheShape);
  }

  function Joined(h: History, t: OpId, v: Value): History {
    var n := Elem(t, v);
    h.(k := h.k.(chain := h.k.chain + [n]), home := h.home[n := Place(h.k.id, |h.k.chain|)])
  }

  lemma JoinBack(next: map<Node, Node>, h: History, threads: map<OpId, Local>, t: OpId, v: Value, p: Node)
    requires BackLinked(next, h.k, threads) && t in threads && threads[t] == PushExchange(v)
    requires next.Keys >= {Elem(t, v)}
    requires next[Elem(t, v)] == Null && h.k.chain != [] && h.k.chain[|h.k.chain| - 1] == p
    ensures BackLinked(next, Joined(h, t, v).k, threads[t := PushLink(v, p)])
    ensures p in next ==> next[p] == Null
  {
    var h', threads' := Joined(h, t, v), threads[t := PushLink(v, p)];
    assert Following(h.k.chain, |h.k.chain| - 1) == Null;
    forall i | 0 <= i < |h'.k.chain| && h'.k.chain[i] in next
      ensures || next[h'.k.chain[i]] == Following(h'.k.chain, i)
              || (next[h'.k.chain[i]] == Null && Linking(threads', Following(h'.k.chain, i), h'.k.chain[i]))
    {
      if i < |h.k.chain| {
        assert Of(next, h.k.chain[i]) == Following(h.k.chain, i) ||
          Linking(threads, Following(h.k.chain, i), h.k.chain[i]);
      }
    }
  }

  lemma JoinShape(s: State, h: History, t: OpId, v: Value)
    requires Shape(s.next, s.front, s.back, s.threads, h) && Private(s.next, h, t, v)
    requires t in s.threads && s.threads[t] == PushExchange(v)
    ensures Shape(s.next, s.front, s.back.(end := Elem(t, v)), s.threads[t := PushLink(v, s.back.end)], Joined(h, t, v))
    ensures var h', n, p := Joined(h, t, v), Elem(t, v), s.back.end;
      On(h', h'.k, n) && On(h', h'.k, p) && h'.home[n].i == h'.home[p].i + 1 && p in s.next && s.next[p] == Null
  {
    assert Look(TheShape);
    assert At(h, h.k.chain[|h.k.chain| - 1], h.k.id, |h.k.chain| - 1);
    JoinBack(s.next, h, s.threads, t, v, s.back.end);
    JoinHomes(h, t, v);
  }

  lemma JoinHomes(h: History, t: OpId, v: Value)
    requires HomesOf(h, h.f) && HomesOf(h, h.k) && Elem(t, v) !in h.home
    ensures HomesOf(Joined(h, t, v), h.f) && HomesOf(Joined(h, t, v), Joined(h, t, v).k)
  {
    var h' := Joined(h, t, v);
    forall i | 0 <= i < |h'.k.chain| ensures At(h', h'.k.chain[i], h.k.id, i) {
      if i < |h.k.chain| { assert At(h, h.k.chain[i], h.k.id, i); }
    }
    forall i | 0 <= i < |h.f.chain| ensures At(h', h.f.chain[i], h.f.id, i) {
      assert At(h, h.f.chain[i], h.f.id, i);
    }
  }

  lemma JoinBooks(size: nat, h: History, threads: map<OpId, Local>, t: OpId, v: Value, p: Node)
    requires Books(size, h, threads) && t in threads && threads[t] == PushExchange(v) && h.k.b <= h.com < |h.k.chain|
    ensures Books(size, Joined(h, t, v), threads[t := PushLink(v, p)]) && t !in h.done && t !in h.counted
  {
    assert Look(TheLedger) && Look(TheTally);
    var threads' := threads[t := PushLink(v, p)];
    assert Owing(threads') == Owing(threads);
    assert forall n :: InFlight(threads, n) ==> InFlight(threads', n);
    assert InFlight(threads', Elem(t, v));
  }

  lemma ExplainedSame(h: History, h': History, mode: Mode)
    requires Explained(h, mode) && h'.log == h.log && Content(h') == Content(h)
    ensures Explained(h', mode)
  {
    assert Look(TheLog);
  }

  lemma JoinExplained(h: History, t: OpId, v: Value, mode: Mode)
    requires Explained(h, mode) && h.k.b <= h.com < |h.k.chain| && h.f.b < |h.f.chain|
    ensures Explained(Joined(h, t, v), mode)
  {
    assert Joined(h, t, v).k.chain[h.k.b + 1..h.com + 1] == h.k.chain[h.k.b + 1..h.com + 1];
    assert Upto(Joined(h, t, v).k, h.com) == Upto(h.k, h.com);
    ExplainedSame(h, Joined(h, t, v), mode);
  }

  /** Chains grow and nodes keep their places. */
  lemma PlacesStay(h: History, h': History, t: OpId)
    requires Placed(h) && (forall u :: u in h'.counted && u !in h.counted ==> u == t && OnSide(h, t))
    requires h'.f.id == h.f.id && h'.f.chain == h.f.chain && h'.k.id == h.k.id && h.k.chain <= h'.k.chain
    requires forall n :: n in h.home ==> n in h'.home && h'.home[n] == h.home[n]
    ensures Placed(h')
  {
    if Look(ThePlaces) {
      forall u | u in h'.counted ensures OnSide(h', u) {
        assert OnSide(h, u);
        var n: Node :| n.Elem? && n.t == u && (On(h, h.f, n) || On(h, h.k, n));
        assert On(h', h'.f, n) || On(h', h'.k, n);
      }
    }
  }

  lemma Joins(s: State, trace: seq<Event>, h: History, mode: Mode, t: OpId, v: Value)
    requires Holds(s, trace, h, mode) && t in s.threads && s.threads[t] == PushExchange(v)
    ensures Simulated(Instr(s, t, false), trace + [Tau], mode)
  {
    hide Shape, Ledger, Tally, Nodes, Explained, Track, Placed;
    var p := s.back.end;
    var h', l := Joined(h, t, v), PushLink(v, p);
    ThreadHolds(s.next, h, s.threads, t);
    JoinShape(s, h, t, v);
    Bounds(s.next, s.front, s.back, s.threads, h);
    JoinBooks(s.size, h, s.threads, t, v, p);
    JoinExplained(h, t, v, mode);
    LocksSame(s.readers, s.writer, s.threads, HoldsShared, HoldsUnique, t, l);
    TrackNext(trace, Tau, h.log, s.threads, h.done, t, l);
    ThreadsStable(s.next, s.next, h, h', s.threads, t, l);
    NodesStay(s.next, s.next, h, h', s.threads, t, l);
    PlacesStay(h, h', t);
    if mode.OnePop? { AloneStep(s.threads, h, h', t, l); }
    var _ := Inv(Goto(s, t, l).(back := s.back.(end := Elem(t, v))), trace + [Tau], h', mode);
  }

  /** The front does not contain the node whose link is stored. */
  lemma LinkFront(next: map<Node, Node>, h: History, p: Node, n: Node)
    requires FrontLinked(next, h.f) && HomesOf(h, h.f) && h.f.id != h.k.id && On(h, h.k, p)
    ensures FrontLinked(next[p := n], h.f)
  {
    forall i | 0 <= i < |h.f.chain| ensures h.f.chain[i] != p {
      assert At(h, h.f.chain[i], h.f.id, i);
    }
  }

  lemma LinkBack(next: map<Node, Node>, h: History, threads: map<OpId, Local>, t: OpId, v: Value, p: Node)
    requires BackLinked(next, h.k, threads) && HomesOf(h, h.k) && t in threads && threads[t] == PushLink(v, p)
    requires On(h, h.k, p) && On(h, h.k, Elem(t, v)) && h.home[Elem(t, v)].i == h.home[p].i + 1
    ensures BackLinked(next[p := Elem(t, v)], h.k, threads[t := PushCount(v)])
  {
    var next', threads' := next[p := Elem(t, v)], threads[t := PushCount(v)];
    forall i | 0 <= i < |h.k.chain| && h.k.chain[i] in next'
      ensures || next'[h.k.chain[i]] == Following(h.k.chain, i)
              || (next'[h.k.chain[i]] == Null && Linking(threads', Following(h.k.chain, i), h.k.chain[i]))
    {
      assert At(h, h.k.chain[i], h.k.id, i);
      assert Following(h.k.chain, h.home[p].i) == Elem(t, v);
      assert Of(next, h.k.chain[i]) == Following(h.k.chain, i) ||
        Linking(threads, Following(h.k.chain, i), h.k.chain[i]);
    }
  }

  lemma LinkShape(s: State, h: History, t: OpId, v: Value, p: Node)
    requires Shape(s.next, s.front, s.back, s.threads, h) && t in s.threads && s.threads[t] == PushLink(v, p)
    requires On(h, h.k, p) && On(h, h.k, Elem(t, v)) && h.home[Elem(t, v)].i == h.home[p].i + 1
    ensures Shape(s.next[p := Elem(t, v)], s.front, s.back, s.threads[t := PushCount(v)], h)
  {
    assert Look(TheShape);
    LinkFront(s.next, h, p, Elem(t, v));
    LinkBack(s.next, h, s.threads, t, v, p);
  }

  lemma LinkBooks(size: nat, h: History, threads: map<OpId, Local>, t: OpId, v: Value, p: Node)
    requires Books(size, h, threads) && t in threads && threads[t] == PushLink(v, p)
    ensures Books(size, h, threads[t := PushCount(v)])
  {
    assert Look(TheLedger) && Look(TheTally);
    assert Owing(threads[t := PushCount(v)]) == Owing(threads);
    assert forall n :: InFlight(threads, n) ==> InFlight(threads[t := PushCount(v)], n);
  }

  lemma Links(s: State, trace: seq<Event>, h: History, mode: Mode, t: OpId, v: Value, p: Node)
    requires Holds(s, trace, h, mode) && t in s.threads && s.threads[t] == PushLink(v, p)
    ensures Simulated(Goto(s, t, PushCount(v)).(next := s.next[p := Elem(t, v)]), trace + [Tau], mode)
  {
    var l, next' := PushCount(v), s.next[p := Elem(t, v)];
    ThreadHolds(s.next, h, s.threads, t);
    LinkShape(s, h, t, v, p);
    LinkBooks(s.size, h, s.threads, t, v, p);
    LocksSame(s.readers, s.writer, s.threads, HoldsShared, HoldsUnique, t, l);
    TrackNext(trace, Tau, h.log, s.threads, h.done, t, l);
    assert BeforeNodeOf(h, p, t);
    ThreadsStable(s.next, next', h, h, s.threads, t, l);
    NodesStay(s.next, next', h, h, s.threads, t, l);
    if mode.OnePop? { AloneStep(s.threads, h, h, t, l); }
    var _ := Inv(Goto(s, t, l).(next := next'), trace + [Tau], h, mode);
  }

  // ----- A push is counted: it and all before it take effect -----

  /** The position of the node of t, or com when that is further on. */
  function CountTo(h: History, n: Node): nat {
    if n in h.home && h.home[n].i > h.com then h.home[n].i else h.com
  }

  function Newly(h: History, n: Node): seq<Node> {
    if h.com < CountTo(h, n) < |h.k.chain| then h.k.chain[h.com + 1..CountTo(h, n) + 1] else []
  }

  function CountedPush(h: History, t: OpId, v: Value): History {
    var nodes := Newly(h, Elem(t, v));
    h.(com := CountTo(h, Elem(t, v)), done := h.done + Ids(nodes), counted := h.counted + {t},
      log := h.log + Pushes(nodes))
  }

  /** The homes of a chain do not depend on the rest of the history. */
  lemma HomesSame(h: History, h': History, c: Side)
    requires HomesOf(h, c) && h'.home == h.home
    ensures HomesOf(h', c)
  {
    forall i | 0 <= i < |c.chain| ensures At(h', c.chain[i], c.id, i) {
      assert At(h, c.chain[i], c.id, i);
    }
  }

  lemma CountShape(s: State, h: History, t: OpId, v: Value)
    requires Shape(s.next, s.front, s.back, s.threads, h) && t in s.threads && s.threads[t] == PushCount(v)
    requires Thread(s.next, h, t, s.threads[t])
    ensures Shape(s.next, s.front, s.back, s.threads[t := PushUnlock], CountedPush(h, t, v))
  {
    ShapeQuiet(s.next, s.front, s.back, s.threads, h, t, PushUnlock);
    assert Look(TheShape);
    HomesSame(h, CountedPush(h, t, v), h.f);
    HomesSame(h, CountedPush(h, t, v), h.k);
  }

  /** The pushes that take effect now are pending and distinct. */
  lemma NewlyPending(h: History, threads: map<OpId, Local>, n: Node)
    requires Booked(h, threads) && HomesOf(h, h.k) && h.k.b <= h.com
    requires forall i :: 0 < i < |h.k.chain| ==> h.k.chain[i].Elem?
    ensures var nodes := Newly(h, n);
      && (forall i :: 0 <= i < |nodes| ==> InFlight(threads, nodes[i]) && nodes[i].t !in h.done)
      && (forall i, j :: 0 <= i < j < |nodes| ==> nodes[i].Elem? && nodes[j].Elem? ==> nodes[i].t != nodes[j].t)
  {
    var nodes := Newly(h, n);
    forall i | 0 <= i < |nodes| ensures InFlight(threads, nodes[i]) && nodes[i].t !in h.done {
      assert nodes[i] == h.k.chain[h.com + 1 + i];
    }
    forall i, j | 0 <= i < j < |nodes| ensures nodes[i].t != nodes[j].t {
      assert At(h, h.k.chain[h.com + 1 + i], h.k.id, h.com + 1 + i);
      assert At(h, h.k.chain[h.com + 1 + j], h.k.id, h.com + 1 + j);
      assert InFlight(threads, nodes[i]) && InFlight(threads, nodes[j]);
    }
  }

  lemma NewlySlice(h: History, n: Node)
    requires On(h, h.k, n) && h.com < |h.k.chain|
    ensures h.com <= CountTo(h, n) < |h.k.chain| && Newly(h, n) == h.k.chain[h.com + 1..CountTo(h, n) + 1]
  {
    if CountTo(h, n) == h.com { assert h.k.chain[h.com + 1..h.com + 1] == []; }
  }

  /** Behind com, exactly the nodes up to the counted one take effect. */
  lemma NewlyAre(h: History, threads: map<OpId, Local>, n: Node, i: nat)
    requires Booked(h, threads) && HomesOf(h, h.k) && On(h, h.k, n) && h.com < i < |h.k.chain|
    requires forall j :: 0 < j < |h.k.chain| ==> h.k.chain[j].Elem?
    ensures h.k.chain[i].t in Ids(Newly(h, n)) <==> i <= CountTo(h, n)
  {
    NewlySlice(h, n);
    if i <= CountTo(h, n) { assert h.k.chain[i] == Newly(h, n)[i - h.com - 1]; }
    if h.k.chain[i].t in Ids(Newly(h, n)) { NewlyIsUpTo(h, threads, n, i); }
  }

  lemma NewlyIsUpTo(h: History, threads: map<OpId, Local>, n: Node, i: nat)
    requires Booked(h, threads) && HomesOf(h, h.k) && On(h, h.k, n) && h.com < i < |h.k.chain| && h.k.chain[i].Elem?
    requires h.k.chain[i].t in Ids(Newly(h, n))
    ensures i <= CountTo(h, n)
  {
    var nodes := Newly(h, n);
    var x :| x in nodes && x.Elem? && x.t == h.k.chain[i].t;
    var j :| 0 <= j < |nodes| && nodes[j] == x;
    NewlySlice(h, n);
    assert At(h, h.k.chain[i], h.k.id, i);
    assert At(h, h.k.chain[h.com + 1 + j], h.k.id, h.com + 1 + j);
  }

  lemma CountBooked(s: State, h: History, t: OpId, v: Value)
    requires Shape(s.next, s.front, s.back, s.threads, h) && Books(s.size, h, s.threads)
    requires t in s.threads && s.threads[t] == PushCount(v) && On(h, h.k, Elem(t, v)) && h.home[Elem(t, v)].i > 0
    ensures Ledger(CountedPush(h, t, v), s.threads[t := PushUnlock])
  {
    var h', n := CountedPush(h, t, v), Elem(t, v);
    CountReady(s, h, t, v);
    Bounds(s.next, s.front, s.back, s.threads, h);
    var ids := Ids(Newly(h, n));
    assert Look(TheShape) && Look(TheLedger);
    hide FrontLinked, BackLinked, Content;
    forall i | h.com < i < |h.k.chain| ensures h.k.chain[i].t in ids <==> i <= h'.com {
      NewlyAre(h, s.threads, n, i);
    }
    CountBookedAs(h, h', s.threads, t, v, ids);
  }

  lemma CountBookedAs(h: History, h': History, threads: map<OpId, Local>, t: OpId, v: Value, ids: set<OpId>)
    requires Booked(h, threads) && t in threads && threads[t] == PushCount(v) && On(h, h.k, Elem(t, v))
    requires h.home[Elem(t, v)].i > 0
    requires h' == h.(com := CountTo(h, Elem(t, v)), done := h.done + ids, counted := h.counted + {t}, log := h'.log)
    requires forall i :: h.com < i < |h.k.chain| && h.k.chain[i].Elem? ==> (h.k.chain[i].t in ids <==> i <= h'.com)
    requires forall u :: u in ids ==> u in threads && !threads[u].PushTry? && !threads[u].PushExchange?
    requires h.k.b <= h.com && t in h'.done
    ensures Booked(h', threads[t := PushUnlock])
  {
    assert forall n :: InFlight(threads, n) && n.t != t ==> InFlight(threads[t := PushUnlock], n);
  }

  lemma CountSize(size: nat, h: History, threads: map<OpId, Local>, t: OpId, v: Value)
    requires Books(size, h, threads) && t in threads && threads[t] == PushCount(v)
    requires size + 1 < WORD && t !in h.counted
    ensures Tally(Increment(size), CountedPush(h, t, v), threads[t := PushUnlock])
  {
    assert Look(TheLedger) && Look(TheTally);
    TakenFewer(h, threads);
    assert Owing(threads[t := PushUnlock]) == Owing(threads);
  }

  lemma UptoGrows(k: Side, com: nat, c: nat)
    requires k.b <= com <= c < |k.chain|
    ensures Upto(k, c) == Upto(k, com) + Values(k.chain[com + 1..c + 1])
  {
    ValuesSlice(k.chain, k.b + 1, com + 1, c + 1);
  }

  lemma RestShrinks(f: Side, f': Side)
    requires f.b + 1 < |f.chain| && f.chain[f.b + 1].Elem? && f' == f.(b := f.b + 1)
    ensures Rest(f) == [f.chain[f.b + 1].data] + Rest(f')
  {
    ValuesFirst(f.chain, f.b + 1);
  }

  lemma PushesExplain(h: History, h': History, mode: Mode, nodes: seq<Node>)
    requires Explains(h, mode) && h'.log == h.log + Pushes(nodes) && Content(h') == Content(h) + Values(nodes)
    requires forall i :: 0 <= i < |nodes| ==> nodes[i].Elem?
    ensures Explains(h', mode)
  {
    if mode != AnySwap {
      PushesAppend(h.log, nodes);
    } else {
      PushesBagged(h.log, nodes);
      forall w ensures InBag(h'.log, w) == Occurs(Content(h'), w) {
        OccursConcat(Content(h), Values(nodes), w);
      }
    }
  }

  lemma ContentGrows(h: History, n: Node)
    requires On(h, h.k, n) && h.k.b <= h.com < |h.k.chain|
    ensures Rest(h.f) + Upto(h.k, CountTo(h, n)) == Content(h) + Values(Newly(h, n))
  {
    NewlySlice(h, n);
    UptoGrows(h.k, h.com, CountTo(h, n));
    SeqAssoc(Rest(h.f), Upto(h.k, h.com), Values(Newly(h, n)));
  }

  lemma CountExplained(s: State, h: History, t: OpId, v: Value, mode: Mode)
    requires Shape(s.next, s.front, s.back, s.threads, h) && Explained(h, mode) && On(h, h.k, Elem(t, v))
    ensures Explained(CountedPush(h, t, v), mode)
  {
    var h', nodes := CountedPush(h, t, v), Newly(h, Elem(t, v));
    Bounds(s.next, s.front, s.back, s.threads, h);
    ContentGrows(h, Elem(t, v));
    ExplainedGrows(h, h', mode, nodes);
  }

  lemma ExplainedGrows(h: History, h': History, mode: Mode, nodes: seq<Node>)
    requires Explained(h, mode) && h'.log == h.log + Pushes(nodes) && Content(h') == Content(h) + Values(nodes)
    requires forall i :: 0 <= i < |nodes| ==> nodes[i].Elem?
    ensures Explained(h', mode)
  {
    assert Explains(h, mode) by { assert Look(TheLog); }
    PushesExplain(h, h', mode, nodes);
  }

  lemma CountTrack(trace: seq<Event>, s: State, h: History, t: OpId, v: Value)
    requires Track(trace, h.log, PhasesOf(s.threads, h.done)) && t in s.threads && s.threads[t] == PushCount(v)
    requires Shape(s.next, s.front, s.back, s.threads, h) && Books(s.size, h, s.threads)
    requires On(h, h.k, Elem(t, v)) && h.home[Elem(t, v)].i > 0
    ensures var h' := CountedPush(h, t, v); Track(trace + [Tau], h'.log, PhasesOf(s.threads[t := PushUnlock], h'.done))
  {
    var h', nodes := CountedPush(h, t, v), Newly(h, Elem(t, v));
    CountReady(s, h, t, v);
    PushesTakeEffect(trace, h.log, s.threads, h.done, nodes);
    TrackNext(trace, Tau, h'.log, s.threads, h'.done, t, PushUnlock);
  }

  lemma CountReady(s: State, h: History, t: OpId, v: Value)
    requires Shape(s.next, s.front, s.back, s.threads, h) && Books(s.size, h, s.threads)
    requires On(h, h.k, Elem(t, v)) && h.home[Elem(t, v)].i > 0
    ensures t in CountedPush(h, t, v).done
    ensures var nodes := Newly(h, Elem(t, v));
      && (forall i :: 0 <= i < |nodes| ==> InFlight(s.threads, nodes[i]) && nodes[i].t !in h.done)
      && (forall i, j :: 0 <= i < j < |nodes| ==> nodes[i].Elem? && nodes[j].Elem? ==> nodes[i].t != nodes[j].t)
  {
    assert Booked(h, s.threads) && HomesOf(h, h.k) by { assert Look(TheShape) && Look(TheLedger) && Look(TheTally); }
    Bounds(s.next, s.front, s.back, s.threads, h);
    NewlyPending(h, s.threads, Elem(t, v));
    CountedIsDone(h, s.threads, t, v);
  }

  lemma CountedIsDone(h: History, threads: map<OpId, Local>, t: OpId, v: Value)
    requires Booked(h, threads) && On(h, h.k, Elem(t, v)) && h.home[Elem(t, v)].i > 0
    ensures t in CountedPush(h, t, v).done
  {
    var i := h.home[Elem(t, v)].i;
    if i > h.com {
      assert Newly(h, Elem(t, v))[i - h.com - 1] == Elem(t, v);
    }
  }

  lemma CountThreads(next: map<Node, Node>, h: History, threads: map<OpId, Local>, t: OpId, v: Value)
    requires Threads(next, h, threads)
    ensures Threads(next, CountedPush(h, t, v), threads[t := PushUnlock])
  {
    ThreadsStable(next, next, h, CountedPush(h, t, v), threads, t, PushUnlock);
  }

  lemma CountAlone(h: History, threads: map<OpId, Local>, t: OpId, v: Value)
    requires Alone(threads, h)
    ensures Alone(threads[t := PushUnlock], CountedPush(h, t, v))
  {
    AloneStep(threads, h, CountedPush(h, t, v), t, PushUnlock);
  }

  lemma CountsPush(s: State, trace: seq<Event>, h: History, mode: Mode, t: OpId, v: Value)
    requires Holds(s, trace, h, mode) && t in s.threads && s.threads[t] == PushCount(v) && s.size + 1 < WORD
    ensures Simulated(Goto(s, t, PushUnlock).(size := Increment(s.size)), trace + [Tau], mode)
  {
    var h' := CountedPush(h, t, v);
    ThreadHolds(s.next, h, s.threads, t);
    CountShape(s, h, t, v);
    CountBooked(s, h, t, v);
    CountSize(s.size, h, s.threads, t, v);
    Bounds(s.next, s.front, s.back, s.threads, h);
    LocksSame(s.readers, s.writer, s.threads, HoldsShared, HoldsUnique, t, PushUnlock);
    CountTrack(trace, s, h, t, v);
    CountExplained(s, h, t, v, mode);
    CountThreads(s.next, h, s.threads, t, v);
    NodesStay(s.next, s.next, h, h', s.threads, t, PushUnlock);
    assert On(h, h.k, Elem(t, v)) && OnSide(h, t);
    PlacesStay(h, h', t);
    if mode.OnePop? { CountAlone(h, s.threads, t, v); }
    var _ := Inv(Goto(s, t, PushUnlock).(size := Increment(s.size)), trace + [Tau], h', mode);
  }

  // ----- A pop takes the first node of the front -----

  lemma BeginIsOn(s: State, h: History)
    requires Shape(s.next, s.front, s.back, s.threads, h)
    ensures On(h, h.f, s.front.begin) && h.home[s.front.begin].i == h.f.b
    ensures On(h, h.f, s.front.end) && h.home[s.front.end].i == |h.f.chain| - 1
  {
    assert Look(TheShape);
    assert At(h, h.f.chain[h.f.b], h.f.id, h.f.b);
    assert At(h, h.f.chain[|h.f.chain| - 1], h.f.id, |h.f.chain| - 1);
  }

  /** The link of a front node that is not the last is set. */
  lemma NextIsOn(s: State, h: History, n0: Node)
    requires Shape(s.next, s.front, s.back, s.threads, h) && On(h, h.f, n0) && h.home[n0].i + 1 < |h.f.chain|
    ensures n0 in s.next && s.next[n0].Elem? && On(h, h.f, s.next[n0]) && h.home[s.next[n0]].i == h.home[n0].i + 1
  {
    assert Look(TheShape);
    var i := h.home[n0].i;
    assert s.next[n0] == Following(h.f.chain, i);
    assert At(h, h.f.chain[i + 1], h.f.id, i + 1);
  }

  function Popped(h: History, t: OpId, n1: Node): History
    requires n1.Elem?
  {
    h.(f := h.f.(b := h.f.b + 1), taken := h.taken + {n1.t}, log := h.log + [Entry(t, Pop, Got(n1.data))])
  }

  lemma PopShape(s: State, h: History, t: OpId, n1: Node, l: Local)
    requires Shape(s.next, s.front, s.back, s.threads, h) && t in s.threads && !s.threads[t].PushLink?
    requires On(h, h.f, n1) && h.home[n1].i == h.f.b + 1 && n1.Elem?
    ensures Shape(s.next, s.front.(begin := n1), s.back, s.threads[t := l], Popped(h, t, n1))
  {
    ShapeQuiet(s.next, s.front, s.back, s.threads, h, t, l);
    assert Look(TheShape);
    HomesSame(h, Popped(h, t, n1), h.f);
    HomesSame(h, Popped(h, t, n1), h.k);
  }

  lemma PopBooked(h: History, threads: map<OpId, Local>, t: OpId, n1: Node)
    requires Booked(h, threads) && HomesOf(h, h.f) && HomesOf(h, h.k) && h.f.id != h.k.id
    requires t in threads && threads[t].PopCas? && On(h, h.f, n1) && h.home[n1].i == h.f.b + 1 && n1.Elem?
    ensures Booked(Popped(h, t, n1), threads[t := PopTake(n1)]) && n1.t !in h.taken
  {
    var h', threads' := Popped(h, t, n1), threads[t := PopTake(n1)];
    assert forall n :: InFlight(threads, n) ==> InFlight(threads', n);
    forall i | 0 < i < |h.f.chain| && h.f.chain[i].Elem? ensures h.f.chain[i].t in h'.taken <==> i <= h'.f.b {
      assert At(h, h.f.chain[i], h.f.id, i);
    }
    forall i | 0 < i < |h.k.chain| && h.k.chain[i].Elem? ensures h.k.chain[i].t != n1.t {
      assert At(h, h.k.chain[i], h.k.id, i);
    }
  }

  lemma PopBooks(s: State, h: History, t: OpId, n1: Node)
    requires Shape(s.next, s.front, s.back, s.threads, h) && Books(s.size, h, s.threads)
    requires t in s.threads && s.threads[t].PopCas? && On(h, h.f, n1) && h.home[n1].i == h.f.b + 1 && n1.Elem?
    ensures Books(s.size, Popped(h, t, n1), s.threads[t := PopTake(n1)])
  {
    assert Booked(h, s.threads) && HomesOf(h, h.f) && HomesOf(h, h.k) &&
      h.f.id != h.k.id by { assert Look(TheShape) && Look(TheLedger) && Look(TheTally); }
    PopBooked(h, s.threads, t, n1);
    TakeSize(s.size, h, s.threads, t, n1);
  }

  lemma TakeSize(size: nat, h: History, threads: map<OpId, Local>, t: OpId, n1: Node)
    requires Books(size, h, threads) && t in threads && threads[t].PopCas? && n1.Elem? && n1.t !in h.taken
    ensures Counted(size, Popped(h, t, n1), threads[t := PopTake(n1)])
  {
    assert Look(TheLedger) && Look(TheTally);
    assert Owing(threads[t := PopTake(n1)]) == Owing(threads) + {t};
  }

  lemma PopExplained(h: History, t: OpId, n1: Node, mode: Mode)
    requires Explained(h, mode) && On(h, h.f, n1) && h.home[n1].i == h.f.b + 1 && n1.Elem?
    requires h.k.b <= h.com < |h.k.chain|
    ensures Explained(Popped(h, t, n1), mode)
  {
    var h', e := Popped(h, t, n1), Entry(t, Pop, Got(n1.data));
    RestShrinks(h.f, h'.f);
    SeqAssoc([n1.data], Rest(h'.f), Upto(h.k, h.com));
    assert Content(h) == [n1.data] + Content(h');
    assert Explains(h', mode) by {
      assert Look(TheLog);
      if mode != AnySwap {
        ReplaySnoc([], h.log, e);
      } else {
        BagSnoc(h.log, e);
        forall w
          ensures InBag(h'.log, w) == Occurs(Content(h'), w) && Occurs([n1.data], w) == (if w == n1.data then 1 else 0)
        {
          OccursConcat([n1.data], Content(h'), w);
          assert [n1.data][..0] == [];
        }
      }
    }
  }

  lemma Pops(s: State, trace: seq<Event>, h: History, mode: Mode, t: OpId, n0: Node, n1: Node)
    requires Holds(s, trace, h, mode) && t in s.threads && s.threads[t] == PopCas(n0, n1) && s.front.begin == n0
    requires n1.Elem?
    ensures Simulated(Goto(s, t, PopTake(n1)).(front := s.front.(begin := n1)), trace + [Tau], mode)
  {
    var h', l := Popped(h, t, n1), PopTake(n1);
    ThreadHolds(s.next, h, s.threads, t);
    BeginIsOn(s, h);
    Bounds(s.next, s.front, s.back, s.threads, h);
    PopShape(s, h, t, n1, l);
    PopBooks(s, h, t, n1);
    LocksSame(s.readers, s.writer, s.threads, HoldsShared, HoldsUnique, t, l);
    PopExplained(h, t, n1, mode);
    TrackPop(trace, h.log, s.threads, h.done, t, l, Got(n1.data));
    ThreadsStable(s.next, s.next, h, h', s.threads, t, l);
    NodesStay(s.next, s.next, h, h', s.threads, t, l);
    PlacesStay(h, h', t);
    if mode.OnePop? { AloneStep(s.threads, h, h', t, l); }
    var _ := Inv(Goto(s, t, l).(front := s.front.(begin := n1)), trace + [Tau], h', mode);
  }

  // ----- A pop finds the counter at zero: nothing that has taken effect is left -----

  lemma ZeroMeansEmpty(h: History, threads: map<OpId, Local>)
    requires Books(0, h, threads) && h.f.b < |h.f.chain| && h.k.b <= h.com < |h.k.chain|
    requires forall i :: 0 < i < |h.f.chain| ==> h.f.chain[i].Elem?
    requires forall i :: 0 < i < |h.k.chain| ==> h.k.chain[i].Elem?
    ensures h.taken == h.counted && h.f.b == |h.f.chain| - 1 && h.com == h.k.b && Content(h) == []
  {
    assert Look(TheLedger) && Look(TheTally);
    TakenFewer(h, threads);
    assert h.counted == h.taken + (h.counted - h.taken);
    assert h.counted - h.taken == {};
    assert h.taken == h.counted;
    var _ := Following(h.f.chain, h.f.b);
  }

  function FoundEmpty(h: History, t: OpId): History {
    h.(log := h.log + [Entry(t, Pop, Empty)])
  }

  lemma EmptyExplained(h: History, t: OpId, mode: Mode)
    requires Explained(h, mode) && Content(h) == []
    ensures Explained(FoundEmpty(h, t), mode)
  {
    var e := Entry(t, Pop, Empty);
    assert Content(FoundEmpty(h, t)) == [];
    assert Explains(FoundEmpty(h, t), mode) by {
      assert Look(TheLog);
      if mode != AnySwap {
        ReplaySnoc([], h.log, e);
      } else {
        BagSnoc(h.log, e);
        assert forall v :: Occurs([], v) == 0;
      }
    }
  }

  lemma EmptyShapeBooks(s: State, h: History, t: OpId, l: Local)
    requires Shape(s.next, s.front, s.back, s.threads, h) && Books(s.size, h, s.threads) && Placed(h)
    requires t in s.threads && (s.threads[t].PopStart? || s.threads[t].PopSize?) && (l.Exit? || l.PopRelease?)
    ensures Shape(s.next, s.front, s.back, s.threads[t := l], FoundEmpty(h, t))
    ensures Books(s.size, FoundEmpty(h, t), s.threads[t := l]) && Placed(FoundEmpty(h, t))
  {
    var h' := FoundEmpty(h, t);
    ShapeQuiet(s.next, s.front, s.back, s.threads, h, t, l);
    ShapeSame(s.next, s.front, s.back, s.threads[t := l], h, h');
    BooksQuiet(s.size, h, s.threads, t, l);
    BooksSame(s.size, h, h', s.threads[t := l]);
    PlacesStay(h, h', t);
  }

  lemma ShapeSame(next: map<Node, Node>, front: Micro, back: Micro, threads: map<OpId, Local>, h: History, h': History)
    requires Shape(next, front, back, threads, h) && h' == h.(log := h'.log)
    ensures Shape(next, front, back, threads, h')
  {
    assert Look(TheShape);
    HomesSame(h, h', h.f);
    HomesSame(h, h', h.k);
  }

  lemma BooksSame(size: nat, h: History, h': History, threads: map<OpId, Local>)
    requires Books(size, h, threads) && h' == h.(log := h'.log)
    ensures Books(size, h', threads)
  {
    assert Look(TheLedger) && Look(TheTally);
  }

  lemma FindsEmpty(s: State, trace: seq<Event>, h: History, mode: Mode, t: OpId, l: Local)
    requires Holds(s, trace, h, mode) && t in s.threads && s.size == 0
    requires (s.threads[t].PopStart? && l == Exit(Empty)) || (s.threads[t].PopSize? && l == PopRelease(Empty))
    ensures Simulated(Goto(s, t, l), trace + [Tau], mode)
  {
    hide Shape, Ledger, Tally, Nodes, Explained, Track, Placed;
    var h' := FoundEmpty(h, t);
    Bounds(s.next, s.front, s.back, s.threads, h);
    ZeroMeansEmpty(h, s.threads);
    EmptyExplained(h, t, mode);
    EmptyShapeBooks(s, h, t, l);
    LocksSame(s.readers, s.writer, s.threads, HoldsShared, HoldsUnique, t, l);
    TrackPop(trace, h.log, s.threads, h.done, t, l, Empty);
    ThreadsStable(s.next, s.next, h, h', s.threads, t, l);
    NodesStay(s.next, s.next, h, h', s.threads, t, l);
    if mode.OnePop? { AloneStep(s.threads, h, h', t, l); }
    var _ := Inv(Goto(s, t, l), trace + [Tau], h', mode);
  }

  // ----- The swap -----

  function Swapped(h: History): History {
    h.(f := h.k, k := h.f, com := if h.f.chain == [] then 0 else |h.f.chain| - 1)
  }

  lemma SwapShape(s: State, h: History, t: OpId)
    requires Shape(s.next, s.front, s.back, s.threads, h) && t in s.threads && s.threads[t].PopSwap?
    requires forall u :: u in s.threads ==> !HoldsShared(s.threads[u])
    ensures Shape(s.next, s.back, s.front, s.threads[t := PopUnlockUnique], Swapped(h))
  {
    assert Look(TheShape);
    var h' := Swapped(h);
    forall i | 0 <= i < |h.f.chain|
      ensures At(h', h.f.chain[i], h.f.id, i) && s.next[h.f.chain[i]] == Following(h.f.chain, i)
    {
      assert At(h, h.f.chain[i], h.f.id, i);
    }
    forall i | 0 <= i < |h.k.chain|
      ensures At(h', h.k.chain[i], h.k.id, i) && s.next[h.k.chain[i]] == Following(h.k.chain, i)
    {
      assert At(h, h.k.chain[i], h.k.id, i);
      assert !Linking(s.threads, Following(h.k.chain, i), h.k.chain[i]);
    }
  }

  lemma SwapBooks(size: nat, h: History, threads: map<OpId, Local>, t: OpId)
    requires Books(size, h, threads) && t in threads && threads[t].PopSwap? && h.f.b < |h.f.chain|
    requires h.k.b <= h.com < |h.k.chain|
    requires forall i :: 0 < i < |h.f.chain| ==> h.f.chain[i].Elem?
    requires forall i :: 0 < i < |h.k.chain| ==> h.k.chain[i].Elem?
    requires forall u :: u in threads ==> !HoldsShared(threads[u])
    ensures Books(size, Swapped(h), threads[t := PopUnlockUnique]) && h.com == |h.k.chain| - 1
  {
    assert Look(TheLedger) && Look(TheTally);
    assert Owing(threads[t := PopUnlockUnique]) == Owing(threads);
    forall i | 0 < i < |h.k.chain| ensures !InFlight(threads, h.k.chain[i]) {}
    var last := h.k.chain[|h.k.chain| - 1];
    assert |h.k.chain| > 1 ==> last.t in h.counted;
  }

  lemma SwapExplained(h: History, mode: Mode)
    requires Explained(h, mode) && h.f.b < |h.f.chain| && h.k.b < |h.k.chain| && h.com == |h.k.chain| - 1
    requires mode != AnySwap ==> h.f.b == |h.f.chain| - 1 || h.k.b == |h.k.chain| - 1
    ensures Explained(Swapped(h), mode)
  {
    var h' := Swapped(h);
    var a, b := Rest(h.f), Rest(h.k);
    assert h.k.chain[h.k.b + 1..h.com + 1] == h.k.chain[h.k.b + 1..];
    assert h.f.chain[h.f.b + 1..h'.com + 1] == h.f.chain[h.f.b + 1..];
    assert Content(h) == a + b && Content(h') == b + a;
    if mode != AnySwap {
      assert a == [] || b == [];
      assert a + b == b + a;
      ExplainedSame(h, h', mode);
    } else {
      forall w ensures Occurs(a + b, w) == Occurs(b + a, w) {
        OccursConcat(a, b, w);
        OccursConcat(b, a, w);
      }
      assert Look(TheLog);
    }
  }

  lemma SwapThreads(next: map<Node, Node>, h: History, threads: map<OpId, Local>, t: OpId)
    requires Threads(next, h, threads) && t in threads && forall u :: u in threads ==> !HoldsShared(threads[u])
    ensures Threads(next, Swapped(h), threads[t := PopUnlockUnique])
  {
    forall u | u in threads && u != t ensures Thread(next, Swapped(h), u, threads[u]) {
      ThreadHolds(next, h, threads, u);
    }
  }

  /** A chain has nothing left exactly when its two pointers meet. */
  lemma PointersMeet(s: State, h: History)
    requires Shape(s.next, s.front, s.back, s.threads, h)
    ensures s.front.begin == s.front.end <==> h.f.b == |h.f.chain| - 1
    ensures s.back.begin == s.back.end <==> h.k.b == |h.k.chain| - 1
  {
    assert Look(TheShape);
    assert At(h, h.f.chain[h.f.b], h.f.id, h.f.b);
    assert At(h, h.f.chain[|h.f.chain| - 1], h.f.id, |h.f.chain| - 1);
    assert At(h, h.k.chain[h.k.b], h.k.id, h.k.b);
    assert At(h, h.k.chain[|h.k.chain| - 1], h.k.id, |h.k.chain| - 1);
  }

  lemma Swaps(s: State, trace: seq<Event>, h: History, mode: Mode, t: OpId)
    requires Holds(s, trace, h, mode) && t in s.threads && s.threads[t] == PopSwap
    requires mode.CleanSwap? ==> OneSideEmpty(s)
    ensures Simulated(Goto(s, t, PopUnlockUnique).(front := s.back, back := s.front), trace + [Tau], mode)
  {
    var h', l := Swapped(h), PopUnlockUnique;
    UniqueExcludes(s.readers, s.writer, s.threads, HoldsShared, HoldsUnique, t);
    SwapShape(s, h, t);
    Bounds(s.next, s.front, s.back, s.threads, h);
    if mode.OnePop? { FoundStays(s.threads, h, t); }
    PointersMeet(s, h);
    SwapBooks(s.size, h, s.threads, t);
    SwapExplained(h, mode);
    SwapThreads(s.next, h, s.threads, t);
    LocksSame(s.readers, s.writer, s.threads, HoldsShared, HoldsUnique, t, l);
    TrackNext(trace, Tau, h.log, s.threads, h.done, t, l);
    NodesStay(s.next, s.next, h, h', s.threads, t, l);
    PlacesSwap(h);
    if mode.OnePop? { SwapAlone(s.threads, h, t); }
    var _ := Inv(Goto(s, t, l).(front := s.back, back := s.front), trace + [Tau], h', mode);
  }

  lemma PlacesSwap(h: History)
    requires Placed(h)
    ensures Placed(Swapped(h))
  {
    if Look(ThePlaces) {
      forall u | u in Swapped(h).counted ensures OnSide(Swapped(h), u) {
        assert OnSide(h, u);
        var n: Node :| n.Elem? && n.t == u && (On(h, h.f, n) || On(h, h.k, n));
        assert On(Swapped(h), h.f, n) || On(Swapped(h), h.k, n);
      }
    }
  }

  lemma SwapAlone(threads: map<OpId, Local>, h: History, t: OpId)
    requires Alone(threads, h) && t in threads && threads[t].PopSwap?
    ensures Alone(threads[t := PopUnlockUnique], Swapped(h))
  {
    assert Look(TheSearch);
    forall u | u in threads && u != t ensures !FoundFrontEmpty(threads[u]) {
      assert Popping(threads[t]);
    }
  }

  // ----- Every step -----

  lemma PushStep(s: State, trace: seq<Event>, h: History, mode: Mode, t: OpId, miss: bool)
    requires Holds(s, trace, h, mode) && Enabled(s, Exec(t, miss), mode)
    requires var l := s.threads[t]; l.PushTry? || l.PushExchange? || l.PushLink? || l.PushCount? || l.PushUnlock?
    ensures Simulated(Instr(s, t, miss), trace + [Tau], mode)
  {
    ThreadHolds(s.next, h, s.threads, t);
    match s.threads[t]
    case PushTry(v) => TriesShared(s, trace, h, mode, t, miss, PushExchange(v), PushTry(v));
    case PushExchange(v) => Joins(s, trace, h, mode, t, v);
    case PushLink(v, p) => Links(s, trace, h, mode, t, v, p);
    case PushCount(v) => CountsPush(s, trace, h, mode, t, v);
    case PushUnlock => Unlocks(s, trace, h, mode, t, Exit(Ack));
  }

  lemma TriesShared(s: State, trace: seq<Event>, h: History, mode: Mode, t: OpId, miss: bool, got: Local, not: Local)
    requires Holds(s, trace, h, mode) && t in s.threads && HoldsShared(got) && !HoldsShared(not) && !HoldsUnique(not)
    requires var l := s.threads[t]; (l.PushTry? || l.PopTry? || l.PopRelock?) && not == l
    requires if s.threads[t].PushTry? then got == PushExchange(s.threads[t].v) else got == PopBegin
    requires Thread(s.next, h, t, s.threads[t])
    ensures Simulated(TryShared(s, t, miss, got, not), trace + [Tau], mode)
  {
    if !s.writer && !miss {
      LocksStep(s.readers, s.writer, s.threads, HoldsShared, HoldsUnique, t, got, s.readers + {t}, s.writer);
      Quiet(s, trace, h, mode, t, got, s.readers + {t}, s.writer);
    } else {
      LocksSame(s.readers, s.writer, s.threads, HoldsShared, HoldsUnique, t, not);
      Quiet(s, trace, h, mode, t, not, s.readers, s.writer);
    }
  }

  lemma Unlocks(s: State, trace: seq<Event>, h: History, mode: Mode, t: OpId, l: Local)
    requires Holds(s, trace, h, mode) && t in s.threads && HoldsShared(s.threads[t])
    requires match s.threads[t]
      case PushUnlock => l == Exit(Ack)
      case PopUnlock => l == PopTryUnique
      case PopRelease(res) => l == Exit(res)
      case _ => false
    ensures Simulated(Unlock(s, t, l), trace + [Tau], mode)
  {
    LocksStep(s.readers, s.writer, s.threads, HoldsShared, HoldsUnique, t, l, s.readers - {t}, s.writer);
    if mode.OnePop? && FoundFrontEmpty(l) { FoundStays(s.threads, h, t); }
    Quiet(s, trace, h, mode, t, l, s.readers - {t}, s.writer);
  }

  lemma FoundStays(threads: map<OpId, Local>, h: History, t: OpId)
    requires Alone(threads, h) && t in threads && FoundFrontEmpty(threads[t])
    ensures h.f.b == |h.f.chain| - 1
  {
    assert Look(TheSearch);
  }

  /** A local move of a pop that holds what it holds. */
  lemma Moves(s: State, trace: seq<Event>, h: History, mode: Mode, t: OpId, l: Local)
    requires Holds(s, trace, h, mode) && t in s.threads && Popping(s.threads[t]) && Popping(l)
    requires HoldsShared(l) == HoldsShared(s.threads[t]) && HoldsUnique(l) == HoldsUnique(s.threads[t])
    requires mode.OnePop? && FoundFrontEmpty(l) ==> h.f.b == |h.f.chain| - 1
    requires Fits(s.next, h, t, l)
    ensures Simulated(Goto(s, t, l), trace + [Tau], mode)
  {
    hide Shape, Ledger, Tally, Nodes, Explained, Track, Placed;
    LocksSame(s.readers, s.writer, s.threads, HoldsShared, HoldsUnique, t, l);
    Quiet(s, trace, h, mode, t, l, s.readers, s.writer);
    assert Goto(s, t, l).(readers := s.readers, writer := s.writer) == Goto(s, t, l);
  }

  lemma PopSizeStep(s: State, trace: seq<Event>, h: History, mode: Mode, t: OpId, miss: bool)
    requires Holds(s, trace, h, mode) && t in s.threads && s.threads[t].PopSize?
    ensures Simulated(Instr(s, t, miss), trace + [Tau], mode)
  {
    hide Shape, Ledger, Tally, Nodes, Explained, Track, Placed;
    if s.size == 0 {
      FindsEmpty(s, trace, h, mode, t, PopRelease(Empty));
    } else {
      if mode.OnePop? { FoundStays(s.threads, h, t); }
      Moves(s, trace, h, mode, t, PopUnlock);
    }
  }

  lemma PopSearchStep(s: State, trace: seq<Event>, h: History, mode: Mode, t: OpId, miss: bool)
    requires Holds(s, trace, h, mode) && t in s.threads
    requires var l := s.threads[t]; l.PopStart? || l.PopTry? || l.PopBegin? || l.PopEnd? || l.PopSize? || l.PopRelock?
    ensures Simulated(Instr(s, t, miss), trace + [Tau], mode)
  {
    hide Shape, Ledger, Tally, Nodes, Explained, Track, Placed;
    ThreadHolds(s.next, h, s.threads, t);
    match s.threads[t]
    case PopStart =>
      if s.size == 0 { FindsEmpty(s, trace, h, mode, t, Exit(Empty)); } else { Moves(s, trace, h, mode, t, PopTry); }
    case PopTry => TriesShared(s, trace, h, mode, t, miss, PopBegin, PopTry);
    case PopRelock => TriesShared(s, trace, h, mode, t, false, PopBegin, PopRelock);
    case PopBegin =>
      BeginIsOn(s, h);
      Moves(s, trace, h, mode, t, PopEnd(s.front.begin));
    case PopEnd(n0) =>
      BeginIsOn(s, h);
      Bounds(s.next, s.front, s.back, s.threads, h);
      Moves(s, trace, h, mode, t, if n0 == s.front.end then PopSize else PopNext(n0));
    case PopSize => PopSizeStep(s, trace, h, mode, t, miss);
  }

  lemma PopSwapStep(s: State, trace: seq<Event>, h: History, mode: Mode, t: OpId, miss: bool)
    requires Holds(s, trace, h, mode) && t in s.threads
    requires var l := s.threads[t]; l.PopUnlock? || l.PopTryUnique? || l.PopSwap? || l.PopUnlockUnique?
    requires mode.CleanSwap? && s.threads[t].PopSwap? ==> OneSideEmpty(s)
    ensures Simulated(Instr(s, t, miss), trace + [Tau], mode)
  {
    hide Shape, Ledger, Tally, Nodes, Explained, Track, Placed;
    match s.threads[t]
    case PopUnlock => Unlocks(s, trace, h, mode, t, PopTryUnique);
    case PopTryUnique =>
      if s.readers == {} && !s.writer && !miss {
        if mode.OnePop? { FoundStays(s.threads, h, t); }
        assert s.readers - {t} == s.readers;
        LocksStep(s.readers, s.writer, s.threads, HoldsShared, HoldsUnique, t, PopSwap, s.readers, true);
        Quiet(s, trace, h, mode, t, PopSwap, s.readers, true);
        assert Goto(s, t, PopSwap).(readers := s.readers, writer := true) == Goto(s, t, PopSwap).(writer := true);
      } else {
        Moves(s, trace, h, mode, t, PopRelock);
      }
    case PopSwap => Swaps(s, trace, h, mode, t);
    case PopUnlockUnique =>
      UniqueExcludes(s.readers, s.writer, s.threads, HoldsShared, HoldsUnique, t);
      assert s.readers - {t} == s.readers;
      LocksStep(s.readers, s.writer, s.threads, HoldsShared, HoldsUnique, t, PopRelock, s.readers, false);
      Quiet(s, trace, h, mode, t, PopRelock, s.readers, false);
      assert Goto(s, t, PopRelock).(readers := s.readers, writer := false) == Goto(s, t, PopRelock).(writer := false);
  }

  lemma ReadsData(s: State, trace: seq<Event>, h: History, mode: Mode, t: OpId, n1: Node)
    requires Holds(s, trace, h, mode) && t in s.threads && s.threads[t] == PopTake(n1) && n1.Elem?
    ensures Simulated(Goto(s, t, PopCount(n1.data)), trace + [Tau], mode)
  {
    hide Shape, Ledger, Tally, Nodes, Explained, Track, Placed;
    var l := PopCount(n1.data);
    LocksSame(s.readers, s.writer, s.threads, HoldsShared, HoldsUnique, t, l);
    Quiet(s, trace, h, mode, t, l, s.readers, s.writer);
    assert Goto(s, t, l).(readers := s.readers, writer := s.writer) == Goto(s, t, l);
  }

  lemma PopTakeStep(s: State, trace: seq<Event>, h: History, mode: Mode, t: OpId, miss: bool)
    requires Holds(s, trace, h, mode) && t in s.threads
    requires var l := s.threads[t]; l.PopNext? || l.PopCas? || l.PopTake? || l.PopCount? || l.PopRelease?
    ensures Simulated(Instr(s, t, miss), trace + [Tau], mode)
  {
    hide Shape, Ledger, Tally, Nodes, Explained, Track, Placed;
    ThreadHolds(s.next, h, s.threads, t);
    match s.threads[t]
    case PopNext(n0) =>
      NextIsOn(s, h, n0);
      Moves(s, trace, h, mode, t, PopCas(n0, Of(s.next, n0)));
    case PopCas(n0, n1) =>
      if s.front.begin == n0 {
        Pops(s, trace, h, mode, t, n0, n1);
      } else {
        BeginIsOn(s, h);
        Moves(s, trace, h, mode, t, PopEnd(s.front.begin));
      }
    case PopTake(n1) => ReadsData(s, trace, h, mode, t, n1);
    case PopCount(v) => CountsPop(s, trace, h, mode, t, PopRelease(Got(v)), Decrement(s.size));
    case PopRelease(res) => Unlocks(s, trace, h, mode, t, Exit(res));
  }

  lemma StepIsSimulated(s: State, trace: seq<Event>, h: History, mode: Mode, a: Action)
    requires Holds(s, trace, h, mode) && Enabled(s, a, mode)
    ensures Simulated(Step(s, a), trace + [EventOf(s, a)], mode)
  {
    match a
    case Start(t, op) => Starts(s, trace, h, mode, t, op);
    case Exec(t, miss) =>
      var l := s.threads[t];
      if l.Exit? {
        Returns(s, trace, h, mode, t);
      } else if l.PushTry? || l.PushExchange? || l.PushLink? || l.PushCount? || l.PushUnlock? {
        PushStep(s, trace, h, mode, t, miss);
      } else if l.PopStart? || l.PopTry? || l.PopBegin? || l.PopEnd? || l.PopSize? || l.PopRelock? {
        PopSearchStep(s, trace, h, mode, t, miss);
      } else if l.PopUnlock? || l.PopTryUnique? || l.PopSwap? || l.PopUnlockUnique? {
        PopSwapStep(s, trace, h, mode, t, miss);
      } else {
        PopTakeStep(s, trace, h, mode, t, miss);
      }
  }

  // ----- Main results -----

  lemma InitShape(h: History)
    requires h == History(Side(0, [Dummy(0)], 0), Side(1, [Dummy(1)], 0), 0,
      map[Dummy(0) := Place(0, 0), Dummy(1) := Place(1, 0)], {}, {}, {}, [])
    ensures Shape(Init.next, Init.front, Init.back, map[], h) && Nodes(Init.next, h, map[]) && Alone(map[], h)
  {}

  lemma InitBooks(h: History, mode: Mode)
    requires h == History(Side(0, [Dummy(0)], 0), Side(1, [Dummy(1)], 0), 0,
      map[Dummy(0) := Place(0, 0), Dummy(1) := Place(1, 0)], {}, {}, {}, [])
    ensures Books(0, h, map[]) && Explained(h, mode) && Locks({}, false, map[], HoldsShared, HoldsUnique)
  {
    assert Rest(h.f) == [] && Upto(h.k, 0) == [];
    assert Owing(map[]) == {};
  }

  lemma InitIsSimulated(mode: Mode)
    ensures Simulated(Init, [], mode)
  {
    var f, k := Side(0, [Dummy(0)], 0), Side(1, [Dummy(1)], 0);
    var h := History(f, k, 0, map[Dummy(0) := Place(0, 0), Dummy(1) := Place(1, 0)], {}, {}, {}, []);
    TrackInit();
    assert PhasesOf(Init.threads, {}) == map[];
    InitShape(h);
    InitBooks(h, mode);
    var _ := Inv(Init, [], h, mode);
  }

  lemma {:induction false} RunIsSimulated(acts: seq<Action>, mode: Mode)
    ensures Simulated(After(acts, mode).state, After(acts, mode).trace, mode)
    decreases |acts|
  {
    if acts == [] {
      InitIsSimulated(mode);
    } else {
      var before := After(acts[..|acts| - 1], mode);
      var a := acts[|acts| - 1];
      RunIsSimulated(acts[..|acts| - 1], mode);
      if Enabled(before.state, a, mode) {
        var h :| Inv(before.state, before.trace, h, mode);
        StepIsSimulated(before.state, before.trace, h, mode, a);
      }
    }
  }

  /** nodes are what lies behind from, up to to, along the links. */
  ghost predicate Path(next: map<Node, Node>, from: Node, to: Node, nodes: seq<Node>)
    decreases |nodes|
  {
    if nodes == [] then from == to
    else nodes[0] != Null && Of(next, from) == nodes[0] && Path(next, nodes[0], to, nodes[1..])
  }

  lemma {:induction false} PathIsUnique(next: map<Node, Node>, from: Node, to: Node, a: seq<Node>, b: seq<Node>)
    requires Path(next, from, to, a) && Path(next, from, to, b) && Of(next, to) == Null
    ensures a == b
    decreases |a|
  {
    if a != [] { PathIsUnique(next, a[0], to, a[1..], b[1..]); }
  }

  lemma {:induction false} PathInChain(next: map<Node, Node>, chain: seq<Node>, b: nat)
    requires b < |chain| && forall i :: b < i < |chain| ==> chain[i].Elem?
    requires forall i {:trigger Following(chain, i)} :: b <= i < |chain| ==> Of(next, chain[i]) == Following(chain, i)
    ensures Path(next, chain[b], chain[|chain| - 1], chain[b + 1..])
    decreases |chain| - b
  {
    if b + 1 < |chain| {
      assert Of(next, chain[b]) == Following(chain, b);
      PathInChain(next, chain, b + 1);
      assert chain[b + 1..][1..] == chain[b + 2..];
    }
  }

  /** The nodes whose elements are still to be popped, in the order they would be popped. */
  ghost predicate Waiting(s: State, row: seq<Node>) {
    exists a, b :: row == a + b && Path(s.next, s.front.begin, s.front.end, a) &&
      Path(s.next, s.back.begin, s.back.end, b)
  }

  ghost predicate OnlyWaiting(s: State, row: seq<Node>) {
    Waiting(s, row) && forall r :: Waiting(s, r) ==> r == row
  }

  lemma WaitingIsUnique(s: State, a: seq<Node>, b: seq<Node>)
    requires Path(s.next, s.front.begin, s.front.end, a) && Path(s.next, s.back.begin, s.back.end, b)
    requires Of(s.next, s.front.end) == Null && Of(s.next, s.back.end) == Null
    ensures OnlyWaiting(s, a + b)
  {
    forall r | Waiting(s, r) ensures r == a + b {
      var a', b' :| r == a' + b' && Path(s.next, s.front.begin, s.front.end, a') &&
        Path(s.next, s.back.begin, s.back.end, b');
      PathIsUnique(s.next, s.front.begin, s.front.end, a, a');
      PathIsUnique(s.next, s.back.begin, s.back.end, b, b');
    }
  }

  lemma FirstsDiffer(s: State, h: History)
    requires Shape(s.next, s.front, s.back, s.threads, h) && h.f.b + 1 < |h.f.chain| && h.k.b + 1 < |h.k.chain|
    ensures h.f.chain[h.f.b + 1] != h.k.chain[h.k.b + 1]
  {
    assert Look(TheShape);
    assert At(h, h.f.chain[h.f.b + 1], h.f.id, h.f.b + 1);
    assert At(h, h.k.chain[h.k.b + 1], h.k.id, h.k.b + 1);
  }

  lemma SwappedRowsDiffer(s: State, h: History)
    requires Shape(s.next, s.front, s.back, s.threads, h) && h.f.b < |h.f.chain| && h.k.b < |h.k.chain|
    ensures var a, b := h.f.chain[h.f.b + 1..], h.k.chain[h.k.b + 1..]; b + a == a + b <==> a == [] || b == []
  {
    var a, b := h.f.chain[h.f.b + 1..], h.k.chain[h.k.b + 1..];
    if a != [] && b != [] {
      FirstsDiffer(s, h);
      assert (a + b)[0] != (b + a)[0];
    } else {
      assert a + b == b + a;
    }
  }

  lemma FrontIsPath(s: State, h: History)
    requires Shape(s.next, s.front, s.back, s.threads, h)
    ensures h.f.b < |h.f.chain| && Path(s.next, s.front.begin, s.front.end, h.f.chain[h.f.b + 1..])
    ensures Of(s.next, s.front.end) == Null
  {
    hide Path, BackLinked;
    assert Look(TheShape);
    var f := h.f;
    forall i | 0 <= i < |f.chain| ensures Of(s.next, f.chain[i]) == Following(f.chain, i) {}
    PathInChain(s.next, f.chain, f.b);
    assert Following(f.chain, |f.chain| - 1) == Null;
  }

  /** While nobody holds the shared side, every link of the back is stored. */
  lemma BackIsPath(s: State, h: History)
    requires Shape(s.next, s.front, s.back, s.threads, h) && forall u :: u in s.threads ==> !s.threads[u].PushLink?
    ensures h.k.b < |h.k.chain| && Path(s.next, s.back.begin, s.back.end, h.k.chain[h.k.b + 1..])
    ensures Of(s.next, s.back.end) == Null
  {
    hide Path, FrontLinked;
    assert Look(TheShape);
    var k := h.k;
    forall i | 0 <= i < |k.chain| ensures Of(s.next, k.chain[i]) == Following(k.chain, i) {}
    PathInChain(s.next, k.chain, k.b);
    assert Following(k.chain, |k.chain| - 1) == Null;
  }

  lemma SwapOfRows(s: State, h: History, t: OpId)
    requires Shape(s.next, s.front, s.back, s.threads, h) && forall u :: u in s.threads ==> !s.threads[u].PushLink?
    requires t in s.threads && s.threads[t].PopSwap?
    ensures exists row, row' ::
      OnlyWaiting(s, row) && OnlyWaiting(Instr(s, t, false), row') && (row' == row <==> OneSideEmpty(s))
  {
    FrontIsPath(s, h);
    BackIsPath(s, h);
    SwappedRowsDiffer(s, h);
    PointersMeet(s, h);
    var a, b := h.f.chain[h.f.b + 1..], h.k.chain[h.k.b + 1..];
    WaitingIsUnique(s, a, b);
    WaitingIsUnique(Instr(s, t, false), b, a);
  }

  lemma NobodyLinks(s: State, t: OpId)
    requires Locks(s.readers, s.writer, s.threads, HoldsShared, HoldsUnique) && t in s.threads && s.threads[t].PopSwap?
    ensures forall u :: u in s.threads ==> !s.threads[u].PushLink?
  {
    UniqueExcludes(s.readers, s.writer, s.threads, HoldsShared, HoldsUnique, t);
    forall u | u in s.threads ensures !s.threads[u].PushLink? { assert !HoldsShared(s.threads[u]); }
  }

  /** In every reachable state in which a pop is about to swap, the links determine in which
      order the waiting elements would be popped, before the swap and after it, and the two
      orders are the same exactly when one of the chains has nothing left. */
  lemma SwapKeepsOrderIff(acts: seq<Action>, t: OpId)
    requires t in After(acts, AnySwap).state.threads && After(acts, AnySwap).state.threads[t].PopSwap?
    ensures var s := After(acts, AnySwap).state;
      exists row, row' :: OnlyWaiting(s, row) && OnlyWaiting(Instr(s, t, false), row') &&
        (row' == row <==> OneSideEmpty(s))
  {
    RunIsSimulated(acts, AnySwap);
    var s := After(acts, AnySwap).state;
    var h :| Inv(s, After(acts, AnySwap).trace, h, AnySwap);
    NobodyLinks(s, t);
    SwapOfRows(s, h, t);
  }

  lemma OwedIsCounted(size: nat, h: History, threads: map<OpId, Local>, t: OpId)
    requires Books(size, h, threads) && t in Owing(threads)
    ensures size > 0
  {
    assert Look(TheLedger) && Look(TheTally);
    TakenFewer(h, threads);
    assert |Owing(threads)| > 0;
  }

  /** The counter never goes below zero, and the node a pop is about to make the new begin is
      never null: the link of a front node that is not the last is always stored. */
  lemma PopIsSafe(acts: seq<Action>, t: OpId)
    requires t in After(acts, AnySwap).state.threads
    ensures var s := After(acts, AnySwap).state;
      && (s.threads[t].PopCount? ==> s.size > 0)
      && (s.threads[t].PopCas? ==> s.threads[t].n1.Elem?)
      && (s.threads[t].PopTake? ==> s.threads[t].n1.Elem?)
  {
    RunIsSimulated(acts, AnySwap);
    var s := After(acts, AnySwap).state;
    var h :| Inv(s, After(acts, AnySwap).trace, h, AnySwap);
    ThreadHolds(s.next, h, s.threads, t);
    if s.threads[t].PopCount? { OwedIsCounted(s.size, h, s.threads, t); }
  }

  // ----- The counter at rest -----

  /** Nobody is between a link or an exchange of the begin and its counting. */
  ghost predicate AtRest(threads: map<OpId, Local>) {
    forall t :: t in threads ==>
      !threads[t].PushLink? && !threads[t].PushCount? && !threads[t].PopTake? && !threads[t].PopCount?
  }

  function Remaining(h: History): seq<Node> {
    if h.f.b < |h.f.chain| && h.k.b < |h.k.chain| then h.f.chain[h.f.b + 1..] + h.k.chain[h.k.b + 1..] else []
  }

  lemma {:induction false} IdsAreDistinct(nodes: seq<Node>)
    requires forall i :: 0 <= i < |nodes| ==> nodes[i].Elem?
    requires forall i, j :: 0 <= i < j < |nodes| ==> nodes[i].Elem? && nodes[j].Elem? ==> nodes[i].t != nodes[j].t
    ensures |Ids(nodes)| == |nodes|
    decreases |nodes|
  {
    if nodes != [] {
      var rest, n := nodes[..|nodes| - 1], nodes[|nodes| - 1];
      IdsAreDistinct(rest);
      assert Ids(nodes) == Ids(rest) + {n.t};
      assert n.t !in Ids(rest);
    } else {
      assert Ids(nodes) == {};
    }
  }

  lemma NodeAt(h: History, i: nat) returns (c: Side, p: nat)
    requires HomesOf(h, h.f) && HomesOf(h, h.k) && h.f.b < |h.f.chain| && h.k.b < |h.k.chain| && i < |Remaining(h)|
    ensures At(h, Remaining(h)[i], c.id, p) && c.b < p < |c.chain| && c.chain[p] == Remaining(h)[i]
    ensures if i < |h.f.chain| - h.f.b - 1 then c == h.f && p == h.f.b + 1 + i
      else c == h.k && p == h.k.b + 1 + (i - (|h.f.chain| - h.f.b - 1))
  {
    var left := |h.f.chain| - h.f.b - 1;
    if i < left { c, p := h.f, h.f.b + 1 + i; } else { c, p := h.k, h.k.b + 1 + (i - left); }
    assert At(h, c.chain[p], c.id, p);
  }

  lemma RemainingIsDistinct(h: History, threads: map<OpId, Local>)
    requires Booked(h, threads) && HomesOf(h, h.f) && HomesOf(h, h.k) && h.f.id != h.k.id
    requires h.f.b < |h.f.chain| && h.k.b < |h.k.chain|
    requires forall i :: 0 <= i < |Remaining(h)| ==> Remaining(h)[i].Elem?
    ensures |Ids(Remaining(h))| == |Remaining(h)|
  {
    var nodes := Remaining(h);
    forall i, j | 0 <= i < j < |nodes| ensures nodes[i].t != nodes[j].t {
      var c, p := NodeAt(h, i);
      var d, q := NodeAt(h, j);
      assert h.home[nodes[i]] != h.home[nodes[j]];
    }
    IdsAreDistinct(nodes);
  }

  lemma RemainingIsCounted(h: History, threads: map<OpId, Local>, i: nat)
    requires Booked(h, threads) && AtRest(threads) && h.f.b < |h.f.chain| && h.k.b < |h.k.chain| && i < |Remaining(h)|
    requires Remaining(h)[i].Elem?
    ensures Remaining(h)[i].t in h.counted - h.taken
  {
    var left := |h.f.chain| - h.f.b - 1;
    if i < left {
      assert Remaining(h)[i] == h.f.chain[h.f.b + 1 + i];
    } else {
      assert Remaining(h)[i] == h.k.chain[h.k.b + 1 + (i - left)];
    }
  }

  lemma CountedIsRemaining(h: History, threads: map<OpId, Local>, t: OpId)
    requires Booked(h, threads) && h.f.b < |h.f.chain| && h.k.b < |h.k.chain|
    requires h.f.chain[0].Dummy? && h.k.chain[0].Dummy? && OnSide(h, t) && t in h.counted && t !in h.taken
    ensures t in Ids(Remaining(h))
  {
    var n: Node :| n.Elem? && n.t == t && (On(h, h.f, n) || On(h, h.k, n));
    var i, left := h.home[n].i, |h.f.chain| - h.f.b - 1;
    if On(h, h.f, n) {
      assert Remaining(h)[i - h.f.b - 1] == n;
    } else {
      assert Remaining(h)[left + (i - h.k.b - 1)] == n;
    }
  }

  lemma AllHaveEffect(h: History, threads: map<OpId, Local>)
    requires Booked(h, threads) && AtRest(threads) && h.k.b <= h.com < |h.k.chain|
    requires forall i :: 0 < i < |h.k.chain| ==> h.k.chain[i].Elem?
    ensures h.com == |h.k.chain| - 1
  {
    var last := |h.k.chain| - 1;
    assert last > 0 ==> h.k.chain[last].t in h.counted;
  }

  lemma RestedContent(h: History)
    requires h.f.b < |h.f.chain| && h.k.b <= h.com == |h.k.chain| - 1
    ensures Content(h) == Values(Remaining(h))
  {
    hide Values;
    assert h.k.chain[h.k.b + 1..h.com + 1] == h.k.chain[h.k.b + 1..];
    ValuesConcat(h.f.chain[h.f.b + 1..], h.k.chain[h.k.b + 1..]);
  }

  lemma RemainingAre(h: History, threads: map<OpId, Local>)
    requires Booked(h, threads) && AtRest(threads) && h.f.b < |h.f.chain| && h.k.b < |h.k.chain|
    requires h.f.chain[0].Dummy? && h.k.chain[0].Dummy? && forall t :: t in h.counted ==> OnSide(h, t)
    requires forall i :: 0 <= i < |Remaining(h)| ==> Remaining(h)[i].Elem?
    ensures h.counted - h.taken == Ids(Remaining(h))
  {
    hide Booked, OnSide, AtRest, Remaining;
    var nodes := Remaining(h);
    forall t | t in h.counted - h.taken ensures t in Ids(nodes) { CountedIsRemaining(h, threads, t); }
    forall i | 0 <= i < |nodes| ensures nodes[i].t in h.counted - h.taken { RemainingIsCounted(h, threads, i); }
  }

  lemma RemainingElems(h: History)
    requires h.f.b < |h.f.chain| && h.k.b < |h.k.chain|
    requires forall i :: 0 < i < |h.f.chain| ==> h.f.chain[i].Elem?
    requires forall i :: 0 < i < |h.k.chain| ==> h.k.chain[i].Elem?
    ensures forall i :: 0 <= i < |Remaining(h)| ==> Remaining(h)[i].Elem?
  {}

  lemma RestedLength(h: History, threads: map<OpId, Local>)
    requires Booked(h, threads) && AtRest(threads) && HomesOf(h, h.f) && HomesOf(h, h.k) && h.f.id != h.k.id
    requires h.f.b < |h.f.chain| && h.k.b <= h.com < |h.k.chain| && h.f.chain[0].Dummy? && h.k.chain[0].Dummy?
    requires forall i :: 0 < i < |h.f.chain| ==> h.f.chain[i].Elem?
    requires forall i :: 0 < i < |h.k.chain| ==> h.k.chain[i].Elem?
    requires forall t :: t in h.counted ==> OnSide(h, t)
    ensures |h.counted - h.taken| == |Content(h)|
  {
    hide Booked, AtRest, OnSide, HomesOf, Content, Remaining;
    AllHaveEffect(h, threads);
    RestedContent(h);
    RemainingElems(h);
    RemainingIsDistinct(h, threads);
    RemainingAre(h, threads);
    ValuesLength(Remaining(h));
  }

  lemma RestedSize(s: State, h: History)
    requires Shape(s.next, s.front, s.back, s.threads, h) && Books(s.size, h, s.threads) && Placed(h)
    requires AtRest(s.threads)
    ensures s.size == |Content(h)|
  {
    hide Booked, OnSide, BackLinked, FrontLinked, HomesOf, Content;
    assert Shaped(s.next, s.front, s.back, s.threads, h) by { assert Look(TheShape); }
    assert Booked(h, s.threads) by { assert Look(TheLedger); }
    assert Counted(s.size, h, s.threads) by { assert Look(TheTally); }
    assert forall t :: t in h.counted ==> OnSide(h, t) by { assert Look(ThePlaces); }
    RestedLength(h, s.threads);
    TakenAreCounted(h, s.threads);
    assert Owing(s.threads) == {};
  }

  lemma TakenAreCounted(h: History, threads: map<OpId, Local>)
    requires Booked(h, threads)
    ensures |h.counted - h.taken| == |h.counted| - |h.taken|
  {
    assert h.counted == h.taken + (h.counted - h.taken);
  }

  /** What is in the bag, or in the queue, after the logged operations. */
  ghost predicate Leaves(log: seq<Entry>, mode: Mode, q: seq<Value>) {
    if mode == AnySwap then BagLegal(log) && forall v :: InBag(log, v) == Occurs(q, v)
    else Legal([], log) && Replay([], log) == q
  }

  /** size() is exact whenever no operation is between its link or its exchange and its
      counting, for any number of consumers: it is the length of what a bag order leaves, and,
      in the modes in which there is one, of what a linearization leaves. */
  lemma SizeIsExactAtRest(acts: seq<Action>, mode: Mode)
    requires AtRest(After(acts, mode).state.threads)
    ensures var r := After(acts, mode);
      exists log, q :: Orders(r.trace, log) && Leaves(log, mode, q) && r.state.size == |q|
  {
    RunIsSimulated(acts, mode);
    var r := After(acts, mode);
    var h :| Inv(r.state, r.trace, h, mode);
    RestedSize(r.state, h);
    TrackOrders(r.trace, h.log, PhasesOf(r.state.threads, h.done));
    assert Explains(h, mode) by { assert Look(TheLog); }
    assert Leaves(h.log, mode, Content(h));
  }

  lemma OrderlyIsFifo(acts: seq<Action>, mode: Mode)
    requires mode != AnySwap
    ensures WellFormed(After(acts, mode).trace) && Linearizable(After(acts, mode).trace)
  {
    RunIsSimulated(acts, mode);
    var r := After(acts, mode);
    var h :| Inv(r.state, r.trace, h, mode);
    TrackOrders(r.trace, h.log, PhasesOf(r.state.threads, h.done));
    assert Explains(h, mode) by { assert Look(TheLog); }
    assert Linearization(r.trace, h.log);
  }

  /** With any number of producers and no two pops searching at once, swapque is a
      linearizable first-in-first-out queue. */
  lemma SwapqueIsFifoForOneConsumer(acts: seq<Action>)
    ensures WellFormed(After(acts, OnePop).trace) && Linearizable(After(acts, OnePop).trace)
  {
    OrderlyIsFifo(acts, OnePop);
  }

  /** With any number of producers and consumers it is one as long as every swap finds the
      front or the back with nothing left. */
  lemma SwapqueIsFifoWhenSwapsAreClean(acts: seq<Action>)
    ensures WellFormed(After(acts, CleanSwap).trace) && Linearizable(After(acts, CleanSwap).trace)
  {
    OrderlyIsFifo(acts, CleanSwap);
  }

  /** With any number of producers and consumers, swapque is a linearizable bag: every value
      popped was pushed and is popped once, and a pop says "empty" only at a moment when
      every push that has taken effect has been popped. */
  lemma SwapqueIsABag(acts: seq<Action>)
    ensures WellFormed(After(acts, AnySwap).trace) && BagLinearizable(After(acts, AnySwap).trace)
  {
    RunIsSimulated(acts, AnySwap);
    var r := After(acts, AnySwap);
    var h :| Inv(r.state, r.trace, h, AnySwap);
    TrackOrders(r.trace, h.log, PhasesOf(r.state.threads, h.done));
    assert Explains(h, AnySwap) by { assert Look(TheLog); }
  }
}
