/** optimisticque: with the retry after the repair walk it is linearizable for any number of
    threads; as the source has it, it is so until a pop puts null into the head. */
module OptimisticqueProof {
  import opened Linearizability
  import opened NodeChains
  import opened Counting
  import opened Optimisticque

  /** Every node ever added, in order, the position of head, and where each node lies. */
  datatype History = History(chain: seq<Node>, b: nat, home: map<Node, nat>, log: seq<Entry>)

  function PhaseOf(l: Local): Phase {
    match l
    case PushTop(v) => Pending(Push(v))
    case PushPrev(v, _) => Pending(Push(v))
    case PushCas(v, _) => Pending(Push(v))
    case PushLink(_, _) => Effected(Ack)
    case PushCount => Effected(Ack)
    case PopTake(n1) => if n1.Elem? then Effected(Got(n1.data)) else Effected(Empty)
    case PopCount(v) => Effected(Got(v))
    case Exit(res) => Effected(res)
    case Done => Over
    case _ => Pending(Pop)
  }

  function PhasesOf(threads: map<OpId, Local>): Phases {
    map t | t in threads :: PhaseOf(threads[t])
  }

  function Content(h: History): seq<Value> {
    if h.b < |h.chain| then Values(h.chain[h.b + 1..]) else []
  }

  // ----- The invariant -----

  /** The parts of the invariant.  The verifier looks inside a part only where a proof
      mentions Look. */
  datatype Part = TheShape | TheNodes | TheLog | TheTally

  predicate Look(part: Part) { true }

  predicate At(h: History, n: Node, i: nat) {
    n in h.home && h.home[n] == i
  }

  predicate On(h: History, n: Node) {
    n in h.home && h.home[n] < |h.chain| && h.chain[h.home[n]] == n
  }

  /** A forward link is null or the true successor. */
  ghost predicate Forward(next: map<Node, Node>, h: History) {
    forall i {:trigger Following(h.chain, i)} :: 0 <= i < |h.chain| && h.chain[i] in next ==>
      next[h.chain[i]] == Null || next[h.chain[i]] == Following(h.chain, i)
  }

  /** A backward link is the true predecessor. */
  ghost predicate Backward(prev: map<Node, Node>, h: History) {
    forall i {:trigger Following(h.chain, i)} :: 0 <= i && i + 1 < |h.chain| ==>
      Following(h.chain, i) in prev && prev[Following(h.chain, i)] == h.chain[i]
  }

  ghost predicate Homes(h: History) {
    forall i {:trigger At(h, h.chain[i], i)} :: 0 <= i < |h.chain| ==> At(h, h.chain[i], i)
  }

  ghost predicate Shaped(next: map<Node, Node>, prev: map<Node, Node>, head: Node, detail: Node, h: History) {
    && h.b < |h.chain|
    && h.chain[h.b] == head && h.chain[|h.chain| - 1] == detail
    && h.chain[0] == Dummy(0)
    && (forall i :: 0 < i < |h.chain| ==> h.chain[i].Elem?)
    && (forall i :: 0 <= i < |h.chain| ==> h.chain[i] in next)
    && Forward(next, h) && Backward(prev, h) && Homes(h)
  }

  ghost predicate Shape(next: map<Node, Node>, prev: map<Node, Node>, head: Node, detail: Node, h: History) {
    forall part {:trigger Look(part)} :: Look(part) && part == TheShape ==> Shaped(next, prev, head, detail, h)
  }

  ghost predicate Allocated(next: map<Node, Node>, prev: map<Node, Node>, h: History, threads: map<OpId, Local>) {
    && next.Keys == prev.Keys
    && (forall n :: n in next ==> n != Null && (n.Elem? ==> n.t in threads))
    && (forall n :: n in prev && !n.Elem? ==> prev[n] == Null)
    && (forall n :: n in h.home ==> n in next && On(h, n))
    && (forall n :: n in next && n !in h.home ==> next[n] == Null)
  }

  ghost predicate Nodes(next: map<Node, Node>, prev: map<Node, Node>, h: History, threads: map<OpId, Local>) {
    forall part {:trigger Look(part)} :: Look(part) && part == TheNodes ==> Allocated(next, prev, h, threads)
  }

  ghost predicate Explains(h: History) {
    Legal([], h.log) && Replay([], h.log) == Content(h)
  }

  ghost predicate Explained(h: History) {
    forall part {:trigger Look(part)} :: Look(part) && part == TheLog ==> Explains(h)
  }

  /** What an operation has yet to add to the counter. */
  function Debt(l: Local): int {
    if l.PushLink? || l.PushCount? then 1 else if l.PopTake? || l.PopCount? then -1 else 0
  }

  function Length(h: History): int { |h.chain| - 1 - h.b }

  /** The counter is the length, up to the operations that have yet to change it. */
  ghost predicate Tallied(size: nat, h: History, threads: map<OpId, Local>) {
    size < WORD && Agree(size + Balance(threads, Debt), Length(h))
  }

  ghost predicate Tally(size: nat, h: History, threads: map<OpId, Local>) {
    forall part {:trigger Look(part)} :: Look(part) && part == TheTally ==> Tallied(size, h, threads)
  }

  /** The node of a push that has not been added yet. */
  predicate Private(next: map<Node, Node>, h: History, t: OpId, v: Value) {
    Elem(t, v) in next && Elem(t, v) !in h.home
  }

  predicate WasHead(h: History, n: Node) {
    On(h, n) && h.home[n] <= h.b
  }

  predicate Adjacent(h: History, p: Node, n: Node) {
    On(h, p) && On(h, n) && h.home[n] == h.home[p] + 1
  }

  /** The forward links from position lo to position hi are stored. */
  ghost predicate Stored(next: map<Node, Node>, h: History, lo: nat, hi: nat) {
    forall i {:trigger Following(h.chain, i)} :: lo <= i < hi && i < |h.chain| ==>
      h.chain[i] in next && next[h.chain[i]] == Following(h.chain, i)
  }

  /** The walk is somewhere between n0 and top, and all links from there to top are stored. */
  ghost predicate Walking(next: map<Node, Node>, h: History, n0: Node, top: Node, tail: Node) {
    && WasHead(h, n0) && On(h, top) && On(h, tail)
    && h.home[n0] <= h.home[tail] <= h.home[top] && h.home[n0] < h.home[top]
    && Stored(next, h, h.home[tail], h.home[top])
  }

  ghost predicate Thread(next: map<Node, Node>, prev: map<Node, Node>, h: History, t: OpId, l: Local, retry: bool) {
    match l
    case PushTop(v) => Private(next, h, t, v)
    case PushPrev(v, hp) => Private(next, h, t, v) && On(h, hp)
    case PushCas(v, hp) => Private(next, h, t, v) && On(h, hp) && Elem(t, v) in prev && prev[Elem(t, v)] == hp
    case PushLink(v, hp) => Adjacent(h, hp, Elem(t, v))
    case PopDetail(n0) => WasHead(h, n0)
    case PopNext(n0) => WasHead(h, n0) && h.home[n0] + 1 < |h.chain|
    case PopTail(n0) => WasHead(h, n0) && h.home[n0] + 1 < |h.chain|
    case PopHead(n0, top, tail) => Walking(next, h, n0, top, tail)
    case PopPrev(n0, top, tail) => Walking(next, h, n0, top, tail) && h.home[n0] < h.home[tail]
    case PopStore(n0, top, tail, before) =>
      Walking(next, h, n0, top, tail) && h.home[n0] < h.home[tail] && Adjacent(h, before, tail)
    case PopCas(n0, n1) => WasHead(h, n0) && ((n1 == Null && !retry) || (Adjacent(h, n0, n1) && n1.Elem?))
    case PopTake(n1) => n1.Elem?
    case Crashed => false
    case _ => true
  }

  ghost predicate Threads(next: map<Node, Node>, prev: map<Node, Node>, h: History, threads: map<OpId, Local>,
                          retry: bool) {
    forall t {:trigger Thread(next, prev, h, t, threads[t], retry)} ::
      t in threads ==> Thread(next, prev, h, t, threads[t], retry)
  }

  ghost predicate Fits(next: map<Node, Node>, prev: map<Node, Node>, h: History, t: OpId, l: Local, retry: bool) {
    forall u :: u == t ==> Thread(next, prev, h, u, l, retry)
  }

  ghost predicate Inv(s: State, trace: seq<Event>, h: History, retry: bool) {
    && Shape(s.next, s.prev, s.head, s.detail, h)
    && Nodes(s.next, s.prev, h, s.threads)
    && Explained(h)
    && Threads(s.next, s.prev, h, s.threads, retry)
    && Track(trace, h.log, PhasesOf(s.threads))
    && Tally(s.size, h, s.threads)
  }

  /** The same, not taken apart at every use. */
  ghost predicate Holds(s: State, trace: seq<Event>, h: History, retry: bool) {
    exists h' :: h' == h && Inv(s, trace, h', retry)
  }

  /** Some history that continues h0 explains the state and the trace. */
  ghost predicate Simulated(s: State, trace: seq<Event>, h0: History, retry: bool) {
    exists h :: Inv(s, trace, h, retry) && h0.chain <= h.chain
  }

  ghost predicate Explainable(s: State, trace: seq<Event>, retry: bool) {
    exists h :: Inv(s, trace, h, retry)
  }

  // ----- Parts of the invariant under a step of t -----

  lemma Bounds(next: map<Node, Node>, prev: map<Node, Node>, head: Node, detail: Node, h: History)
    requires Shape(next, prev, head, detail, h)
    ensures h.b < |h.chain| && h.chain[h.b] == head && h.chain[|h.chain| - 1] == detail
    ensures At(h, head, h.b) && At(h, detail, |h.chain| - 1)
    ensures head != Null && (head == detail <==> h.b == |h.chain| - 1)
  {
    assert Look(TheShape);
    assert At(h, h.chain[h.b], h.b) && At(h, h.chain[|h.chain| - 1], |h.chain| - 1);
  }

  lemma TrackNext(trace: seq<Event>, x: Event, log: seq<Entry>, threads: map<OpId, Local>, t: OpId, l: Local)
    requires Track(trace, log, PhasesOf(threads))
    requires match x
      case Call(u, op) => u == t && t !in threads && PhaseOf(l) == Pending(op)
      case Ret(u, res) => u == t && t in threads && PhaseOf(threads[t]) == Effected(res) && PhaseOf(l) == Over
      case Tau => t in threads && PhaseOf(l) == PhaseOf(threads[t])
    ensures Track(trace + [x], log, PhasesOf(threads[t := l]))
  {
    var m, m' := PhasesOf(threads), PhasesOf(threads[t := l]);
    assert m' == m[t := PhaseOf(l)];
    TrackEvent(trace, x, log, m, m', t, PhaseOf(l));
  }

  lemma TrackEffect(trace: seq<Event>, log: seq<Entry>, threads: map<OpId, Local>, t: OpId, l: Local, op: Op, res: Res)
    requires Track(trace, log, PhasesOf(threads))
    requires t in threads && PhaseOf(threads[t]) == Pending(op) && PhaseOf(l) == Effected(res)
    ensures Track(trace + [Tau], log + [Entry(t, op, res)], PhasesOf(threads[t := l]))
  {
    var m, m' := PhasesOf(threads), PhasesOf(threads[t := l]);
    assert m' == m[t := PhaseOf(l)];
    Linearizability.TrackEffect(trace, log, m, m', Entry(t, op, res));
  }

  /** What a step of t may change in the history. */
  ghost predicate Grows(h: History, h': History, t: OpId) {
    && h.chain <= h'.chain && h.b <= h'.b
    && (forall n :: n in h.home ==> n in h'.home && h'.home[n] == h.home[n])
    && (forall n :: n in h'.home ==> n in h.home || (n.Elem? && n.t == t))
  }

  /** Stores into forward links of the chain store the true successor; t writes the backward
      link of its own node only. */
  ghost predicate HeapGrows(next: map<Node, Node>, next': map<Node, Node>, prev: map<Node, Node>,
                            prev': map<Node, Node>, h: History, t: OpId) {
    && (forall n ::
        n in next ==> n in next' && (next'[n] == next[n] || (n in h.home && next'[n] == Following(h.chain, h.home[n]))))
    && (forall n :: n in prev ==> n in prev' && (prev'[n] == prev[n] || (n !in h.home && n.Elem? && n.t == t)))
  }

  lemma StoredStays(next: map<Node, Node>, next': map<Node, Node>, h: History, h': History, lo: nat, hi: nat)
    requires Stored(next, h, lo, hi) && h.chain <= h'.chain && hi < |h.chain| && Homes(h)
    requires forall n ::
      n in next ==> n in next' && (next'[n] == next[n] || (n in h.home && next'[n] == Following(h.chain, h.home[n])))
    ensures Stored(next', h', lo, hi)
  {
    forall i | lo <= i < hi && i < |h'.chain|
      ensures h'.chain[i] in next' && next'[h'.chain[i]] == Following(h'.chain, i)
    {
      assert Of(next, h.chain[i]) == Following(h.chain, i);
      assert At(h, h.chain[i], i);
    }
  }

  lemma ThreadStays(next: map<Node, Node>, next': map<Node, Node>, prev: map<Node, Node>, prev': map<Node, Node>,
                    h: History, h': History,
                    t: OpId, u: OpId, l: Local, retry: bool)
    requires Grows(h, h', t) && HeapGrows(next, next', prev, prev', h, t) && Homes(h) && u != t
    requires Thread(next, prev, h, u, l, retry)
    ensures Thread(next', prev', h', u, l, retry)
  {
    if l.PopHead? || l.PopPrev? || l.PopStore? {
      StoredStays(next, next', h, h', h.home[l.tail], h.home[l.top]);
    }
  }

  lemma ThreadHolds(next: map<Node, Node>, prev: map<Node, Node>, h: History, threads: map<OpId, Local>, t: OpId,
                    retry: bool)
    requires Threads(next, prev, h, threads, retry) && t in threads
    ensures Thread(next, prev, h, t, threads[t], retry)
  {}

  lemma ThreadsStay(next: map<Node, Node>, next': map<Node, Node>, prev: map<Node, Node>, prev': map<Node, Node>,
                    h: History, h': History,
                    threads: map<OpId, Local>, t: OpId, l: Local, retry: bool)
    requires Threads(next, prev, h, threads, retry) && Grows(h, h', t) && HeapGrows(next, next', prev, prev', h, t)
    requires Homes(h)
    requires Fits(next', prev', h', t, l, retry)
    ensures Threads(next', prev', h', threads[t := l], retry)
  {
    forall u | u in threads && u != t ensures Thread(next', prev', h', u, threads[u], retry) {
      ThreadHolds(next, prev, h, threads, u, retry);
      ThreadStays(next, next', prev, prev', h, h', t, u, threads[u], retry);
    }
  }

  lemma HomesHold(next: map<Node, Node>, prev: map<Node, Node>, head: Node, detail: Node, h: History)
    requires Shape(next, prev, head, detail, h)
    ensures Homes(h)
  {
    assert Look(TheShape);
  }

  lemma NodesStay(next: map<Node, Node>, prev: map<Node, Node>, h: History, threads: map<OpId, Local>, t: OpId,
                  l: Local)
    requires Nodes(next, prev, h, threads)
    ensures Nodes(next, prev, h, threads[t := l])
  {}

  lemma TallyMoves(size: nat, size': nat, h: History, h': History, threads: map<OpId, Local>, t: OpId, l: Local)
    requires Tally(size, h, threads) && size' < WORD
    requires Together(size' - size + Debt(l) - (if t in threads then Debt(threads[t]) else 0) - Length(h') + Length(h))
    ensures Tally(size', h', threads[t := l])
  {
    assert Look(TheTally);
    BalanceMoves(threads, Debt, t, l);
    AgreeStill(size + Balance(threads, Debt), Length(h), size' + Balance(threads[t := l], Debt), Length(h'));
  }

  /** A step that only moves t on, and perhaps the counter. */
  lemma Counts(s: State, trace: seq<Event>, h: History, retry: bool, t: OpId, l: Local, x: Event, size: nat)
    requires Holds(s, trace, h, retry) && t in s.threads && Fits(s.next, s.prev, h, t, l, retry)
    requires match x
      case Call(_, _) => false
      case Ret(u, res) => u == t && PhaseOf(s.threads[t]) == Effected(res) && PhaseOf(l) == Over
      case Tau => PhaseOf(l) == PhaseOf(s.threads[t])
    requires size < WORD && Together(size - s.size + Debt(l) - Debt(s.threads[t]))
    ensures Simulated(Goto(s, t, l).(size := size), trace + [x], h, retry)
  {
    HomesHold(s.next, s.prev, s.head, s.detail, h);
    TrackNext(trace, x, h.log, s.threads, t, l);
    NodesStay(s.next, s.prev, h, s.threads, t, l);
    TallyMoves(s.size, size, h, h, s.threads, t, l);
    ThreadsStay(s.next, s.next, s.prev, s.prev, h, h, s.threads, t, l, retry);
    var _ := Inv(Goto(s, t, l).(size := size), trace + [x], h, retry);
  }

  lemma SizeFits(size: nat, h: History, threads: map<OpId, Local>)
    requires Tally(size, h, threads)
    ensures size < WORD
  {
    assert Look(TheTally);
  }

  /** A step that only moves t on. */
  lemma Quiet(s: State, trace: seq<Event>, h: History, retry: bool, t: OpId, l: Local, x: Event)
    requires Holds(s, trace, h, retry) && t in s.threads && Fits(s.next, s.prev, h, t, l, retry)
    requires match x
      case Call(_, _) => false
      case Ret(u, res) => u == t && PhaseOf(s.threads[t]) == Effected(res) && PhaseOf(l) == Over
      case Tau => PhaseOf(l) == PhaseOf(s.threads[t])
    requires Debt(l) == Debt(s.threads[t])
    ensures Simulated(Goto(s, t, l), trace + [x], h, retry)
  {
    SizeFits(s.size, h, s.threads);
    Counts(s, trace, h, retry, t, l, x, s.size);
    assert Goto(s, t, l).(size := s.size) == Goto(s, t, l);
  }

  // ----- A call -----

  lemma StartNodes(s: State, h: History, t: OpId, op: Op)
    requires Nodes(s.next, s.prev, h, s.threads) && t !in s.threads
    ensures var s' := Begin(s, t, op);
      && Nodes(s'.next, s'.prev, h, s'.threads)
      && HeapGrows(s.next, s'.next, s.prev, s'.prev, h, t)
      && (op.Push? ==> Elem(t, op.v) !in s.next && Private(s'.next, h, t, op.v))
  {
    assert Look(TheNodes);
  }

  lemma StartShape(s: State, h: History, n: Node)
    requires Shape(s.next, s.prev, s.head, s.detail, h) && n !in s.next && n !in h.home
    ensures Shape(s.next[n := Null], s.prev[n := Null], s.head, s.detail, h)
  {}

  lemma Starts(s: State, trace: seq<Event>, h: History, retry: bool, t: OpId, op: Op)
    requires Holds(s, trace, h, retry) && t !in s.threads && op != Clear
    ensures Simulated(Begin(s, t, op), trace + [Call(t, op)], h, retry)
  {
    var s' := Begin(s, t, op);
    HomesHold(s.next, s.prev, s.head, s.detail, h);
    StartNodes(s, h, t, op);
    if op.Push? { StartShape(s, h, Elem(t, op.v)); }
    TrackNext(trace, Call(t, op), h.log, s.threads, t, s'.threads[t]);
    SizeFits(s.size, h, s.threads);
    TallyMoves(s.size, s.size, h, h, s.threads, t, s'.threads[t]);
    ThreadsStay(s.next, s'.next, s.prev, s'.prev, h, h, s.threads, t, s'.threads[t], retry);
    var _ := Inv(s', trace + [Call(t, op)], h, retry);
  }

  // ----- A push -----

  lemma PrevShape(s: State, h: History, t: OpId, v: Value, hp: Node)
    requires Shape(s.next, s.prev, s.head, s.detail, h) && Private(s.next, h, t, v)
    ensures Shape(s.next, s.prev[Elem(t, v) := hp], s.head, s.detail, h)
  {
    assert Look(TheShape);
    forall i | 0 <= i && i + 1 < |h.chain| ensures Following(h.chain, i) != Elem(t, v) {
      assert At(h, h.chain[i + 1], i + 1);
    }
  }

  lemma PrevNodes(s: State, h: History, t: OpId, l: Local, n: Node, hp: Node)
    requires Nodes(s.next, s.prev, h, s.threads) && n in s.next && n.Elem?
    ensures Nodes(s.next, s.prev[n := hp], h, s.threads[t := l]) && n in s.prev
  {
    assert Look(TheNodes);
  }

  lemma SetsPrev(s: State, trace: seq<Event>, h: History, retry: bool, t: OpId, v: Value, hp: Node)
    requires Holds(s, trace, h, retry) && t in s.threads && s.threads[t] == PushPrev(v, hp)
    ensures Simulated(Goto(s, t, PushCas(v, hp)).(prev := s.prev[Elem(t, v) := hp]), trace + [Tau], h, retry)
  {
    var l, prev' := PushCas(v, hp), s.prev[Elem(t, v) := hp];
    ThreadHolds(s.next, s.prev, h, s.threads, t, retry);
    HomesHold(s.next, s.prev, s.head, s.detail, h);
    PrevShape(s, h, t, v, hp);
    PrevNodes(s, h, t, l, Elem(t, v), hp);
    TrackNext(trace, Tau, h.log, s.threads, t, l);
    SizeFits(s.size, h, s.threads);
    TallyMoves(s.size, s.size, h, h, s.threads, t, l);
    ThreadsStay(s.next, s.next, s.prev, prev', h, h, s.threads, t, l, retry);
    var _ := Inv(Goto(s, t, l).(prev := prev'), trace + [Tau], h, retry);
  }

  function Added(h: History, t: OpId, v: Value): History {
    h.(chain := h.chain + [Elem(t, v)], home := h.home[Elem(t, v) := |h.chain|],
      log := h.log + [Entry(t, Push(v), Ack)])
  }

  lemma AddShape(s: State, h: History, t: OpId, v: Value)
    requires Shape(s.next, s.prev, s.head, s.detail, h) && Nodes(s.next, s.prev, h, s.threads)
    requires Private(s.next, h, t, v)
    requires Elem(t, v) in s.prev && s.prev[Elem(t, v)] == s.detail
    ensures Shape(s.next, s.prev, s.head, Elem(t, v), Added(h, t, v))
  {
    assert Look(TheShape) && Look(TheNodes);
    var h' := Added(h, t, v);
    AddHomes(h, t, v);
    AddForward(s, h, t, v);
    AddBackward(s, h, t, v);
  }

  lemma AddForward(s: State, h: History, t: OpId, v: Value)
    requires Forward(s.next, h) && Nodes(s.next, s.prev, h, s.threads) && Private(s.next, h, t, v)
    requires h.chain != [] && forall i :: 0 <= i < |h.chain| ==> h.chain[i] in s.next
    ensures Forward(s.next, Added(h, t, v))
  {
    assert Look(TheNodes);
    var h' := Added(h, t, v);
    forall i | 0 <= i < |h'.chain| && h'.chain[i] in s.next
      ensures s.next[h'.chain[i]] == Null || s.next[h'.chain[i]] == Following(h'.chain, i)
    {
      if i < |h.chain| { assert s.next[h.chain[i]] == Null || s.next[h.chain[i]] == Following(h.chain, i); }
    }
  }

  lemma AddBackward(s: State, h: History, t: OpId, v: Value)
    requires Backward(s.prev, h) && h.chain != [] && Elem(t, v) in s.prev
    requires s.prev[Elem(t, v)] == h.chain[|h.chain| - 1]
    ensures Backward(s.prev, Added(h, t, v))
  {
    var h' := Added(h, t, v);
    forall i | 0 <= i && i + 1 < |h'.chain|
      ensures Following(h'.chain, i) in s.prev && s.prev[Following(h'.chain, i)] == h'.chain[i]
    {
      assert i + 1 < |h.chain| ==> Following(h'.chain, i) == Following(h.chain, i);
    }
  }

  lemma AddHomes(h: History, t: OpId, v: Value)
    requires Homes(h) && Elem(t, v) !in h.home
    ensures Homes(Added(h, t, v))
  {
    var h' := Added(h, t, v);
    forall i | 0 <= i < |h'.chain| ensures At(h', h'.chain[i], i) {
      if i < |h.chain| { assert At(h, h.chain[i], i); }
    }
  }

  lemma AddNodes(s: State, h: History, t: OpId, v: Value, l: Local)
    requires Nodes(s.next, s.prev, h, s.threads) && Elem(t, v) in s.next
    ensures Nodes(s.next, s.prev, Added(h, t, v), s.threads[t := l])
  {}

  lemma AddExplained(h: History, t: OpId, v: Value)
    requires Explained(h) && h.b < |h.chain|
    ensures Explained(Added(h, t, v))
  {
    assert Look(TheLog);
    ReplaySnoc([], h.log, Entry(t, Push(v), Ack));
    ValuesLast(h.chain, h.b + 1, Elem(t, v));
  }

  lemma Adds(s: State, trace: seq<Event>, h: History, retry: bool, t: OpId, v: Value)
    requires Holds(s, trace, h, retry) && t in s.threads && s.threads[t] == PushCas(v, s.detail)
    ensures Simulated(Goto(s, t, PushLink(v, s.detail)).(detail := Elem(t, v)), trace + [Tau], h, retry)
  {
    var l, h' := PushLink(v, s.detail), Added(h, t, v);
    ThreadHolds(s.next, s.prev, h, s.threads, t, retry);
    HomesHold(s.next, s.prev, s.head, s.detail, h);
    Bounds(s.next, s.prev, s.head, s.detail, h);
    AddShape(s, h, t, v);
    AddNodes(s, h, t, v, l);
    AddExplained(h, t, v);
    TrackEffect(trace, h.log, s.threads, t, l, Push(v), Ack);
    SizeFits(s.size, h, s.threads);
    TallyMoves(s.size, s.size, h, h', s.threads, t, l);
    ThreadsStay(s.next, s.next, s.prev, s.prev, h, h', s.threads, t, l, retry);
    var _ := Inv(Goto(s, t, l).(detail := Elem(t, v)), trace + [Tau], h', retry);
  }

  // ----- A forward link is stored, by the push of the node or by a repair -----

  lemma StoreShape(s: State, h: History, p: Node, n: Node)
    requires Shape(s.next, s.prev, s.head, s.detail, h) && Adjacent(h, p, n)
    ensures Shape(s.next[p := n], s.prev, s.head, s.detail, h) && p in s.next && n == Following(h.chain, h.home[p])
  {
    assert Look(TheShape);
    var next' := s.next[p := n];
    forall i | 0 <= i < |h.chain| && h.chain[i] in next'
      ensures next'[h.chain[i]] == Null || next'[h.chain[i]] == Following(h.chain, i)
    {
      assert At(h, h.chain[i], i);
      assert s.next[h.chain[i]] == Null || s.next[h.chain[i]] == Following(h.chain, i);
    }
  }

  lemma StoreNodes(s: State, h: History, t: OpId, l: Local, p: Node, n: Node)
    requires Nodes(s.next, s.prev, h, s.threads) && p in h.home
    ensures Nodes(s.next[p := n], s.prev, h, s.threads[t := l])
  {}

  lemma Stores(s: State, trace: seq<Event>, h: History, retry: bool, t: OpId, l: Local, p: Node, n: Node)
    requires Holds(s, trace, h, retry) && t in s.threads && Adjacent(h, p, n)
    requires PhaseOf(l) == PhaseOf(s.threads[t]) && Debt(l) == Debt(s.threads[t])
    requires Fits(s.next[p := n], s.prev, h, t, l, retry)
    ensures Simulated(Goto(s, t, l).(next := s.next[p := n]), trace + [Tau], h, retry)
  {
    HomesHold(s.next, s.prev, s.head, s.detail, h);
    StoreShape(s, h, p, n);
    StoreNodes(s, h, t, l, p, n);
    TrackNext(trace, Tau, h.log, s.threads, t, l);
    SizeFits(s.size, h, s.threads);
    TallyMoves(s.size, s.size, h, h, s.threads, t, l);
    ThreadsStay(s.next, s.next[p := n], s.prev, s.prev, h, h, s.threads, t, l, retry);
    var _ := Inv(Goto(s, t, l).(next := s.next[p := n]), trace + [Tau], h, retry);
  }

  // ----- A pop -----

  lemma FindsEmpty(s: State, trace: seq<Event>, h: History, retry: bool, t: OpId)
    requires Holds(s, trace, h, retry) && t in s.threads && s.threads[t] == PopDetail(s.detail)
    ensures Simulated(Goto(s, t, Exit(Empty)), trace + [Tau], h, retry)
  {
    var h' := h.(log := h.log + [Entry(t, Pop, Empty)]);
    ThreadHolds(s.next, s.prev, h, s.threads, t, retry);
    HomesHold(s.next, s.prev, s.head, s.detail, h);
    Bounds(s.next, s.prev, s.head, s.detail, h);
    EmptyExplained(h, t);
    LogShape(s, h, h');
    LogNodes(s, h, h', t, Exit(Empty));
    TrackEffect(trace, h.log, s.threads, t, Exit(Empty), Pop, Empty);
    SizeFits(s.size, h, s.threads);
    TallyMoves(s.size, s.size, h, h', s.threads, t, Exit(Empty));
    ThreadsStay(s.next, s.next, s.prev, s.prev, h, h', s.threads, t, Exit(Empty), retry);
    var _ := Inv(Goto(s, t, Exit(Empty)), trace + [Tau], h', retry);
  }

  lemma EmptyExplained(h: History, t: OpId)
    requires Explained(h) && h.b == |h.chain| - 1
    ensures Explained(h.(log := h.log + [Entry(t, Pop, Empty)]))
  {
    assert Look(TheLog);
    assert h.chain[h.b + 1..] == [];
    ReplaySnoc([], h.log, Entry(t, Pop, Empty));
  }

  lemma LogHomes(h: History, h': History)
    requires Homes(h) && h'.chain == h.chain && h'.home == h.home
    ensures Homes(h')
  {
    forall i | 0 <= i < |h.chain| ensures At(h', h.chain[i], i) { assert At(h, h.chain[i], i); }
  }

  lemma LogShape(s: State, h: History, h': History)
    requires Shape(s.next, s.prev, s.head, s.detail, h) && h' == h.(log := h'.log)
    ensures Shape(s.next, s.prev, s.head, s.detail, h')
  {
    assert Look(TheShape);
    LogHomes(h, h');
  }

  lemma LogNodes(s: State, h: History, h': History, t: OpId, l: Local)
    requires Nodes(s.next, s.prev, h, s.threads) && h'.home == h.home && h'.chain == h.chain
    ensures Nodes(s.next, s.prev, h', s.threads[t := l])
  {}

  function Taken(h: History, t: OpId, n1: Node): History
    requires n1.Elem?
  {
    h.(b := h.b + 1, log := h.log + [Entry(t, Pop, Got(n1.data))])
  }

  lemma TakeShape(s: State, h: History, t: OpId, n1: Node)
    requires Shape(s.next, s.prev, s.head, s.detail, h) && On(h, n1) && h.home[n1] == h.b + 1 && n1.Elem?
    ensures Shape(s.next, s.prev, n1, s.detail, Taken(h, t, n1))
  {
    assert Look(TheShape);
    LogHomes(h, Taken(h, t, n1));
  }

  lemma TakeExplained(h: History, t: OpId, n1: Node)
    requires Explained(h) && On(h, n1) && h.home[n1] == h.b + 1 && n1.Elem?
    ensures Explained(Taken(h, t, n1))
  {
    assert Look(TheLog);
    ReplaySnoc([], h.log, Entry(t, Pop, Got(n1.data)));
    ValuesFirst(h.chain, h.b + 1);
  }

  lemma Takes(s: State, trace: seq<Event>, h: History, retry: bool, t: OpId, n1: Node)
    requires Holds(s, trace, h, retry) && t in s.threads && s.threads[t] == PopCas(s.head, n1) && n1 != Null
    ensures Simulated(Goto(s, t, PopTake(n1)).(head := n1), trace + [Tau], h, retry)
  {
    var l := PopTake(n1);
    ThreadHolds(s.next, s.prev, h, s.threads, t, retry);
    HomesHold(s.next, s.prev, s.head, s.detail, h);
    Bounds(s.next, s.prev, s.head, s.detail, h);
    var h' := Taken(h, t, n1);
    TakeShape(s, h, t, n1);
    LogNodes(s, h, h', t, l);
    TakeExplained(h, t, n1);
    TrackEffect(trace, h.log, s.threads, t, l, Pop, Got(n1.data));
    SizeFits(s.size, h, s.threads);
    TallyMoves(s.size, s.size, h, h', s.threads, t, l);
    ThreadsStay(s.next, s.next, s.prev, s.prev, h, h', s.threads, t, l, retry);
    var _ := Inv(Goto(s, t, l).(head := n1), trace + [Tau], h', retry);
  }

  /** A forward link that is not null leads to the next node. */
  lemma NextIsAdjacent(s: State, h: History, n0: Node)
    requires Shape(s.next, s.prev, s.head, s.detail, h) && On(h, n0) && Of(s.next, n0) != Null
    ensures Adjacent(h, n0, Of(s.next, n0)) && Of(s.next, n0).Elem?
  {
    assert Look(TheShape);
    var i := h.home[n0];
    assert s.next[n0] == Following(h.chain, i);
    assert At(h, h.chain[i + 1], i + 1);
  }

  lemma PrevIsAdjacent(s: State, h: History, n: Node)
    requires Shape(s.next, s.prev, s.head, s.detail, h) && On(h, n) && h.home[n] > 0
    ensures Adjacent(h, Of(s.prev, n), n) && Of(s.prev, n) != Null
  {
    assert Look(TheShape);
    var i := h.home[n] - 1;
    assert Following(h.chain, i) == n;
    assert At(h, h.chain[i], i);
    assert i == 0 ==> h.chain[i] == Dummy(0);
  }

  /** One round of the repair walk: it stores the true link and moves one node back. */
  lemma WalkStep(s: State, h: History, n0: Node, top: Node, tail: Node, before: Node)
    requires Shape(s.next, s.prev, s.head, s.detail, h)
    requires Walking(s.next, h, n0, top, tail) && h.home[n0] < h.home[tail] && Adjacent(h, before, tail)
    ensures Walking(s.next[before := tail], h, n0, top, before)
  {
    HomesHold(s.next, s.prev, s.head, s.detail, h);
    StoreShape(s, h, before, tail);
    var next' := s.next[before := tail];
    forall i | h.home[before] <= i < h.home[top] && i < |h.chain|
      ensures h.chain[i] in next' && next'[h.chain[i]] == Following(h.chain, i)
    {
      assert At(h, h.chain[i], i);
      if i > h.home[before] { assert Of(s.next, h.chain[i]) == Following(h.chain, i); }
    }
  }

  // ----- Every step -----

  lemma PushStep(s: State, trace: seq<Event>, h: History, retry: bool, t: OpId, spurious: bool)
    requires Holds(s, trace, h, retry) && t in s.threads
    requires var l := s.threads[t]; l.PushTop? || l.PushPrev? || l.PushCas? || l.PushLink?
    ensures Simulated(Instr(s, t, spurious, retry), trace + [Tau], h, retry)
  {
    ThreadHolds(s.next, s.prev, h, s.threads, t, retry);
    match s.threads[t]
    case PushTop(v) =>
      Bounds(s.next, s.prev, s.head, s.detail, h);
      Quiet(s, trace, h, retry, t, PushPrev(v, s.detail), Tau);
    case PushPrev(v, hp) => SetsPrev(s, trace, h, retry, t, v, hp);
    case PushCas(v, hp) =>
      if s.detail == hp && !spurious {
        Adds(s, trace, h, retry, t, v);
      } else {
        Quiet(s, trace, h, retry, t, PushTop(v), Tau);
      }
    case PushLink(v, hp) => Stores(s, trace, h, retry, t, PushCount, hp, Elem(t, v));
  }

  lemma PopSearchStep(s: State, trace: seq<Event>, h: History, retry: bool, t: OpId, spurious: bool)
    requires Holds(s, trace, h, retry) && t in s.threads
    requires var l := s.threads[t]; l.PopTop? || l.PopDetail? || l.PopNext? || l.PopTail?
    ensures Simulated(Instr(s, t, spurious, retry), trace + [Tau], h, retry)
  {
    ThreadHolds(s.next, s.prev, h, s.threads, t, retry);
    Bounds(s.next, s.prev, s.head, s.detail, h);
    match s.threads[t]
    case PopTop => Quiet(s, trace, h, retry, t, PopDetail(s.head), Tau);
    case PopDetail(n0) =>
      if n0 == s.detail { FindsEmpty(s, trace, h, retry, t); } else { Quiet(s, trace, h, retry, t, PopNext(n0), Tau); }
    case PopNext(n0) =>
      HeadIsNode(s, h, n0);
      if Of(s.next, n0) != Null { NextIsAdjacent(s, h, n0); }
      Quiet(s, trace, h, retry, t, if Of(s.next, n0) == Null then PopTail(n0) else PopCas(n0, Of(s.next, n0)), Tau);
    case PopTail(n0) => Quiet(s, trace, h, retry, t, PopHead(n0, s.detail, s.detail), Tau);
  }

  lemma HeadIsNode(s: State, h: History, n0: Node)
    requires Shape(s.next, s.prev, s.head, s.detail, h) && On(h, n0)
    ensures n0 != Null
  {
    assert Look(TheShape);
    assert h.home[n0] == 0 ==> n0 == Dummy(0);
  }

  lemma PopWalkStep(s: State, trace: seq<Event>, h: History, retry: bool, t: OpId, spurious: bool)
    requires Holds(s, trace, h, retry) && t in s.threads
    requires var l := s.threads[t]; l.PopHead? || l.PopPrev? || l.PopStore?
    ensures Simulated(Instr(s, t, spurious, retry), trace + [Tau], h, retry)
  {
    ThreadHolds(s.next, s.prev, h, s.threads, t, retry);
    match s.threads[t]
    case PopHead(n0, top, tail) =>
      Quiet(s, trace, h, retry, t,
        if n0 == s.head && tail != n0 then PopPrev(n0, top, tail) else if retry then PopTop else PopCas(n0, Null), Tau);
    case PopPrev(n0, top, tail) =>
      PrevIsAdjacent(s, h, tail);
      Quiet(s, trace, h, retry, t, PopStore(n0, top, tail, Of(s.prev, tail)), Tau);
    case PopStore(n0, top, tail, before) =>
      HeadIsNode(s, h, before);
      WalkStep(s, h, n0, top, tail, before);
      Stores(s, trace, h, retry, t, PopHead(n0, top, before), before, tail);
  }

  lemma PopTakeStep(s: State, trace: seq<Event>, h: History, retry: bool, t: OpId, spurious: bool)
    requires Holds(s, trace, h, retry) && t in s.threads
    requires var l := s.threads[t]; l.PopCas? || l.PopTake?
    ensures Simulated(Instr(s, t, spurious, retry), trace + [Tau], h, retry) ||
      (Instr(s, t, spurious, retry).head == Null && !retry)
  {
    ThreadHolds(s.next, s.prev, h, s.threads, t, retry);
    match s.threads[t]
    case PopCas(n0, n1) =>
      if s.head == n0 && !spurious {
        if n1 != Null { Takes(s, trace, h, retry, t, n1); }
      } else {
        Quiet(s, trace, h, retry, t, PopTop, Tau);
      }
    case PopTake(n1) => Quiet(s, trace, h, retry, t, PopCount(n1.data), Tau);
  }

  lemma CountStep(s: State, trace: seq<Event>, h: History, retry: bool, t: OpId, spurious: bool)
    requires Holds(s, trace, h, retry) && t in s.threads && (s.threads[t].PushCount? || s.threads[t].PopCount?)
    ensures Simulated(Instr(s, t, spurious, retry), trace + [Tau], h, retry)
  {
    SizeFits(s.size, h, s.threads);
    if s.threads[t].PushCount? {
      Counts(s, trace, h, retry, t, Exit(Ack), Tau, Increment(s.size));
    } else {
      Counts(s, trace, h, retry, t, Exit(Got(s.threads[t].v)), Tau, Decrement(s.size));
    }
  }

  lemma StepIsSimulated(s: State, trace: seq<Event>, h: History, retry: bool, a: Action)
    requires Holds(s, trace, h, retry) && Enabled(s, a)
    ensures Simulated(Step(s, a, retry), trace + [EventOf(s, a)], h, retry) ||
      (Step(s, a, retry).head == Null && !retry)
  {
    match a
    case Start(t, op) => Starts(s, trace, h, retry, t, op);
    case Exec(t, spurious) =>
      var l := s.threads[t];
      if l.Exit? {
        Quiet(s, trace, h, retry, t, Done, Ret(t, l.res));
      } else if l.PushTop? || l.PushPrev? || l.PushCas? || l.PushLink? {
        PushStep(s, trace, h, retry, t, spurious);
      } else if l.PopTop? || l.PopDetail? || l.PopNext? || l.PopTail? {
        PopSearchStep(s, trace, h, retry, t, spurious);
      } else if l.PopHead? || l.PopPrev? || l.PopStore? {
        PopWalkStep(s, trace, h, retry, t, spurious);
      } else if l.PushCount? || l.PopCount? {
        CountStep(s, trace, h, retry, t, spurious);
      } else if l.PopCas? || l.PopTake? {
        PopTakeStep(s, trace, h, retry, t, spurious);
      }
  }

  // ----- Main results -----

  lemma InitIsSimulated(retry: bool)
    ensures Explainable(Init, [], retry)
  {
    var h := History([Dummy(0)], 0, map[Dummy(0) := 0], []);
    TrackInit();
    assert PhasesOf(Init.threads) == map[];
    assert Content(h) == [];
    BalanceAtRest(map[], Debt);
    assert Laps(0) == 0;
    var _ := Inv(Init, [], h, retry);
  }

  /** In no state along the schedule is the head null. */
  ghost predicate Intact(acts: seq<Action>, retry: bool)
    decreases |acts|
  {
    After(acts, retry).state.head != Null && (acts != [] ==> Intact(acts[..|acts| - 1], retry))
  }

  lemma {:induction false} RunIsSimulated(acts: seq<Action>, retry: bool)
    requires retry || Intact(acts, retry)
    ensures Explainable(After(acts, retry).state, After(acts, retry).trace, retry)
    decreases |acts|
  {
    if acts == [] {
      InitIsSimulated(retry);
    } else {
      var before := After(acts[..|acts| - 1], retry);
      var a := acts[|acts| - 1];
      RunIsSimulated(acts[..|acts| - 1], retry);
      if Enabled(before.state, a) {
        var h :| Inv(before.state, before.trace, h, retry);
        StepIsSimulated(before.state, before.trace, h, retry, a);
      }
    }
  }

  lemma RunIsLinearizable(acts: seq<Action>, retry: bool)
    requires retry || Intact(acts, retry)
    ensures WellFormed(After(acts, retry).trace) && Linearizable(After(acts, retry).trace)
  {
    RunIsSimulated(acts, retry);
    var r := After(acts, retry);
    var h :| Inv(r.state, r.trace, h, retry);
    TrackOrders(r.trace, h.log, PhasesOf(r.state.threads));
    assert Explains(h) by { assert Look(TheLog); }
    assert Linearization(r.trace, h.log);
  }

  /** With the retry, every run of any number of threads is linearizable. */
  lemma OptimisticqueIsLinearizable(acts: seq<Action>)
    ensures WellFormed(After(acts, true).trace) && Linearizable(After(acts, true).trace)
  {
    RunIsLinearizable(acts, true);
  }

  /** As the source has it, every run is linearizable as long as no pop puts null into the
      head. */
  lemma LinearizableWhileIntact(acts: seq<Action>)
    requires Intact(acts, false)
    ensures WellFormed(After(acts, false).trace) && Linearizable(After(acts, false).trace)
  {
    RunIsLinearizable(acts, false);
  }

  /** No operation is between its effect and its change of the counter. */
  ghost predicate AtRest(threads: map<OpId, Local>) {
    forall t :: t in threads ==> Debt(threads[t]) == 0
  }

  lemma ContentLength(s: State, h: History)
    requires Shape(s.next, s.prev, s.head, s.detail, h)
    ensures |Content(h)| == Length(h)
  {
    assert Look(TheShape);
    ValuesLength(h.chain[h.b + 1..]);
  }

  lemma RestedSize(s: State, h: History)
    requires Shape(s.next, s.prev, s.head, s.detail, h) && Tally(s.size, h, s.threads) && Explained(h)
    requires AtRest(s.threads)
    ensures s.size == |Replay([], h.log)| % WORD
  {
    ContentLength(s, h);
    BalanceAtRest(s.threads, Debt);
    assert Explains(h) by { assert Look(TheLog); }
    assert Tallied(s.size, h, s.threads) by { assert Look(TheTally); }
    Settles(s.size, |Content(h)|);
  }

  /** size() is exact, modulo 32 bits, whenever no operation is between its effect and its
      counting. */
  lemma SizeIsExactAtRest(acts: seq<Action>, retry: bool)
    requires (retry || Intact(acts, retry)) && AtRest(After(acts, retry).state.threads)
    ensures var r := After(acts, retry);
      exists log :: Linearization(r.trace, log) && r.state.size == |Replay([], log)| % WORD
  {
    RunIsSimulated(acts, retry);
    var r := After(acts, retry);
    var h :| Inv(r.state, r.trace, h, retry);
    RestedSize(r.state, h);
    TrackOrders(r.trace, h.log, PhasesOf(r.state.threads));
    assert Explains(h) by { assert Look(TheLog); }
  }
}
