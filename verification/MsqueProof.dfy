/** msque is linearizable under any interleaving of pushes, pops and clears. */
module MsqueProof {
  import opened Linearizability
  import opened NodeChains
  import opened Counting
  import opened Msque

  /** The history of one list: every node ever linked into it, the positions of its two
      pointers, and the operations that took effect on it. */
  datatype Gen = Gen(chain: seq<Node>, b: nat, e: nat, log: seq<Entry>)

  datatype Place = Place(g: nat, i: nat)

  /** The generations, where each linked node lies, and the logs of the generations put
      one after the other. */
  datatype History = History(gens: seq<Gen>, home: map<Node, Place>, log: seq<Entry>)

  function PhaseOf(l: Local): Phase {
    match l
    case PushTop(v) => Pending(Push(v))
    case PushList(v, _) => Pending(Push(v))
    case PushEnd(v, _, _) => Pending(Push(v))
    case PushHelp(v, _, _, _) => Pending(Push(v))
    case PushAgain(v, _, _) => Pending(Push(v))
    case PushLink(v, _, _) => Pending(Push(v))
    case PushSwing(_, _, _) => Effected(Ack)
    case PushCount(_) => Effected(Ack)
    case PopTop => Pending(Pop)
    case PopList(_) => Pending(Pop)
    case PopBegin(_, _) => Pending(Pop)
    case PopAgain(_, _, _) => Pending(Pop)
    case PopCas(_, _, _) => Pending(Pop)
    case PopTake(_, n1) => if n1.Elem? then Effected(Got(n1.data)) else Effected(Empty)
    case PopCount(_, v) => Effected(Got(v))
    case ClearTop => Pending(Clear)
    case Exit(res) => Effected(res)
    case Done => Over
  }

  function PhasesOf(threads: map<OpId, Local>): Phases {
    map t | t in threads :: PhaseOf(threads[t])
  }

  // ----- The log of a history: the generations one after the other -----

  ghost function FullLog(gens: seq<Gen>): seq<Entry>
    decreases |gens|
  {
    if gens == [] then [] else FullLog(gens[..|gens| - 1]) + gens[|gens| - 1].log
  }

  /** The elements of a generation: the nodes after its begin pointer. */
  function Content(gen: Gen): seq<Value> {
    if gen.b < |gen.chain| then Values(gen.chain[gen.b + 1..]) else []
  }

  // ----- The invariant -----

  predicate At(h: History, n: Node, g: nat, i: nat) {
    n in h.home && h.home[n] == Place(g, i)
  }

  /** The nodes of a list form one chain; end is its last or second-to-last node; begin is
      at most one node past end. */
  ghost predicate Chained(next: map<Node, Node>, list: List, gen: Gen, g: nat) {
    && gen.b < |gen.chain| && gen.e < |gen.chain|
    && |gen.chain| <= gen.e + 2
    && gen.b <= gen.e + 1
    && gen.chain[0] == Dummy(g)
    && gen.chain[gen.b] == list.begin && gen.chain[gen.e] == list.end
    && (forall i :: 0 < i < |gen.chain| ==> gen.chain[i].Elem?)
    && (forall i :: 0 <= i < |gen.chain| ==> gen.chain[i] in next)
    && (forall i {:trigger Following(gen.chain, i)} ::
        0 <= i < |gen.chain| ==> next[gen.chain[i]] == Following(gen.chain, i))
  }

  ghost predicate Logged(gen: Gen, g: nat) {
    && Legal([], gen.log)
    && Replay([], gen.log) == Content(gen)
    && (g > 0 ==> gen.log != [] && gen.log[0].op == Clear)
  }

  ghost predicate Homes(h: History) {
    forall g, i {:trigger At(h, h.gens[g].chain[i], g, i)} ::
      0 <= g < |h.gens| && 0 <= i < |h.gens[g].chain| ==> At(h, h.gens[g].chain[i], g, i)
  }

  /** Generation g was current after t was called: nothing logged later was over by then. */
  ghost predicate Current(trace: seq<Event>, h: History, t: OpId, g: nat) {
    g < |h.gens| &&
    forall k, x :: g < k < |h.gens| && x in h.gens[k].log ==> !Precedes(trace, x.t, t)
  }

  /** The node of a push that is not linked yet. */
  predicate Private(next: map<Node, Node>, h: History, t: OpId, v: Value) {
    var n := Elem(t, v);
    n in next && next[n] == Null && n !in h.home
  }

  /** n is a node of the chain of generation g. */
  predicate Linked(h: History, g: nat, n: Node) {
    n in h.home && h.home[n].g == g && g < |h.gens| &&
    h.home[n].i < |h.gens[g].chain| && h.gens[g].chain[h.home[n].i] == n
  }

  /** hp was the end node of generation g at some moment. */
  predicate WasEnd(h: History, g: nat, hp: Node) {
    Linked(h, g, hp) && h.home[hp].i <= h.gens[g].e
  }

  /** n0 was the begin node of generation g at some moment. */
  predicate WasBegin(h: History, g: nat, n0: Node) {
    Linked(h, g, n0) && h.home[n0].i <= h.gens[g].b
  }

  predicate Successor(h: History, g: nat, n0: Node, n1: Node) {
    Linked(h, g, n0) && Linked(h, g, n1) && h.home[n1].i == h.home[n0].i + 1
  }

  ghost predicate Thread(next: map<Node, Node>, trace: seq<Event>, h: History, t: OpId, l: Local) {
    match l
    case PushTop(v) => Private(next, h, t, v)
    case PushList(v, g) => Private(next, h, t, v) && Current(trace, h, t, g)
    case PushEnd(v, g, hp) => Private(next, h, t, v) && Current(trace, h, t, g) && WasEnd(h, g, hp)
    case PushHelp(v, g, hp, n) =>
      Private(next, h, t, v) && Current(trace, h, t, g) && WasEnd(h, g, hp) && Successor(h, g, hp, n)
    case PushAgain(v, g, hp) => Private(next, h, t, v) && Current(trace, h, t, g) && WasEnd(h, g, hp)
    case PushLink(v, g, hp) => Private(next, h, t, v) && Current(trace, h, t, g) && WasEnd(h, g, hp)
    case PushSwing(v, g, hp) => WasEnd(h, g, hp) && Successor(h, g, hp, Elem(t, v))
    case PushCount(g) => g < |h.gens|
    case PopTop => true
    case PopList(g) => Current(trace, h, t, g)
    case PopBegin(g, n0) => Current(trace, h, t, g) && WasBegin(h, g, n0)
    case PopAgain(g, n0, n1) => Current(trace, h, t, g) && WasBegin(h, g, n0) && Successor(h, g, n0, n1)
    case PopCas(g, n0, n1) => Current(trace, h, t, g) && WasBegin(h, g, n0) && Successor(h, g, n0, n1)
    case PopTake(g, n1) => g < |h.gens| && n1.Elem?
    case PopCount(g, v) => g < |h.gens|
    case ClearTop => true
    case Exit(_) => true
    case Done => true
  }

  /** Operation t would be fine at l. */
  ghost predicate Fits(next: map<Node, Node>, trace: seq<Event>, h: History, t: OpId, l: Local) {
    forall u :: u == t ==> Thread(next, trace, h, u, l)
  }

  ghost predicate Threads(next: map<Node, Node>, trace: seq<Event>, h: History, threads: map<OpId, Local>) {
    forall t {:trigger Thread(next, trace, h, t, threads[t])} :: t in threads ==> Thread(next, trace, h, t, threads[t])
  }

  ghost predicate Shape(next: map<Node, Node>, lists: seq<List>, h: History) {
    && |h.gens| == |lists|
    && Homes(h)
    && (forall g :: 0 <= g < |lists| ==> Chained(next, lists[g], h.gens[g], g))
  }

  ghost predicate Logs(h: History) {
    forall k {:trigger Inside(k)} :: Inside(k) ==> AllLogged(h)
  }

  ghost predicate AllLogged(h: History) {
    && h.log == FullLog(h.gens)
    && forall g :: 0 <= g < |h.gens| ==> Logged(h.gens[g], g)
  }

  /** Nodes are allocated by calls, dummies with their list. */
  ghost predicate Allocated(s: State, h: History) {
    && |s.lists| == s.cur + 1
    && (forall n :: n in s.next && n.Elem? ==> n.t in s.threads)
    && (forall n :: n in s.next && n.Dummy? ==> n.k < |s.lists|)
    && (forall n :: n in h.home ==> n in s.next)
  }

  /** What an operation has yet to do to the counter of a list. */
  datatype Debt = NoDebt | Plus(g: nat) | Minus(g: nat)

  function DebtOf(l: Local): Debt {
    match l
    case PushSwing(_, g, _) => Plus(g)
    case PushCount(g) => Plus(g)
    case PopTake(g, _) => Minus(g)
    case PopCount(g, _) => Minus(g)
    case _ => NoDebt
  }

  function Owing(threads: map<OpId, Local>, d: Debt): set<OpId> {
    set t | t in threads && DebtOf(threads[t]) == d
  }

  function Length(gen: Gen): int { |gen.chain| - 1 - gen.b }

  /** The counter is the length of the list, up to the pushes linked and not yet counted
      and the pops taken and not yet counted. */
  ghost predicate Even(list: List, gen: Gen, threads: map<OpId, Local>, g: nat) {
    list.size < WORD &&
    Agree(list.size + |Owing(threads, Plus(g))|, Length(gen) + |Owing(threads, Minus(g))|)
  }

  ghost predicate Balanced(lists: seq<List>, gens: seq<Gen>, threads: map<OpId, Local>) {
    forall k {:trigger Inside(k)} :: Inside(k) ==> AllEven(lists, gens, threads)
  }

  ghost predicate AllEven(lists: seq<List>, gens: seq<Gen>, threads: map<OpId, Local>) {
    && |lists| == |gens|
    && (forall g {:trigger Even(lists[g], gens[g], threads, g)} ::
        0 <= g < |lists| ==> Even(lists[g], gens[g], threads, g))
    && (forall t :: t in threads && DebtOf(threads[t]) != NoDebt ==> DebtOf(threads[t]).g < |lists|)
  }

  ghost predicate Inv(s: State, trace: seq<Event>, h: History) {
    && Allocated(s, h)
    && Shape(s.next, s.lists, h)
    && Logs(h)
    && Track(trace, h.log, PhasesOf(s.threads))
    && Threads(s.next, trace, h, s.threads)
    && Balanced(s.lists, h.gens, s.threads)
  }

  /** The same, not taken apart at every use. */
  ghost predicate Holds(s: State, trace: seq<Event>, h: History) {
    exists h' :: h' == h && Inv(s, trace, h')
  }

  /** Some history explains the state and the trace. */
  ghost predicate Simulated(s: State, trace: seq<Event>) {
    exists h :: Inv(s, trace, h)
  }

  // ----- Lemmas about logs -----

  lemma {:induction false} FullLogUpdate(gens: seq<Gen>, g: nat, gen: Gen, x: Entry)
    requires g < |gens| && gen.log == gens[g].log + [x]
    ensures var p := |FullLog(gens[..g + 1])|;
      && p <= |FullLog(gens)|
      && FullLog(gens[g := gen]) == FullLog(gens)[..p] + [x] + FullLog(gens)[p..]
      && (forall i :: p <= i < |FullLog(gens)| ==> exists k :: g < k < |gens| && FullLog(gens)[i] in gens[k].log)
    decreases |gens|
  {
    var n := |gens| - 1;
    var gens' := gens[g := gen];
    if g == n {
      assert gens'[..n] == gens[..n];
      assert gens[..g + 1] == gens;
    } else {
      FullLogUpdate(gens[..n], g, gen, x);
      assert gens'[..n] == gens[..n][g := gen];
      assert gens[..n][..g + 1] == gens[..g + 1];
      var p := |FullLog(gens[..g + 1])|;
      var older, full := FullLog(gens[..n]), FullLog(gens);
      assert full == older + gens[n].log;
      assert full[..p] == older[..p] && full[p..] == older[p..] + gens[n].log;
      forall i | p <= i < |full| ensures exists k :: g < k < |gens| && full[i] in gens[k].log {
        if i < |older| {
          var k :| g < k < n && older[i] in gens[..n][k].log;
          assert full[i] in gens[k].log;
        } else {
          assert full[i] == gens[n].log[i - |older|];
        }
      }
    }
  }

  /** The whole log is legal, and leaves the content of the last generation. */
  lemma {:induction false} FullLogLegal(gens: seq<Gen>)
    requires forall g :: 0 <= g < |gens| ==> Logged(gens[g], g)
    ensures Legal([], FullLog(gens))
    ensures gens != [] ==> Replay([], FullLog(gens)) == Content(gens[|gens| - 1])
    decreases |gens|
  {
    if gens != [] {
      var n := |gens| - 1;
      forall g | 0 <= g < n ensures Logged(gens[..n][g], g) {
        assert Logged(gens[g], g);
      }
      FullLogLegal(gens[..n]);
      assert Logged(gens[n], n);
      ReplayConcat([], FullLog(gens[..n]), gens[n].log);
    }
  }

  lemma ContentGrows(gen: Gen, gen': Gen, n: Node)
    requires gen.b < |gen.chain| && n.Elem? && gen'.b == gen.b && gen'.chain == gen.chain + [n]
    ensures Content(gen') == Content(gen) + [n.data]
  {
    ValuesLast(gen.chain, gen.b + 1, n);
  }

  lemma ContentShrinks(gen: Gen, gen': Gen, n: Node)
    requires gen.b + 1 < |gen.chain| && gen.chain[gen.b + 1] == n && n.Elem? && gen'.b == gen.b + 1
    requires gen'.chain == gen.chain
    ensures Content(gen) == [n.data] + Content(gen')
  {
    ValuesFirst(gen.chain, gen.b + 1);
  }

  // ----- Interference: what a step of t may change, and what other operations keep -----

  ghost predicate Grows(h: History, h': History, t: OpId) {
    && |h.gens| <= |h'.gens|
    && (forall g :: 0 <= g < |h.gens| ==>
          h.gens[g].b <= h'.gens[g].b && h.gens[g].e <= h'.gens[g].e && h.gens[g].chain <= h'.gens[g].chain)
    && (forall n :: n in h.home ==> n in h'.home && h'.home[n] == h.home[n])
    && (forall n :: n in h'.home ==> n in h.home || n.Dummy? || (n.Elem? && n.t == t))
    && (forall k, x :: 0 <= k < |h'.gens| && x in h'.gens[k].log ==> (k < |h.gens| && x in h.gens[k].log) || x.t == t)
  }

  ghost predicate HeapGrows(next: map<Node, Node>, next': map<Node, Node>, h: History) {
    forall n :: n in next ==> n in next' && (next'[n] == next[n] || n in h.home)
  }

  lemma CurrentStable(trace: seq<Event>, x: Event, h: History, h': History, t: OpId, u: OpId, g: nat)
    requires Grows(h, h', t) && (x.Call? || x.Ret? ==> x.t == t) && (h' == h || (x == Tau && !Returned(trace, t)))
    requires u != t && Current(trace, h, u, g)
    ensures Current(trace + [x], h', u, g)
  {}

  lemma ThreadStable(next: map<Node, Node>, next': map<Node, Node>, trace: seq<Event>, x: Event,
                     h: History, h': History, t: OpId, u: OpId, l: Local)
    requires Grows(h, h', t) && (x.Call? || x.Ret? ==> x.t == t) && (h' == h || (x == Tau && !Returned(trace, t)))
    requires HeapGrows(next, next', h) && u != t && Thread(next, trace, h, u, l)
    ensures Thread(next', trace + [x], h', u, l)
  {
    forall g | Current(trace, h, u, g) ensures Current(trace + [x], h', u, g) {
      CurrentStable(trace, x, h, h', t, u, g);
    }
  }

  lemma ThreadsStable(next: map<Node, Node>, next': map<Node, Node>, trace: seq<Event>, x: Event,
                      h: History, h': History, threads: map<OpId, Local>, t: OpId, l: Local)
    requires Threads(next, trace, h, threads)
    requires Grows(h, h', t) && (x.Call? || x.Ret? ==> x.t == t) && (h' == h || (x == Tau && !Returned(trace, t)))
    requires HeapGrows(next, next', h) && Fits(next', trace + [x], h', t, l)
    ensures Threads(next', trace + [x], h', threads[t := l])
  {
    forall u | u in threads && u != t ensures Thread(next', trace + [x], h', u, threads[u]) {
      ThreadHolds(next, trace, h, threads, u);
      ThreadStable(next, next', trace, x, h, h', t, u, threads[u]);
    }
  }

  lemma ThreadHolds(next: map<Node, Node>, trace: seq<Event>, h: History, threads: map<OpId, Local>, t: OpId)
    requires Threads(next, trace, h, threads) && t in threads
    ensures Thread(next, trace, h, t, threads[t])
  {}

  lemma PhasesUpdate(threads: map<OpId, Local>, t: OpId, l: Local)
    ensures PhasesOf(threads[t := l]) == PhasesOf(threads)[t := PhaseOf(l)]
    ensures t in threads && PhaseOf(l) == PhaseOf(threads[t]) ==> PhasesOf(threads[t := l]) == PhasesOf(threads)
  {}

  /** An operation that has not taken effect has not returned. */
  lemma PendingNotReturned(trace: seq<Event>, log: seq<Entry>, m: Phases, t: OpId)
    requires Track(trace, log, m) && t in m && !m[t].Over?
    ensures !Returned(trace, t)
  {
    assert Inside(0);
    assert Tracks(trace, log, t, PhaseIn(m, t));
  }

  /** A call, a return or an internal step moves t on; nothing takes effect. */
  lemma TrackNext(trace: seq<Event>, x: Event, log: seq<Entry>, threads: map<OpId, Local>, t: OpId, l: Local)
    requires Track(trace, log, PhasesOf(threads))
    requires match x
      case Call(u, op) => u == t && t !in threads && PhaseOf(l) == Pending(op)
      case Ret(u, res) => u == t && t in threads && PhaseOf(threads[t]) == Effected(res) && PhaseOf(l) == Over
      case Tau => t in threads && PhaseOf(l) == PhaseOf(threads[t])
    ensures Track(trace + [x], log, PhasesOf(threads[t := l]))
  {
    PhasesUpdate(threads, t, l);
    TrackEvent(trace, x, log, PhasesOf(threads), PhasesOf(threads[t := l]), t, PhaseOf(l));
  }

  // ----- The counters -----

  /** 1 when a thread at l owes d, else 0. */
  function Owes(l: Local, d: Debt): int { if DebtOf(l) == d then 1 else 0 }

  lemma OwingUpdate(threads: map<OpId, Local>, t: OpId, l: Local, d: Debt)
    ensures |Owing(threads[t := l], d)| ==
      |Owing(threads, d)| + Owes(l, d) - (if t in threads then Owes(threads[t], d) else 0)
  {
    var before, after := Owing(threads, d), Owing(threads[t := l], d);
    assert after == if DebtOf(l) == d then before + {t} else before - {t};
  }

  function DebtIn(threads: map<OpId, Local>, t: OpId): Debt {
    if t in threads then DebtOf(threads[t]) else NoDebt
  }

  lemma EvenStill(list: List, list': List, gen: Gen, gen': Gen, threads: map<OpId, Local>, t: OpId, l: Local, g: nat)
    requires Even(list, gen, threads, g) && list'.size < WORD
    requires var before, now := DebtIn(threads, t), DebtOf(l);
      Together(list'.size - list.size - Length(gen') + Length(gen) + OwesTo(now, g) - OwesTo(before, g))
    ensures Even(list', gen', threads[t := l], g)
  {
    OwingUpdate(threads, t, l, Plus(g));
    OwingUpdate(threads, t, l, Minus(g));
    AgreeStill(list.size + |Owing(threads, Plus(g))|, Length(gen) + |Owing(threads, Minus(g))|,
      list'.size + |Owing(threads[t := l], Plus(g))|, Length(gen') + |Owing(threads[t := l], Minus(g))|);
  }

  /** What is still to be added to the counter of list g. */
  function OwesTo(d: Debt, g: nat): int {
    if d == Plus(g) then 1 else if d == Minus(g) then -1 else 0
  }

  /** A step of t that changes no counter, no length and no debt. */
  lemma BalanceSame(lists: seq<List>, lists': seq<List>, gens: seq<Gen>, gens': seq<Gen>, threads: map<OpId, Local>,
                    t: OpId, l: Local)
    requires Balanced(lists, gens, threads) && |lists'| == |lists| && |gens'| == |gens|
    requires forall g :: 0 <= g < |lists| && g < |lists'| ==> lists'[g].size == lists[g].size
    requires forall g :: 0 <= g < |gens| && g < |gens'| ==> Length(gens'[g]) == Length(gens[g])
    requires DebtOf(l) == DebtIn(threads, t)
    ensures Balanced(lists', gens', threads[t := l])
  {
    assert Inside(0);
    forall g | 0 <= g < |lists| ensures Even(lists'[g], gens'[g], threads[t := l], g) {
      EvenStill(lists[g], lists'[g], gens[g], gens'[g], threads, t, l, g);
    }
  }

  /** Length and debt change together: a push links its node, a pop takes one. */
  lemma BalanceEffect(lists: seq<List>, lists': seq<List>, gens: seq<Gen>, g: nat, gen: Gen, threads: map<OpId, Local>,
                      t: OpId, l: Local)
    requires Balanced(lists, gens, threads) && |lists'| == |lists| && g < |gens| && DebtIn(threads, t) == NoDebt
    requires forall k :: 0 <= k < |lists| && k < |lists'| ==> lists'[k].size == lists[k].size
    requires || (DebtOf(l) == Plus(g) && Length(gen) == Length(gens[g]) + 1)
             || (DebtOf(l) == Minus(g) && Length(gen) == Length(gens[g]) - 1)
    ensures Balanced(lists', gens[g := gen], threads[t := l])
  {
    assert Inside(0);
    forall k | 0 <= k < |lists| ensures Even(lists'[k], gens[g := gen][k], threads[t := l], k) {
      EvenStill(lists[k], lists'[k], gens[k], gens[g := gen][k], threads, t, l, k);
    }
  }

  /** A debt is paid to the counter. */
  lemma BalanceCount(lists: seq<List>, gens: seq<Gen>, g: nat, size: nat, threads: map<OpId, Local>, t: OpId, l: Local)
    requires Balanced(lists, gens, threads) && g < |lists| && DebtOf(l) == NoDebt
    requires || (DebtIn(threads, t) == Plus(g) && size == Increment(lists[g].size))
             || (DebtIn(threads, t) == Minus(g) && size == Decrement(lists[g].size))
    ensures Balanced(lists[g := lists[g].(size := size)], gens, threads[t := l])
  {
    assert Inside(0);
    forall k | 0 <= k < |lists| ensures Even(lists[g := lists[g].(size := size)][k], gens[k], threads[t := l], k) {
      EvenStill(lists[k], lists[g := lists[g].(size := size)][k], gens[k], gens[k], threads, t, l, k);
    }
  }

  /** A fresh list is empty, and nobody owes it anything. */
  lemma BalanceClear(lists: seq<List>, d: Node, gens: seq<Gen>, gen: Gen, threads: map<OpId, Local>, t: OpId)
    requires Balanced(lists, gens, threads) && |gen.chain| == 1 && gen.b == 0 && t in threads && threads[t] == ClearTop
    ensures Balanced(lists + [List(d, d, 0)], gens + [gen], threads[t := Exit(Ack)])
  {
    assert Inside(0);
    var lists', gens', threads' := lists + [List(d, d, 0)], gens + [gen], threads[t := Exit(Ack)];
    forall g | 0 <= g < |lists'| ensures Even(lists'[g], gens'[g], threads', g) {
      if g < |lists| {
        EvenStill(lists[g], lists'[g], gens[g], gens'[g], threads, t, Exit(Ack), g);
      } else {
        assert Owing(threads', Plus(g)) == {} && Owing(threads', Minus(g)) == {};
        assert Laps(0) == 0;
      }
    }
  }

  // ----- Steps without effect on the shared state -----

  lemma Starts(s: State, trace: seq<Event>, h: History, t: OpId, op: Op)
    requires Holds(s, trace, h) && t !in s.threads
    ensures Simulated(Begin(s, t, op), trace + [Call(t, op)])
  {
    var s' := Begin(s, t, op);
    TrackNext(trace, Call(t, op), h.log, s.threads, t, s'.threads[t]);
    assert Shape(s'.next, s.lists, h) by { ShapeAllocates(s.next, s'.next, s.lists, h); }
    ThreadsStable(s.next, s'.next, trace, Call(t, op), h, h, s.threads, t, s'.threads[t]);
    BalanceSame(s.lists, s.lists, h.gens, h.gens, s.threads, t, s'.threads[t]);
    var _ := Inv(Begin(s, t, op), trace + [Call(t, op)], h);
  }

  lemma ShapeAllocates(next: map<Node, Node>, next': map<Node, Node>, lists: seq<List>, h: History)
    requires Shape(next, lists, h)
    requires forall n :: n in next ==> n in next' && next'[n] == next[n]
    ensures Shape(next', lists, h)
  {}

  lemma Returns(s: State, trace: seq<Event>, h: History, t: OpId)
    requires Holds(s, trace, h) && t in s.threads && s.threads[t].Exit?
    ensures Simulated(Goto(s, t, Done), trace + [Ret(t, s.threads[t].res)])
  {
    TrackNext(trace, Ret(t, s.threads[t].res), h.log, s.threads, t, Done);
    ThreadsStable(s.next, s.next, trace, Ret(t, s.threads[t].res), h, h, s.threads, t, Done);
    BalanceSame(s.lists, s.lists, h.gens, h.gens, s.threads, t, Done);
    var _ := Inv(Goto(s, t, Done), trace + [Ret(t, s.threads[t].res)], h);
  }

  /** A step that only moves t on. */
  lemma Quiet(s: State, trace: seq<Event>, h: History, t: OpId, l: Local)
    requires Holds(s, trace, h) && t in s.threads && PhaseOf(l) == PhaseOf(s.threads[t])
    requires DebtOf(l) == DebtOf(s.threads[t])
    requires Fits(s.next, trace + [Tau], h, t, l)
    ensures Simulated(Goto(s, t, l), trace + [Tau])
  {
    TrackNext(trace, Tau, h.log, s.threads, t, l);
    ThreadsStable(s.next, s.next, trace, Tau, h, h, s.threads, t, l);
    BalanceSame(s.lists, s.lists, h.gens, h.gens, s.threads, t, l);
    var _ := Inv(Goto(s, t, l), trace + [Tau], h);
  }

  /** A change of a counter. */
  lemma Counts(s: State, trace: seq<Event>, h: History, t: OpId, g: nat, size: nat, l: Local)
    requires Holds(s, trace, h) && t in s.threads && PhaseOf(l) == PhaseOf(s.threads[t]) && g < |s.lists|
    requires Fits(s.next, trace + [Tau], h, t, l)
    requires DebtOf(l) == NoDebt
    requires || (DebtOf(s.threads[t]) == Plus(g) && size == Increment(s.lists[g].size))
             || (DebtOf(s.threads[t]) == Minus(g) && size == Decrement(s.lists[g].size))
    ensures Simulated(Goto(SetList(s, g, s.lists[g].(size := size)), t, l), trace + [Tau])
  {
    TrackNext(trace, Tau, h.log, s.threads, t, l);
    ThreadsStable(s.next, s.next, trace, Tau, h, h, s.threads, t, l);
    BalanceCount(s.lists, h.gens, g, size, s.threads, t, l);
    CountsShape(s.next, s.lists, h, g, size);
    var _ := Inv(Goto(SetList(s, g, s.lists[g].(size := size)), t, l), trace + [Tau], h);
  }

  lemma CountsShape(next: map<Node, Node>, lists: seq<List>, h: History, g: nat, size: nat)
    requires Shape(next, lists, h) && g < |lists|
    ensures Shape(next, lists[g := lists[g].(size := size)], h)
  {}

  // ----- The tail pointer moves on -----

  lemma {:induction false} FullLogSame(gens: seq<Gen>, gens': seq<Gen>)
    requires |gens| == |gens'| && forall g :: 0 <= g < |gens| ==> gens[g].log == gens'[g].log
    ensures FullLog(gens) == FullLog(gens')
    decreases |gens|
  {
    if gens != [] { FullLogSame(gens[..|gens| - 1], gens'[..|gens'| - 1]); }
  }

  function Advanced(h: History, g: nat): History
    requires g < |h.gens|
  {
    h.(gens := h.gens[g := h.gens[g].(e := h.gens[g].e + 1)])
  }

  lemma TailMoves(s: State, trace: seq<Event>, h: History, t: OpId, g: nat, n: Node, l: Local)
    requires Holds(s, trace, h) && t in s.threads && PhaseOf(l) == PhaseOf(s.threads[t])
    requires DebtOf(l) == DebtOf(s.threads[t]) && g < |s.lists|
    requires Linked(h, g, n) && h.home[n].i == h.gens[g].e + 1 && !PhaseOf(l).Over?
    requires Fits(s.next, trace + [Tau], Advanced(h, g), t, l)
    ensures Simulated(Goto(SetList(s, g, s.lists[g].(end := n)), t, l), trace + [Tau])
  {
    TrackNext(trace, Tau, h.log, s.threads, t, l);
    TailMovesShape(s.next, s.lists, h, g, n);
    TailMovesLogs(h, g);
    BalanceSame(s.lists, s.lists[g := s.lists[g].(end := n)], h.gens, Advanced(h, g).gens, s.threads, t, l);
    TailMovesThreads(s.next, trace, h, s.threads, t, g, l);
    var _ := Inv(Goto(SetList(s, g, s.lists[g].(end := n)), t, l), trace + [Tau], Advanced(h, g));
  }

  lemma TailMovesThreads(next: map<Node, Node>, trace: seq<Event>, h: History, threads: map<OpId, Local>, t: OpId,
                         g: nat, l: Local)
    requires Threads(next, trace, h, threads) && Track(trace, h.log, PhasesOf(threads))
    requires t in threads && !PhaseOf(threads[t]).Over? && g < |h.gens|
    requires Fits(next, trace + [Tau], Advanced(h, g), t, l)
    ensures Threads(next, trace + [Tau], Advanced(h, g), threads[t := l])
  {
    PendingNotReturned(trace, h.log, PhasesOf(threads), t);
    ThreadsStable(next, next, trace, Tau, h, Advanced(h, g), threads, t, l);
  }

  lemma TailMovesShape(next: map<Node, Node>, lists: seq<List>, h: History, g: nat, n: Node)
    requires Shape(next, lists, h) && g < |lists| && Linked(h, g, n) && h.home[n].i == h.gens[g].e + 1
    ensures Shape(next, lists[g := lists[g].(end := n)], Advanced(h, g))
  {
    HomesSame(h, Advanced(h, g));
    forall k | 0 <= k < |lists| ensures Chained(next, lists[g := lists[g].(end := n)][k], Advanced(h, g).gens[k], k) {
      assert Chained(next, lists[k], h.gens[k], k);
    }
  }

  lemma TailMovesLogs(h: History, g: nat)
    requires Logs(h) && g < |h.gens|
    ensures Logs(Advanced(h, g))
  {
    var gens' := Advanced(h, g).gens;
    FullLogSame(h.gens, gens');
    hide FullLog, Legal, Replay;
    forall k | 0 <= k < |h.gens| && Logged(h.gens[k], k) ensures Logged(gens'[k], k) {}
    assert Inside(0);
  }

  // ----- An operation takes effect -----

  /** Operation x.t takes effect on generation g. */
  lemma TakesEffect(trace: seq<Event>, h: History, h': History, m: Phases, m': Phases, g: nat, x: Entry)
    requires Logs(h) && Track(trace, h.log, m)
    requires x.t in m && m[x.t] == Pending(x.op) && m' == m[x.t := Effected(x.res)]
    requires Current(trace, h, x.t, g)
    requires |h'.gens| == |h.gens| && h'.gens == h.gens[g := h'.gens[g]] && h'.gens[g].log == h.gens[g].log + [x]
    requires h'.log == FullLog(h'.gens)
    requires Effect(Content(h.gens[g]), x.op) == (Content(h'.gens[g]), x.res)
    ensures Logs(h') && Track(trace + [Tau], h'.log, m')
  {
    assert Inside(0);
    ReplaySnoc([], h.gens[g].log, x);
    assert Logged(h.gens[g], g);
    forall k | 0 <= k < |h'.gens| ensures Logged(h'.gens[k], k) {
      assert Logged(h.gens[k], k);
    }
    FullLogUpdate(h.gens, g, h'.gens[g], x);
    TrackInsert(trace, h.log, h'.log, m, m', |FullLog(h.gens[..g + 1])|, x);
    TrackTau(trace, h'.log, m');
  }

  // ----- A push takes effect: the node is linked -----

  ghost function WithGen(h: History, g: nat, gen: Gen): History
    requires g < |h.gens|
  {
    var gens := h.gens[g := gen];
    h.(gens := gens, log := FullLog(gens))
  }

  ghost function Appended(h: History, g: nat, t: OpId, v: Value): History
    requires g < |h.gens|
  {
    var gen := h.gens[g];
    WithGen(h, g, gen.(chain := gen.chain + [Elem(t, v)], log := gen.log + [Entry(t, Push(v), Ack)]))
      .(home := h.home[Elem(t, v) := Place(g, |gen.chain|)])
  }

  lemma HomesSame(h: History, h': History)
    requires Homes(h) && h'.home == h.home && |h'.gens| == |h.gens|
    requires forall g :: 0 <= g < |h.gens| ==> h'.gens[g].chain == h.gens[g].chain
    ensures Homes(h')
  {
    forall g, i | 0 <= g < |h'.gens| && 0 <= i < |h'.gens[g].chain| ensures At(h', h'.gens[g].chain[i], g, i) {
      assert At(h, h.gens[g].chain[i], g, i);
    }
  }

  lemma NoNextMeansLast(next: map<Node, Node>, lists: seq<List>, h: History, g: nat, n: Node)
    requires Shape(next, lists, h) && g < |lists| && Linked(h, g, n) && n in next && next[n] == Null
    ensures h.home[n].i == |h.gens[g].chain| - 1
  {
    var gen, i := h.gens[g], h.home[n].i;
    assert Chained(next, lists[g], gen, g);
    assert next[n] == Following(gen.chain, i);
  }

  lemma LinkShape(next: map<Node, Node>, lists: seq<List>, h: History, g: nat, t: OpId, v: Value, hp: Node)
    requires Shape(next, lists, h) && g < |lists| && Private(next, h, t, v)
    requires WasEnd(h, g, hp) && hp in next && next[hp] == Null
    ensures h.home[hp].i == h.gens[g].e == |h.gens[g].chain| - 1
    ensures Shape(next[hp := Elem(t, v)], lists, Appended(h, g, t, v))
  {
    var h', next' := Appended(h, g, t, v), next[hp := Elem(t, v)];
    var gen := h.gens[g];
    assert Chained(next, lists[g], gen, g);
    NoNextMeansLast(next, lists, h, g, hp);
    forall k | 0 <= k < |lists| ensures Chained(next', lists[k], h'.gens[k], k) {
      assert Chained(next, lists[k], h.gens[k], k);
      forall i | 0 <= i < |h'.gens[k].chain| ensures next'[h'.gens[k].chain[i]] == Following(h'.gens[k].chain, i) {
        assert i < |h.gens[k].chain| ==> next[h.gens[k].chain[i]] == Following(h.gens[k].chain, i);
        assert i < |h.gens[k].chain| ==> At(h, h.gens[k].chain[i], k, i);
      }
      forall i | 0 <= i < |h.gens[k].chain|
        ensures h.gens[k].chain[i] != Elem(t, v) && (h.gens[k].chain[i] == hp ==> k == g && i == |gen.chain| - 1)
      {
        assert At(h, h.gens[k].chain[i], k, i);
      }
    }
    forall k, i | 0 <= k < |h'.gens| && 0 <= i < |h'.gens[k].chain| ensures At(h', h'.gens[k].chain[i], k, i) {
      if i < |h.gens[k].chain| { assert At(h, h.gens[k].chain[i], k, i); }
    }
  }

  lemma LinkLogs(trace: seq<Event>, h: History, threads: map<OpId, Local>, g: nat, t: OpId, v: Value, l: Local)
    requires Logs(h) && Track(trace, h.log, PhasesOf(threads)) && Current(trace, h, t, g)
    requires t in threads && PhaseOf(threads[t]) == Pending(Push(v)) && PhaseOf(l) == Effected(Ack)
    requires h.gens[g].b < |h.gens[g].chain|
    ensures Logs(Appended(h, g, t, v)) && Track(trace + [Tau], Appended(h, g, t, v).log, PhasesOf(threads[t := l]))
  {
    ContentGrows(h.gens[g], Appended(h, g, t, v).gens[g], Elem(t, v));
    PhasesUpdate(threads, t, l);
    TakesEffect(trace, h, Appended(h, g, t, v), PhasesOf(threads), PhasesOf(threads[t := l]), g,
      Entry(t, Push(v), Ack));
  }

  lemma LinkBalance(lists: seq<List>, h: History, g: nat, threads: map<OpId, Local>, t: OpId, v: Value, l: Local)
    requires Balanced(lists, h.gens, threads) && g < |h.gens| && DebtIn(threads, t) == NoDebt && DebtOf(l) == Plus(g)
    ensures Balanced(lists, Appended(h, g, t, v).gens, threads[t := l])
  {
    BalanceEffect(lists, lists, h.gens, g, Appended(h, g, t, v).gens[g], threads, t, l);
  }

  lemma LinkThreads(next: map<Node, Node>, trace: seq<Event>, h: History, threads: map<OpId, Local>, g: nat, t: OpId,
                    v: Value, hp: Node)
    requires Threads(next, trace, h, threads) && Track(trace, h.log, PhasesOf(threads)) && g < |h.gens|
    requires t in threads && !PhaseOf(threads[t]).Over? && Private(next, h, t, v)
    requires WasEnd(h, g, hp) && h.home[hp].i == |h.gens[g].chain| - 1
    ensures Threads(next[hp := Elem(t, v)], trace + [Tau], Appended(h, g, t, v), threads[t := PushSwing(v, g, hp)])
  {
    PendingNotReturned(trace, h.log, PhasesOf(threads), t);
    ThreadsStable(next, next[hp := Elem(t, v)], trace, Tau, h, Appended(h, g, t, v), threads, t, PushSwing(v, g, hp));
  }

  lemma Links(s: State, trace: seq<Event>, h: History, t: OpId, v: Value, g: nat, hp: Node)
    requires Holds(s, trace, h) && t in s.threads && s.threads[t] == PushLink(v, g, hp) && g < |h.gens|
    requires hp in s.next && s.next[hp] == Null
    ensures Simulated(Goto(s, t, PushSwing(v, g, hp)).(next := s.next[hp := Elem(t, v)]), trace + [Tau])
  {
    ThreadHolds(s.next, trace, h, s.threads, t);
    var l, h' := PushSwing(v, g, hp), Appended(h, g, t, v);
    var s' := Goto(s, t, l).(next := s.next[hp := Elem(t, v)]);
    assert WasEnd(h, g, hp) && Private(s.next, h, t, v) && Current(trace, h, t, g) && Allocated(s', h');
    assert h.gens[g].b < |h.gens[g].chain| by { assert Chained(s.next, s.lists[g], h.gens[g], g); }
    hide Thread, Chained, Shape, Homes, Logged, FullLog, Allocated, Appended;
    LinkShape(s.next, s.lists, h, g, t, v, hp);
    LinkLogs(trace, h, s.threads, g, t, v, l);
    LinkBalance(s.lists, h, g, s.threads, t, v, l);
    LinkThreads(s.next, trace, h, s.threads, g, t, v, hp);
    var _ := Inv(s', trace + [Tau], h');
  }

  // ----- A pop takes effect: begin moves on, or the chain is seen to end -----

  ghost function Popped(h: History, g: nat, t: OpId, n1: Node): History
    requires g < |h.gens| && n1.Elem?
  {
    var gen := h.gens[g];
    WithGen(h, g, gen.(b := gen.b + 1, log := gen.log + [Entry(t, Pop, Got(n1.data))]))
  }

  lemma PopShape(next: map<Node, Node>, lists: seq<List>, h: History, g: nat, t: OpId, n1: Node)
    requires Shape(next, lists, h) && g < |lists| && Linked(h, g, n1) && h.home[n1].i == h.gens[g].b + 1 && n1.Elem?
    ensures Shape(next, lists[g := lists[g].(begin := n1)], Popped(h, g, t, n1))
  {
    HomesSame(h, Popped(h, g, t, n1));
    forall k | 0 <= k < |lists|
      ensures Chained(next, lists[g := lists[g].(begin := n1)][k], Popped(h, g, t, n1).gens[k], k)
    {
      assert Chained(next, lists[k], h.gens[k], k);
    }
  }

  lemma PopLogs(trace: seq<Event>, h: History, threads: map<OpId, Local>, g: nat, t: OpId, n1: Node, l: Local)
    requires Logs(h) && Track(trace, h.log, PhasesOf(threads)) && Current(trace, h, t, g)
    requires Linked(h, g, n1) && h.home[n1].i == h.gens[g].b + 1 && n1.Elem?
    requires t in threads && PhaseOf(threads[t]) == Pending(Pop) && PhaseOf(l) == Effected(Got(n1.data))
    ensures Logs(Popped(h, g, t, n1))
    ensures Track(trace + [Tau], FullLog(Popped(h, g, t, n1).gens), PhasesOf(threads[t := l]))
  {
    ContentShrinks(h.gens[g], Popped(h, g, t, n1).gens[g], n1);
    PhasesUpdate(threads, t, l);
    TakesEffect(trace, h, Popped(h, g, t, n1), PhasesOf(threads), PhasesOf(threads[t := l]), g,
      Entry(t, Pop, Got(n1.data)));
  }

  lemma PopThreads(next: map<Node, Node>, trace: seq<Event>, h: History, threads: map<OpId, Local>, g: nat, t: OpId,
                   n1: Node, l: Local)
    requires Threads(next, trace, h, threads) && Track(trace, h.log, PhasesOf(threads)) && g < |h.gens| && n1.Elem?
    requires t in threads && !PhaseOf(threads[t]).Over? && Fits(next, trace + [Tau], Popped(h, g, t, n1), t, l)
    ensures Threads(next, trace + [Tau], Popped(h, g, t, n1), threads[t := l])
  {
    PendingNotReturned(trace, h.log, PhasesOf(threads), t);
    ThreadsStable(next, next, trace, Tau, h, Popped(h, g, t, n1), threads, t, l);
  }

  lemma Pops(s: State, trace: seq<Event>, h: History, t: OpId, g: nat, n0: Node, n1: Node)
    requires Holds(s, trace, h) && t in s.threads && s.threads[t] == PopCas(g, n0, n1) && ListAt(s, g).begin == n0
    requires g < |h.gens| && n1.Elem?
    ensures Simulated(Goto(SetList(s, g, ListAt(s, g).(begin := n1)), t, PopTake(g, n1)), trace + [Tau])
  {
    hide Logs, Track, Balanced;
    ThreadHolds(s.next, trace, h, s.threads, t);
    assert Chained(s.next, s.lists[g], h.gens[g], g);
    assert At(h, h.gens[g].chain[h.gens[g].b], g, h.gens[g].b);
    PopShape(s.next, s.lists, h, g, t, n1);
    PopLogs(trace, h, s.threads, g, t, n1, PopTake(g, n1));
    BalanceEffect(s.lists, s.lists[g := s.lists[g].(begin := n1)], h.gens, g, Popped(h, g, t, n1).gens[g], s.threads, t,
      PopTake(g, n1));
    PopThreads(s.next, trace, h, s.threads, g, t, n1, PopTake(g, n1));
    var _ := Inv(Goto(SetList(s, g, ListAt(s, g).(begin := n1)), t, PopTake(g, n1)), trace + [Tau],
      Popped(h, g, t, n1));
  }

  ghost function FoundEmpty(h: History, g: nat, t: OpId): History
    requires g < |h.gens|
  {
    WithGen(h, g, h.gens[g].(log := h.gens[g].log + [Entry(t, Pop, Empty)]))
  }

  /** A node without successor is the last one, so begin is there too: the list is empty. */
  lemma NoSuccessorMeansEmpty(next: map<Node, Node>, lists: seq<List>, h: History, g: nat, n0: Node)
    requires Shape(next, lists, h) && g < |lists| && WasBegin(h, g, n0) && n0 in next && next[n0] == Null
    ensures Content(h.gens[g]) == []
  {
    NoNextMeansLast(next, lists, h, g, n0);
    assert Chained(next, lists[g], h.gens[g], g);
    assert h.gens[g].chain[h.gens[g].b + 1..] == [];
  }

  lemma EmptyLogs(trace: seq<Event>, h: History, threads: map<OpId, Local>, g: nat, t: OpId)
    requires Logs(h) && Track(trace, h.log, PhasesOf(threads)) && Current(trace, h, t, g) && Content(h.gens[g]) == []
    requires t in threads && PhaseOf(threads[t]) == Pending(Pop)
    ensures Logs(FoundEmpty(h, g, t))
    ensures Track(trace + [Tau], FullLog(FoundEmpty(h, g, t).gens), PhasesOf(threads[t := Exit(Empty)]))
  {
    PhasesUpdate(threads, t, Exit(Empty));
    TakesEffect(trace, h, FoundEmpty(h, g, t), PhasesOf(threads), PhasesOf(threads[t := Exit(Empty)]), g,
      Entry(t, Pop, Empty));
  }

  lemma EmptyThreads(next: map<Node, Node>, trace: seq<Event>, h: History, threads: map<OpId, Local>, g: nat, t: OpId)
    requires Threads(next, trace, h, threads) && Track(trace, h.log, PhasesOf(threads)) && g < |h.gens|
    requires t in threads && !PhaseOf(threads[t]).Over?
    ensures Threads(next, trace + [Tau], FoundEmpty(h, g, t), threads[t := Exit(Empty)])
  {
    PendingNotReturned(trace, h.log, PhasesOf(threads), t);
    ThreadsStable(next, next, trace, Tau, h, FoundEmpty(h, g, t), threads, t, Exit(Empty));
  }

  lemma EmptyShape(next: map<Node, Node>, lists: seq<List>, h: History, g: nat, t: OpId)
    requires Shape(next, lists, h) && g < |lists|
    ensures Shape(next, lists, FoundEmpty(h, g, t))
  {
    HomesSame(h, FoundEmpty(h, g, t));
    forall k | 0 <= k < |lists| ensures Chained(next, lists[k], FoundEmpty(h, g, t).gens[k], k) {
      assert Chained(next, lists[k], h.gens[k], k);
    }
  }

  lemma FindsEmpty(s: State, trace: seq<Event>, h: History, t: OpId, g: nat, n0: Node)
    requires Holds(s, trace, h) && t in s.threads && s.threads[t] == PopBegin(g, n0) && Of(s.next, n0) == Null
    requires g < |h.gens|
    ensures Simulated(Goto(s, t, Exit(Empty)), trace + [Tau])
  {
    ThreadHolds(s.next, trace, h, s.threads, t);
    NoSuccessorMeansEmpty(s.next, s.lists, h, g, n0);
    EmptyLogs(trace, h, s.threads, g, t);
    EmptyThreads(s.next, trace, h, s.threads, g, t);
    BalanceSame(s.lists, s.lists, h.gens, FoundEmpty(h, g, t).gens, s.threads, t, Exit(Empty));
    EmptyShape(s.next, s.lists, h, g, t);
    var _ := Inv(Goto(s, t, Exit(Empty)), trace + [Tau], FoundEmpty(h, g, t));
  }

  // ----- A clear takes effect: a fresh list is installed -----

  function Renewed(h: History, t: OpId): History {
    var g := |h.gens|;
    var x := Entry(t, Clear, Ack);
    History(h.gens + [Gen([Dummy(g)], 0, 0, [x])], h.home[Dummy(g) := Place(g, 0)], h.log + [x])
  }

  lemma ClearShape(next: map<Node, Node>, lists: seq<List>, h: History, t: OpId)
    requires Shape(next, lists, h) && Dummy(|lists|) !in next && forall n :: n in h.home ==> n in next
    ensures var d := Dummy(|lists|); Shape(next[d := Null], lists + [List(d, d, 0)], Renewed(h, t))
  {
    var d, h' := Dummy(|lists|), Renewed(h, t);
    forall k | 0 <= k < |lists| + 1 ensures Chained(next[d := Null], (lists + [List(d, d, 0)])[k], h'.gens[k], k) {
      if k < |lists| { assert Chained(next, lists[k], h.gens[k], k); }
    }
    forall k, i | 0 <= k < |h'.gens| && 0 <= i < |h'.gens[k].chain| ensures At(h', h'.gens[k].chain[i], k, i) {
      if k < |lists| { assert At(h, h.gens[k].chain[i], k, i); }
    }
  }

  lemma ClearLogs(trace: seq<Event>, h: History, threads: map<OpId, Local>, t: OpId)
    requires Logs(h) && Track(trace, h.log, PhasesOf(threads))
    requires t in threads && PhaseOf(threads[t]) == Pending(Clear)
    ensures Logs(Renewed(h, t)) && Track(trace + [Tau], FullLog(Renewed(h, t).gens), PhasesOf(threads[t := Exit(Ack)]))
  {
    var h', x := Renewed(h, t), Entry(t, Clear, Ack);
    PhasesUpdate(threads, t, Exit(Ack));
    assert h'.gens[..|h.gens|] == h.gens;
    TrackEffect(trace, h.log, PhasesOf(threads), PhasesOf(threads[t := Exit(Ack)]), x);
    hide Track, PhasesOf;
    assert Inside(0);
    ReplaySnoc([], [], x);
    assert [] + [x] == [x];
    forall k | 0 <= k < |h'.gens| ensures Logged(h'.gens[k], k) {
      if k < |h.gens| { assert Logged(h.gens[k], k); }
    }
  }

  lemma ClearThreads(next: map<Node, Node>, trace: seq<Event>, h: History, threads: map<OpId, Local>, t: OpId)
    requires Threads(next, trace, h, threads) && Track(trace, h.log, PhasesOf(threads))
    requires t in threads && !PhaseOf(threads[t]).Over? && Dummy(|h.gens|) !in next
    requires forall n :: n in h.home ==> n in next
    ensures Threads(next[Dummy(|h.gens|) := Null], trace + [Tau], Renewed(h, t), threads[t := Exit(Ack)])
  {
    PendingNotReturned(trace, h.log, PhasesOf(threads), t);
    ThreadsStable(next, next[Dummy(|h.gens|) := Null], trace, Tau, h, Renewed(h, t), threads, t, Exit(Ack));
  }

  lemma Clears(s: State, trace: seq<Event>, h: History, t: OpId)
    requires Holds(s, trace, h) && t in s.threads && s.threads[t] == ClearTop
    ensures Simulated(Instr(s, t, false), trace + [Tau])
  {
    ClearShape(s.next, s.lists, h, t);
    ClearLogs(trace, h, s.threads, t);
    BalanceClear(s.lists, Dummy(|s.lists|), h.gens, Renewed(h, t).gens[|h.gens|], s.threads, t);
    ClearThreads(s.next, trace, h, s.threads, t);
    var _ := Inv(Instr(s, t, false), trace + [Tau], Renewed(h, t));
  }

  // ----- Every step -----

  lemma SuccessorIsElem(next: map<Node, Node>, lists: seq<List>, h: History, g: nat, n0: Node, n1: Node)
    requires Shape(next, lists, h) && Successor(h, g, n0, n1)
    ensures n1.Elem?
  {}

  /** The value read from a next pointer is the next node of the chain. */
  lemma NextIsSuccessor(s: State, h: History, g: nat, n: Node)
    requires Shape(s.next, s.lists, h) && Linked(h, g, n) && Of(s.next, n) != Null
    ensures n in s.next && Successor(h, g, n, s.next[n]) && s.next[n].Elem?
  {
    var gen, i := h.gens[g], h.home[n].i;
    assert Chained(s.next, s.lists[g], gen, g);
    assert s.next[n] == Following(gen.chain, i);
    assert At(h, gen.chain[i + 1], g, i + 1);
  }

  lemma EndIsTail(s: State, h: History, g: nat)
    requires Shape(s.next, s.lists, h) && g < |s.lists|
    ensures At(h, s.lists[g].end, g, h.gens[g].e)
  {}

  lemma BeginIsLinked(s: State, h: History, g: nat)
    requires Shape(s.next, s.lists, h) && g < |s.lists|
    ensures WasBegin(h, g, s.lists[g].begin)
  {
    assert Chained(s.next, s.lists[g], h.gens[g], g);
    assert At(h, h.gens[g].chain[h.gens[g].b], g, h.gens[g].b);
  }

  lemma PushReads(s: State, trace: seq<Event>, h: History, t: OpId)
    requires Holds(s, trace, h) && t in s.threads
    requires var l := s.threads[t]; l.PushTop? || l.PushList?
    ensures forall spurious :: Simulated(Instr(s, t, spurious), trace + [Tau])
  {
    Extend(trace, Tau);
    ThreadHolds(s.next, trace, h, s.threads, t);
    match s.threads[t]
    case PushTop(v) => Quiet(s, trace, h, t, PushList(v, s.cur));
    case PushList(v, g) =>
      assert Chained(s.next, s.lists[g], h.gens[g], g);
      assert At(h, h.gens[g].chain[h.gens[g].e], g, h.gens[g].e);
      Quiet(s, trace, h, t, PushEnd(v, g, s.lists[g].end));
  }

  lemma PushChecks(s: State, trace: seq<Event>, h: History, t: OpId)
    requires Holds(s, trace, h) && t in s.threads
    requires var l := s.threads[t]; l.PushEnd? || l.PushAgain?
    ensures forall spurious :: Simulated(Instr(s, t, spurious), trace + [Tau])
  {
    Extend(trace, Tau);
    ThreadHolds(s.next, trace, h, s.threads, t);
    match s.threads[t]
    case PushEnd(v, g, hp) =>
      var n := Of(s.next, hp);
      if n != Null { NextIsSuccessor(s, h, g, hp); }
      Quiet(s, trace, h, t, if n != Null then PushHelp(v, g, hp, n) else PushAgain(v, g, hp));
    case PushAgain(v, g, hp) => Quiet(s, trace, h, t,
      if hp != ListAt(s, g).end then PushTop(v) else PushLink(v, g, hp));
  }

  lemma PushHelps(s: State, trace: seq<Event>, h: History, t: OpId, spurious: bool)
    requires Holds(s, trace, h) && t in s.threads
    requires var l := s.threads[t]; l.PushHelp? || l.PushSwing?
    ensures Simulated(Instr(s, t, spurious), trace + [Tau])
  {
    Extend(trace, Tau);
    ThreadHolds(s.next, trace, h, s.threads, t);
    match s.threads[t]
    case PushHelp(v, g, hp, n) =>
      if ListAt(s, g).end == hp && !spurious {
        EndIsTail(s, h, g);
        TailMoves(s, trace, h, t, g, n, PushTop(v));
      } else {
        Quiet(s, trace, h, t, PushTop(v));
      }
    case PushSwing(v, g, hp) =>
      if ListAt(s, g).end == hp && !spurious {
        EndIsTail(s, h, g);
        TailMoves(s, trace, h, t, g, Elem(t, v), PushCount(g));
      } else {
        Quiet(s, trace, h, t, PushCount(g));
      }
  }

  lemma PushLinks(s: State, trace: seq<Event>, h: History, t: OpId, spurious: bool)
    requires Holds(s, trace, h) && t in s.threads
    requires var l := s.threads[t]; l.PushLink? || l.PushCount?
    ensures Simulated(Instr(s, t, spurious), trace + [Tau])
  {
    Extend(trace, Tau);
    ThreadHolds(s.next, trace, h, s.threads, t);
    match s.threads[t]
    case PushLink(v, g, hp) =>
      if Of(s.next, hp) == Null && !spurious {
        Links(s, trace, h, t, v, g, hp);
      } else {
        Quiet(s, trace, h, t, PushTop(v));
      }
    case PushCount(g) => Counts(s, trace, h, t, g, Increment(s.lists[g].size), Exit(Ack));
  }

  lemma PopReads(s: State, trace: seq<Event>, h: History, t: OpId)
    requires Holds(s, trace, h) && t in s.threads
    requires var l := s.threads[t]; l.PopTop? || l.PopList? || l.PopAgain?
    ensures forall spurious :: Simulated(Instr(s, t, spurious), trace + [Tau])
  {
    hide Logs, Track, Balanced, Chained;
    Extend(trace, Tau);
    ThreadHolds(s.next, trace, h, s.threads, t);
    match s.threads[t]
    case PopTop => Quiet(s, trace, h, t, PopList(s.cur));
    case PopList(g) =>
      BeginIsLinked(s, h, g);
      Quiet(s, trace, h, t, PopBegin(g, s.lists[g].begin));
    case PopAgain(g, n0, n1) => Quiet(s, trace, h, t, if n0 != ListAt(s, g).begin then PopTop else PopCas(g, n0, n1));
  }

  lemma PopChecks(s: State, trace: seq<Event>, h: History, t: OpId)
    requires Holds(s, trace, h) && t in s.threads
    requires var l := s.threads[t]; l.PopBegin?
    ensures forall spurious :: Simulated(Instr(s, t, spurious), trace + [Tau])
  {
    Extend(trace, Tau);
    ThreadHolds(s.next, trace, h, s.threads, t);
    match s.threads[t]
    case PopBegin(g, n0) =>
      var n1 := Of(s.next, n0);
      if n1 == Null {
        FindsEmpty(s, trace, h, t, g, n0);
      } else {
        NextIsSuccessor(s, h, g, n0);
        Quiet(s, trace, h, t, PopAgain(g, n0, n1));
      }
  }

  lemma PopTakes(s: State, trace: seq<Event>, h: History, t: OpId)
    requires Holds(s, trace, h) && t in s.threads
    requires var l := s.threads[t]; l.PopCas? || l.PopTake? || l.PopCount?
    ensures forall spurious :: Simulated(Instr(s, t, spurious), trace + [Tau])
  {
    hide Logs, Track, Balanced;
    Extend(trace, Tau);
    ThreadHolds(s.next, trace, h, s.threads, t);
    match s.threads[t]
    case PopCas(g, n0, n1) =>
      if ListAt(s, g).begin == n0 {
        SuccessorIsElem(s.next, s.lists, h, g, n0, n1);
        Pops(s, trace, h, t, g, n0, n1);
      } else {
        Quiet(s, trace, h, t, PopTop);
      }
    case PopTake(g, n1) => Quiet(s, trace, h, t, PopCount(g, n1.data));
    case PopCount(g, v) => Counts(s, trace, h, t, g, Decrement(s.lists[g].size), Exit(Got(v)));
  }

  lemma StepIsSimulated(s: State, trace: seq<Event>, h: History, a: Action)
    requires Holds(s, trace, h) && Enabled(s, a)
    ensures Simulated(Step(s, a), trace + [EventOf(s, a)])
  {
    match a
    case Start(t, op) => Starts(s, trace, h, t, op);
    case Exec(t, spurious) =>
      var l := s.threads[t];
      if l.Exit? {
        Returns(s, trace, h, t);
      } else if l.ClearTop? {
        Clears(s, trace, h, t);
      } else if l.PushTop? || l.PushList? {
        PushReads(s, trace, h, t);
      } else if l.PushEnd? || l.PushAgain? {
        PushChecks(s, trace, h, t);
      } else if l.PushHelp? || l.PushSwing? {
        PushHelps(s, trace, h, t, spurious);
      } else if l.PushLink? || l.PushCount? {
        PushLinks(s, trace, h, t, spurious);
      } else if l.PopTop? || l.PopList? || l.PopAgain? {
        PopReads(s, trace, h, t);
      } else if l.PopBegin? {
        PopChecks(s, trace, h, t);
      } else {
        PopTakes(s, trace, h, t);
      }
  }

  // ----- Main results -----

  lemma InitIsSimulated()
    ensures Simulated(Init, [])
  {
    var gen := Gen([Dummy(0)], 0, 0, []);
    var h := History([gen], map[Dummy(0) := Place(0, 0)], []);
    InitLogs(h, gen);
    TrackInit();
    assert PhasesOf(Init.threads) == map[];
    assert Chained(Init.next, Init.lists[0], gen, 0);
    var _ := Inv(Init, [], h);
  }

  lemma InitLogs(h: History, gen: Gen)
    requires h.gens == [gen] && gen.log == [] == h.log && gen.chain == [Dummy(0)] && gen.b == 0
    ensures Logs(h) && Balanced(Init.lists, h.gens, map[])
  {
    assert h.gens[..0] == [];
    assert FullLog(h.gens) == [];
    assert Logged(gen, 0);
    assert Owing(map[], Plus(0)) == {} && Owing(map[], Minus(0)) == {};
    assert Laps(0) == 0;
    assert Even(Init.lists[0], gen, map[], 0);
  }

  lemma {:induction false} RunIsSimulated(acts: seq<Action>)
    ensures Simulated(After(acts).state, After(acts).trace)
    decreases |acts|
  {
    if acts == [] {
      InitIsSimulated();
    } else {
      var before := After(acts[..|acts| - 1]);
      var a := acts[|acts| - 1];
      RunIsSimulated(acts[..|acts| - 1]);
      if Enabled(before.state, a) {
        var h :| Inv(before.state, before.trace, h);
        StepIsSimulated(before.state, before.trace, h, a);
      }
    }
  }

  lemma LogIsLegal(h: History)
    requires Logs(h)
    ensures Legal([], h.log)
    ensures h.gens != [] ==> Replay([], h.log) == Content(h.gens[|h.gens| - 1])
  {
    assert Inside(0);
    FullLogLegal(h.gens);
  }

  /** Every run of any number of pushes, pops and clears is linearizable. */
  lemma MsqueIsLinearizable(acts: seq<Action>)
    ensures WellFormed(After(acts).trace) && Linearizable(After(acts).trace)
  {
    RunIsSimulated(acts);
    var r := After(acts);
    var h :| Inv(r.state, r.trace, h);
    TrackOrders(r.trace, h.log, PhasesOf(r.state.threads));
    LogIsLegal(h);
    assert Linearization(r.trace, h.log);
  }

  /** In every reachable state the nodes of each list ever installed form one chain from its
      dummy; end is the last or second-to-last node and begin at most one node past end. */
  lemma EveryListIsOneChain(acts: seq<Action>, g: nat)
    requires g < |After(acts).state.lists|
    ensures var s := After(acts).state; exists gen :: Chained(s.next, s.lists[g], gen, g)
  {
    RunIsSimulated(acts);
    var s := After(acts).state;
    var h :| Inv(s, After(acts).trace, h);
    assert Chained(s.next, s.lists[g], h.gens[g], g);
  }

  /** gens are the histories of the lists of a run: each is a legal run of a queue of its own
      that leaves what its list holds, from list 1 on it starts with the clear that installed
      the list, and the counter of the list is its length but for the operations that have
      yet to count.  Put one after the other they are a linearization. */
  ghost predicate Explains(r: Run, gens: seq<Gen>) {
    && |gens| == |r.state.lists|
    && Linearization(r.trace, FullLog(gens))
    && forall g :: 0 <= g < |gens| ==>
         Chained(r.state.next, r.state.lists[g], gens[g], g) && Logged(gens[g], g) &&
           Even(r.state.lists[g], gens[g], r.state.threads, g)
  }

  /** Every list ever installed has a history of its own, to which also the operations belong
      that landed on it after it was replaced. */
  lemma EveryListHasItsHistory(acts: seq<Action>)
    ensures exists gens :: Explains(After(acts), gens)
  {
    RunIsSimulated(acts);
    var r := After(acts);
    var h :| Inv(r.state, r.trace, h);
    TrackOrders(r.trace, h.log, PhasesOf(r.state.threads));
    LogIsLegal(h);
    assert Inside(0);
    assert Explains(r, h.gens);
  }

  /** No operation is between its effect on a list and its change of the counter. */
  ghost predicate AtRest(threads: map<OpId, Local>) {
    forall t :: t in threads ==> DebtOf(threads[t]) == NoDebt
  }

  lemma RestedCounter(lists: seq<List>, gens: seq<Gen>, threads: map<OpId, Local>, g: nat)
    requires Balanced(lists, gens, threads) && AtRest(threads) && g < |gens| && Length(gens[g]) >= 0
    ensures |gens| == |lists| && lists[g].size == Length(gens[g]) % WORD
  {
    assert Inside(0);
    assert Even(lists[g], gens[g], threads, g);
    assert Owing(threads, Plus(g)) == {};
    assert Owing(threads, Minus(g)) == {};
    Settles(lists[g].size, Length(gens[g]));
  }

  lemma ContentLength(next: map<Node, Node>, list: List, gen: Gen, g: nat)
    requires Chained(next, list, gen, g)
    ensures |Content(gen)| == Length(gen)
  {
    ValuesLength(gen.chain[gen.b + 1..]);
  }

  lemma RestedSize(s: State, trace: seq<Event>, h: History)
    requires Holds(s, trace, h) && AtRest(s.threads)
    ensures s.cur < |s.lists| && s.lists[s.cur].size == |Replay([], h.log)| % WORD
  {
    LogIsLegal(h);
    ContentLength(s.next, s.lists[s.cur], h.gens[s.cur], s.cur);
    RestedCounter(s.lists, h.gens, s.threads, s.cur);
  }

  /** size() is exact, modulo 32 bits, whenever no push or pop is between its effect and its
      counting, even though the counter may wrap in between. */
  lemma SizeIsExactAtRest(acts: seq<Action>)
    requires AtRest(After(acts).state.threads)
    ensures var r := After(acts); exists log ::
      Linearization(r.trace, log) && r.state.cur < |r.state.lists| &&
        r.state.lists[r.state.cur].size == |Replay([], log)| % WORD
  {
    RunIsSimulated(acts);
    var r := After(acts);
    var h :| Inv(r.state, r.trace, h);
    RestedSize(r.state, r.trace, h);
    LogIsLegal(h);
    TrackOrders(r.trace, h.log, PhasesOf(r.state.threads));
  }
}
