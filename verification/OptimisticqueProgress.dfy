/** An operation of optimisticque that goes on alone returns, is counted, and answers what the
    history gives: every push, and every pop that starts over after a repair walk or finds no push
    half done behind the head. */
module OptimisticqueProgress {
  import opened Linearizability
  import opened NodeChains
  import opened Counting
  import opened Optimisticque
  import opened OptimisticqueProof
  import C = OptimisticqueCareful

  /** t alone takes n steps, none of them a spurious failure. */
  function Own(t: OpId, n: nat): seq<Action> { seq(n, _ => Exec(t, false)) }

  /** A pop that has not taken effect. */
  predicate Seeking(l: Local) {
    l.PopTop? || l.PopDetail? || l.PopNext? || l.PopTail? || l.PopHead? || l.PopPrev? || l.PopStore? || l.PopCas?
  }

  /** t can go on alone: the pop starts over after its walk, or the run has been careful and no push
      is half done behind the head. */
  ghost predicate Smooth(s: State, h: History, t: OpId, retry: bool)
    requires t in s.threads
  {
    retry || (C.Kept(s, h) && (Seeking(s.threads[t]) ==> !C.HalfDone(s.threads, s.head)))
  }

  // ----- How many instructions are left -----

  /** How many elements are behind the head. */
  function Gap(h: History): nat {
    if h.b < |h.chain| then |h.chain| - 1 - h.b else 0
  }

  /** How far n is behind the head. */
  function Ahead(h: History, n: Node): nat {
    if n in h.home && h.home[n] > h.b then h.home[n] - h.b else 0
  }

  /** From the start of a round of a pop: walk back once if the link of the head is not stored. */
  function TopRank(s: State, h: History): nat {
    if s.head == s.detail || Of(s.next, s.head) != Null then 7 else 3 * Gap(h) + 12
  }

  /** From an instruction of a pop whose head has been passed. */
  function StaleRank(s: State, h: History, l: Local): nat {
    TopRank(s, h) + (if l.PopDetail? then 5 else if l.PopNext? || l.PopPrev? then 4
                     else if l.PopTail? || l.PopStore? then 3 else if l.PopHead? then 2 else 1)
  }

  function SeekRank(s: State, h: History, l: Local): nat
    requires Seeking(l)
  {
    match l
    case PopTop => TopRank(s, h)
    case PopDetail(n0) => if n0 == s.head then TopRank(s, h) - 1 else StaleRank(s, h, l)
    case PopNext(n0) =>
      if n0 != s.head then StaleRank(s, h, l) else if Of(s.next, n0) != Null then 5 else 3 * Gap(h) + 10
    case PopTail(n0) => if n0 == s.head then 3 * Gap(h) + 9 else StaleRank(s, h, l)
    case PopHead(n0, _, tail) => if n0 == s.head then 3 * Ahead(h, tail) + 8 else StaleRank(s, h, l)
    case PopPrev(n0, _, tail) => if n0 == s.head then 3 * Ahead(h, tail) + 7 else StaleRank(s, h, l)
    case PopStore(n0, _, tail, _) => if n0 == s.head then 3 * Ahead(h, tail) + 6 else StaleRank(s, h, l)
    case PopCas(n0, _) => if n0 == s.head then 4 else StaleRank(s, h, l)
  }

  function ActRank(s: State, l: Local): nat {
    match l
    case PushTop(_) => 6
    case PushPrev(_, hp) => if s.detail == hp then 5 else 8
    case PushCas(_, hp) => if s.detail == hp then 4 else 7
    case PushLink(_, _) => 3
    case PushCount => 2
    case PopTake(_) => 3
    case PopCount(_) => 2
    case Exit(_) => 1
    case _ => 0
  }

  function Rank(s: State, h: History, t: OpId): nat
    requires t in s.threads
  {
    var l := s.threads[t];
    if Seeking(l) then SeekRank(s, h, l) else ActRank(s, l)
  }

  // ----- What it will answer, and the counter behind it -----

  function First(h: History): Res {
    if h.b + 1 < |h.chain| && h.chain[h.b + 1].Elem? then Got(h.chain[h.b + 1].data) else Empty
  }

  function Answer(s: State, h: History, t: OpId): Res
    requires t in s.threads
  {
    var l := s.threads[t];
    if Seeking(l) then First(h)
    else if l.PopTake? then (if l.n1.Elem? then Got(l.n1.data) else Empty)
    else if l.PopCount? then Got(l.v)
    else if l.Exit? then l.res
    else Ack
  }

  /** The counter when the operation at l, with this answer, has counted. */
  function Settled(size: nat, l: Local, res: Res): nat {
    if l.Exit? || l.Done? || l.Crashed? then size
    else match res
      case Ack => Increment(size)
      case Got(_) => Decrement(size)
      case Empty => size
  }

  // ----- Each instruction brings it closer -----

  predicate Goes(s: State, h: History, t: OpId, retry: bool)
    requires t in s.threads
  {
    var s' := Instr(s, t, false, retry);
    && Rank(s', h, t) < Rank(s, h, t) && Answer(s', h, t) == Answer(s, h, t)
    && s'.threads[t] != Done && s'.threads[t] != Crashed && s'.head != Null
    && Settled(s'.size, s'.threads[t], Answer(s, h, t)) == Settled(s.size, s.threads[t], Answer(s, h, t))
    && (Seeking(s'.threads[t]) ==> Seeking(s.threads[t]) && s'.head == s.head && s'.detail == s.detail)
  }

  lemma PushGoes(s: State, h: History, t: OpId, retry: bool)
    requires t in s.threads && s.head != Null && (s.threads[t].PushTop? || s.threads[t].PushPrev?)
    ensures Goes(s, h, t, retry)
  {}

  lemma AddGoes(s: State, h: History, t: OpId, retry: bool)
    requires t in s.threads && s.head != Null && s.threads[t].PushCas?
    ensures Goes(s, h, t, retry)
  {}

  lemma AddedGoes(s: State, h: History, t: OpId, retry: bool)
    requires t in s.threads && s.head != Null && (s.threads[t].PushLink? || s.threads[t].PushCount?)
    ensures Goes(s, h, t, retry)
  {}

  lemma TakenGoes(s: State, h: History, t: OpId, retry: bool)
    requires t in s.threads && s.head != Null
    requires var l := s.threads[t]; l.PopCount? || (l.PopTake? && l.n1.Elem?)
    ensures Goes(s, h, t, retry)
  {}

  lemma SearchGoes(s: State, h: History, t: OpId, retry: bool)
    requires t in s.threads && s.head != Null && (s.head == s.detail ==> First(h) == Empty)
    requires match s.threads[t]
      case PopTop => true
      case PopDetail(n0) => n0 == s.detail ==> n0 == s.head
      case _ => false
    ensures Goes(s, h, t, retry)
  {}

  lemma NextGoes(s: State, h: History, t: OpId, retry: bool)
    requires t in s.threads && s.head != Null
    requires match s.threads[t]
      case PopNext(n0) => n0 != Null && (n0 == s.head ==> retry || Of(s.next, n0) != Null)
      case PopTail(n0) => n0 == s.head ==> retry && Ahead(h, s.detail) == Gap(h)
      case _ => false
    ensures Goes(s, h, t, retry)
  {}

  lemma WalkGoes(s: State, h: History, t: OpId, retry: bool)
    requires t in s.threads && s.head != Null
    requires match s.threads[t]
      case PopHead(n0, _, tail) => n0 == s.head ==> retry && (tail == n0 ==> Of(s.next, n0) != Null)
      case PopPrev(n0, _, tail) => true
      case PopStore(n0, _, tail, before) =>
        before != Null && tail != Null && (n0 == s.head ==> Ahead(h, before) < Ahead(h, tail))
      case _ => false
    ensures Goes(s, h, t, retry)
  {}

  lemma CasGoes(s: State, h: History, t: OpId, retry: bool)
    requires t in s.threads && s.head != Null && s.threads[t].PopCas?
    requires var l := s.threads[t]; l.n0 == s.head ==> l.n1.Elem? && First(h) == Got(l.n1.data)
    ensures Goes(s, h, t, retry)
  {}

  // ----- What the invariant says for it -----

  /** Shape of the chain behind the head, for a pop at its head n0. */
  lemma HeadFacts(s: State, trace: seq<Event>, h: History, retry: bool, n0: Node)
    requires Holds(s, trace, h, retry) && WasHead(h, n0)
    ensures s.head != Null && n0 != Null && (n0 == s.detail ==> n0 == s.head)
    ensures n0 == s.head <==> h.home[n0] == h.b
    ensures s.head == s.detail ==> First(h) == Empty
    ensures Ahead(h, s.detail) == Gap(h)
  {
    hide Explained, Tally, Track, Threads;
    Bounds(s.next, s.prev, s.head, s.detail, h);
    HeadIsNode(s, h, n0);
  }

  lemma TopFacts(s: State, trace: seq<Event>, h: History, retry: bool)
    requires Holds(s, trace, h, retry)
    ensures s.head != Null && (s.head == s.detail ==> First(h) == Empty)
  {
    Bounds(s.next, s.prev, s.head, s.detail, h);
  }

  lemma CasFacts(s: State, trace: seq<Event>, h: History, retry: bool, n0: Node, n1: Node)
    requires Holds(s, trace, h, retry) && WasHead(h, n0) && n0 == s.head && Adjacent(h, n0, n1) && n1.Elem?
    ensures First(h) == Got(n1.data)
  {
    Bounds(s.next, s.prev, s.head, s.detail, h);
  }

  /** The link of the head is stored when the walk has come back to it. */
  lemma WalkedFacts(s: State, trace: seq<Event>, h: History, retry: bool, n0: Node, top: Node)
    requires Holds(s, trace, h, retry) && Walking(s.next, h, n0, top, n0)
    ensures Of(s.next, n0) != Null
  {
    assert Look(TheShape);
    assert Following(h.chain, h.home[n0]).Elem?;
    assert Of(s.next, n0) == Following(h.chain, h.home[n0]);
  }

  lemma SearchStep(s: State, trace: seq<Event>, h: History, t: OpId, retry: bool)
    requires Holds(s, trace, h, retry) && t in s.threads && Smooth(s, h, t, retry)
    requires var l := s.threads[t]; l.PopTop? || l.PopDetail? || l.PopNext? || l.PopTail?
    ensures Goes(s, h, t, retry)
  {
    ThreadHolds(s.next, s.prev, h, s.threads, t, retry);
    TopFacts(s, trace, h, retry);
    var l := s.threads[t];
    if !l.PopTop? { HeadFacts(s, trace, h, retry, l.n0); }
    if !retry {
      assert C.Harmless(h, l);
      if l.PopNext? && l.n0 == s.head { C.NullMeansHalfDone(s, trace, h, l.n0); }
    }
    hide Goes, Holds, Ahead, First;
    if l.PopTop? || l.PopDetail? { SearchGoes(s, h, t, retry); } else { NextGoes(s, h, t, retry); }
  }

  lemma WalkStep(s: State, trace: seq<Event>, h: History, t: OpId, retry: bool)
    requires Holds(s, trace, h, retry) && t in s.threads && Smooth(s, h, t, retry)
    requires var l := s.threads[t]; l.PopHead? || l.PopPrev? || l.PopStore?
    ensures Goes(s, h, t, retry)
  {
    ThreadHolds(s.next, s.prev, h, s.threads, t, retry);
    var l := s.threads[t];
    HeadFacts(s, trace, h, retry, l.n0);
    if !retry { assert C.Harmless(h, l); }
    if l.PopHead? && l.tail == l.n0 { WalkedFacts(s, trace, h, retry, l.n0, l.top); }
    if l.PopStore? {
      HeadIsNode(s, h, l.before);
      HeadIsNode(s, h, l.tail);
    }
    hide Goes, Holds;
    WalkGoes(s, h, t, retry);
  }

  lemma CasStep(s: State, trace: seq<Event>, h: History, t: OpId, retry: bool)
    requires Holds(s, trace, h, retry) && t in s.threads && Smooth(s, h, t, retry) && s.threads[t].PopCas?
    ensures Goes(s, h, t, retry)
  {
    ThreadHolds(s.next, s.prev, h, s.threads, t, retry);
    var l := s.threads[t];
    HeadFacts(s, trace, h, retry, l.n0);
    if !retry { assert C.Harmless(h, l); }
    if l.n0 == s.head { CasFacts(s, trace, h, retry, l.n0, l.n1); }
    hide Goes, Holds;
    CasGoes(s, h, t, retry);
  }

  lemma Step(s: State, trace: seq<Event>, h: History, t: OpId, retry: bool)
    requires Holds(s, trace, h, retry) && t in s.threads && Smooth(s, h, t, retry)
    requires s.threads[t] != Done && !s.threads[t].Exit?
    ensures Goes(s, h, t, retry)
  {
    ThreadHolds(s.next, s.prev, h, s.threads, t, retry);
    TopFacts(s, trace, h, retry);
    hide Goes, Holds;
    var l := s.threads[t];
    if l.PopTop? || l.PopDetail? || l.PopNext? || l.PopTail? {
      SearchStep(s, trace, h, t, retry);
    } else if l.PopHead? || l.PopPrev? || l.PopStore? {
      WalkStep(s, trace, h, t, retry);
    } else if l.PopCas? {
      CasStep(s, trace, h, t, retry);
    } else if l.PopTake? || l.PopCount? {
      TakenGoes(s, h, t, retry);
    } else if l.PushLink? || l.PushCount? {
      AddedGoes(s, h, t, retry);
    } else if l.PushCas? {
      AddGoes(s, h, t, retry);
    } else {
      PushGoes(s, h, t, retry);
    }
  }

  // ----- The history behind a step -----

  /** A history that continues h and has the same head and tail is about the same chain. */
  lemma SameChain(s: State, s': State, h: History, h': History)
    requires Shape(s.next, s.prev, s.head, s.detail, h) && Shape(s'.next, s'.prev, s'.head, s'.detail, h')
    requires h.chain <= h'.chain && s'.head == s.head && s'.detail == s.detail
    ensures h'.chain == h.chain && h'.b == h.b
  {
    Bounds(s.next, s.prev, s.head, s.detail, h);
    Bounds(s'.next, s'.prev, s'.head, s'.detail, h');
    HomesHold(s'.next, s'.prev, s'.head, s'.detail, h');
    assert At(h', h'.chain[|h.chain| - 1], |h.chain| - 1);
    assert At(h', h'.chain[h.b], h.b);
  }

  lemma SameRank(s: State, h: History, h': History, t: OpId)
    requires t in s.threads && h'.chain == h.chain && h'.b == h.b
    requires var l := s.threads[t]; l.PopHead? || l.PopPrev? || l.PopStore? ==> On(h', l.tail) && Homes(h)
    ensures Rank(s, h', t) == Rank(s, h, t) && Answer(s, h', t) == Answer(s, h, t)
  {
    var l := s.threads[t];
    if l.PopHead? || l.PopPrev? || l.PopStore? { assert At(h, h.chain[h'.home[l.tail]], h'.home[l.tail]); }
  }

  /** One more instruction of t, with a history for what comes behind it. */
  lemma Onward(s: State, trace: seq<Event>, h: History, t: OpId, retry: bool, h': History)
    requires Holds(s, trace, h, retry) && t in s.threads && Smooth(s, h, t, retry)
    requires s.threads[t] != Done && !s.threads[t].Exit?
    requires var s' := Instr(s, t, false, retry); Holds(s', trace + [Tau], h', retry) && h.chain <= h'.chain
    ensures var s' := Instr(s, t, false, retry);
      && Rank(s', h', t) < Rank(s, h, t) && Answer(s', h', t) == Answer(s, h, t)
      && Settled(s'.size, s'.threads[t], Answer(s, h, t)) == Settled(s.size, s.threads[t], Answer(s, h, t))
      && s'.threads[t] != Done && s'.threads[t] != Crashed
  {
    Step(s, trace, h, t, retry);
    var s' := Instr(s, t, false, retry);
    var l' := s'.threads[t];
    if Seeking(l') {
      SameChain(s, s', h, h');
      HomesHold(s.next, s.prev, s.head, s.detail, h);
      ThreadHolds(s'.next, s'.prev, h', s'.threads, t, retry);
      SameRank(s', h, h', t);
    }
  }

  // ----- Runs -----

  /** t can go on alone behind the schedule. */
  ghost predicate CanGoOn(acts: seq<Action>, t: OpId, retry: bool) {
    retry ||
    (C.Careful(acts) &&
     var s := After(acts, false).state;
     t in s.threads && Seeking(s.threads[t]) ==> !C.HalfDone(s.threads, s.head))
  }

  /** h explains the run and, when the pop does not start over, shows nothing that can do harm. */
  ghost predicate Explained(acts: seq<Action>, retry: bool, h: History) {
    var r := After(acts, retry);
    Holds(r.state, r.trace, h, retry) && (!retry ==> C.Kept(r.state, h))
  }

  lemma RunIsExplained(acts: seq<Action>, retry: bool) returns (h: History)
    requires retry || C.Careful(acts)
    ensures Explained(acts, retry, h)
  {
    var r := After(acts, retry);
    if retry {
      RunIsSimulated(acts, true);
      h :| Inv(r.state, r.trace, h, true);
    } else {
      C.CarefulIsUnharmed(acts);
      h :| Holds(r.state, r.trace, h, false) && C.Kept(r.state, h);
    }
  }

  lemma StaysHalfDone(s: State, s': State, t: OpId, n: Node)
    requires t in s.threads && t in s'.threads && s'.threads == s.threads[t := s'.threads[t]]
    requires Seeking(s'.threads[t]) && !C.HalfDone(s.threads, n)
    ensures !C.HalfDone(s'.threads, n)
  {}

  /** One more instruction of t. */
  lemma Follow(acts: seq<Action>, t: OpId, retry: bool, h: History) returns (h': History)
    requires CanGoOn(acts, t, retry) && Explained(acts, retry, h)
    requires var s := After(acts, retry).state; t in s.threads && s.threads[t] != Done && !s.threads[t].Exit?
    ensures var acts', s := acts + [Exec(t, false)], After(acts, retry).state;
      var s' := After(acts', retry).state;
      && CanGoOn(acts', t, retry) && Explained(acts', retry, h')
      && t in s'.threads && s'.threads[t] != Done
      && Rank(s', h', t) < Rank(s, h, t) && Answer(s', h', t) == Answer(s, h, t)
      && Settled(s'.size, s'.threads[t], Answer(s, h, t)) == Settled(s.size, s.threads[t], Answer(s, h, t))
  {
    hide Holds, C.Kept, Rank, Answer, Settled;
    var r, a := After(acts, retry), Exec(t, false);
    var s := r.state;
    assert (acts + [a])[..|acts + [a]| - 1] == acts;
    ThreadOpen(s, r.trace, h, t, retry);
    Step(s, r.trace, h, t, retry);
    StepIsSimulated(s, r.trace, h, retry, a);
    var s' := Instr(s, t, false, retry);
    h' :| Inv(s', r.trace + [Tau], h', retry) && h.chain <= h'.chain;
    HoldsOf(s', r.trace + [Tau], h', retry);
    Onward(s, r.trace, h, t, retry, h');
    if !retry { KeptOn(s, r.trace, h, t, h'); }
    if Seeking(s'.threads[t]) && !retry { StaysHalfDone(s, s', t, s.head); }
  }

  lemma HoldsOf(s: State, trace: seq<Event>, h: History, retry: bool)
    requires Inv(s, trace, h, retry)
    ensures Holds(s, trace, h, retry)
  {}

  lemma ThreadOpen(s: State, trace: seq<Event>, h: History, t: OpId, retry: bool)
    requires Holds(s, trace, h, retry) && t in s.threads
    ensures s.threads[t] != Crashed
  {
    ThreadHolds(s.next, s.prev, h, s.threads, t, retry);
  }

  lemma KeptOn(s: State, trace: seq<Event>, h: History, t: OpId, h': History)
    requires Holds(s, trace, h, false) && C.Kept(s, h) && Enabled(s, Exec(t, false)) && !C.Hasty(s, Exec(t, false))
    requires !s.threads[t].Exit?
    requires Holds(Instr(s, t, false, false), trace + [Tau], h', false) && h.chain <= h'.chain
    ensures C.Kept(Instr(s, t, false, false), h')
  {
    C.HarmlessStep(s, trace, h, Exec(t, false), h');
    C.LinkedStep(s, trace, h, Exec(t, false));
  }

  /** The counter behind n silent instructions and the return of t. */
  function SizeBehind(size: nat, n: nat, res: Res): nat {
    if n == 0 then size
    else match res
      case Ack => Increment(size)
      case Got(_) => Decrement(size)
      case Empty => size
  }

  /** t goes on alone and returns res with its instruction n + 1; if it had not counted before,
      it has then. */
  ghost predicate Finishes(acts: seq<Action>, t: OpId, retry: bool, n: nat, res: Res) {
    var r, r' := After(acts, retry), After(acts + Own(t, n + 1), retry);
    r'.trace == r.trace + Silence(n) + [Ret(t, res)] && r'.state.size == SizeBehind(r.state.size, n, res)
  }

  lemma FinishesNow(acts: seq<Action>, t: OpId, retry: bool, h: History)
    requires var s := After(acts, retry).state; t in s.threads && s.threads[t].Exit?
    ensures var s := After(acts, retry).state; 0 < Rank(s, h, t) && Finishes(acts, t, retry, 0, Answer(s, h, t))
  {
    var acts' := acts + [Exec(t, false)];
    assert acts'[..|acts'| - 1] == acts;
    assert acts + Own(t, 1) == acts';
    assert After(acts, retry).trace + Silence(0) == After(acts, retry).trace;
  }

  lemma SizeLater(size: nat, size': nat, l: Local, l': Local, k: nat, res: Res)
    requires Settled(size', l', res) == Settled(size, l, res) && !l.Exit? && l != Done && l != Crashed
    requires l' != Done && l' != Crashed && (k == 0 <==> l'.Exit?)
    ensures SizeBehind(size', k, res) == SizeBehind(size, k + 1, res)
  {}

  lemma FinishesLater(acts: seq<Action>, t: OpId, retry: bool, k: nat, res: Res)
    requires var s := After(acts, retry).state;
      t in s.threads && s.threads[t] != Done && s.threads[t] != Crashed && !s.threads[t].Exit?
    requires Finishes(acts + [Exec(t, false)], t, retry, k, res)
    requires var s, s' := After(acts, retry).state, After(acts + [Exec(t, false)], retry).state;
      SizeBehind(s'.size, k, res) == SizeBehind(s.size, k + 1, res)
    ensures Finishes(acts, t, retry, k + 1, res)
  {
    var acts' := acts + [Exec(t, false)];
    assert acts'[..|acts'| - 1] == acts;
    assert acts + Own(t, k + 2) == acts' + Own(t, k + 1);
    SilentStep(After(acts, retry).trace, k, Ret(t, res));
  }

  lemma {:induction false} Returns(acts: seq<Action>, t: OpId, retry: bool, h: History) returns (n: nat)
    requires CanGoOn(acts, t, retry) && Explained(acts, retry, h)
    requires t in After(acts, retry).state.threads && After(acts, retry).state.threads[t] != Done
    ensures var s := After(acts, retry).state;
      && n < Rank(s, h, t) && Finishes(acts, t, retry, n, Answer(s, h, t))
      && (n == 0 <==> s.threads[t].Exit?)
    decreases Rank(After(acts, retry).state, h, t)
  {
    hide Rank, Answer, Finishes, Holds, C.Kept, Settled, SizeBehind, CanGoOn, After;
    var r := After(acts, retry);
    var s := r.state;
    if s.threads[t].Exit? {
      n := 0;
      FinishesNow(acts, t, retry, h);
    } else {
      ThreadOpen(s, r.trace, h, t, retry);
      var h' := Follow(acts, t, retry, h);
      var r' := After(acts + [Exec(t, false)], retry);
      var k := Returns(acts + [Exec(t, false)], t, retry, h');
      n := k + 1;
      ThreadOpen(r'.state, r'.trace, h', t, retry);
      SizeLater(s.size, r'.state.size, s.threads[t], r'.state.threads[t], k, Answer(s, h, t));
      FinishesLater(acts, t, retry, k, Answer(s, h, t));
    }
  }

  // ----- The answer by the log -----

  lemma FirstIs(s: State, h: History)
    requires Shape(s.next, s.prev, s.head, s.detail, h)
    ensures First(h) == Effect(Content(h), Pop).1 && |Content(h)| == Gap(h)
  {
    assert Look(TheShape);
    ValuesLength(h.chain[h.b + 1..]);
    if h.b + 1 < |h.chain| { ValuesFirst(h.chain, h.b + 1); }
  }

  lemma AnswerFits(s: State, trace: seq<Event>, h: History, t: OpId, retry: bool)
    requires Holds(s, trace, h, retry) && t in s.threads && s.threads[t] != Done
    ensures Linearization(trace, h.log) && Answers(trace, h.log, |h.log|, t, Answer(s, h, t))
    ensures var phase := PhaseOf(s.threads[t]);
      phase.Pending? ==> !InLog(h.log, t) && Answer(s, h, t) == Effect(Replay([], h.log), phase.op).1
    ensures Rank(s, h, t) <= 3 * |Replay([], h.log)| + 17 && (Answer(s, h, t) == Ack ==> Rank(s, h, t) <= 8)
  {
    ThreadOpen(s, trace, h, t, retry);
    FirstIs(s, h);
    RankIsSmall(s, trace, h, t, retry);
    assert Explains(h) by { assert Look(TheLog); }
    hide Shape, Nodes, Tally, Track, Threads, OptimisticqueProof.Explained, Rank;
    TrackOrders(trace, h.log, PhasesOf(s.threads));
    PhaseHolds(trace, h.log, PhasesOf(s.threads), t);
    assert h.log[..|h.log|] == h.log;
    match PhaseOf(s.threads[t])
    case Effected(res) => EffectedAnswers(trace, h.log, t, res);
    case Pending(_) =>
  }

  lemma RankIsSmall(s: State, trace: seq<Event>, h: History, t: OpId, retry: bool)
    requires Holds(s, trace, h, retry) && t in s.threads
    ensures Rank(s, h, t) <= 3 * Gap(h) + 17 && (Answer(s, h, t) == Ack && !s.threads[t].Exit? ==> Rank(s, h, t) <= 8)
  {
    ThreadHolds(s.next, s.prev, h, s.threads, t, retry);
    Bounds(s.next, s.prev, s.head, s.detail, h);
  }

  // ----- Every push that is over is linked -----

  /** The link to a node is there when its push has stored it, and every push called has a node. */
  ghost predicate Linked(s: State, trace: seq<Event>) {
    && (forall m :: m in s.next && m.Elem? && !C.Awaits(s.threads, m) ==> C.Joined(s.next, s.prev, m))
    && (forall t, v :: Call(t, Push(v)) in trace ==> Elem(t, v) in s.next)
  }

  /** A step that allocates a node, or changes no link and moves no push on that awaits it. */
  lemma LinkedStays(s: State, s': State, trace: seq<Event>, x: Event)
    requires Linked(s, trace) && forall n :: Of(s'.next, n) == Of(s.next, n) && Of(s'.prev, n) == Of(s.prev, n)
    requires forall m :: m in s.next ==> m in s'.next
    requires forall m :: m in s'.next && m.Elem? && m !in s.next ==> C.Awaits(s'.threads, m)
    requires forall m: Node :: m.Elem? && C.Awaits(s.threads, m) ==> C.Awaits(s'.threads, m)
    requires x.Call? && x.op.Push? ==> Elem(x.t, x.op.v) in s'.next
    ensures Linked(s', trace + [x])
  {
    forall m | m in s'.next && m.Elem? && !C.Awaits(s'.threads, m) ensures C.Joined(s'.next, s'.prev, m) {
      assert C.Joined(s.next, s.prev, m);
    }
    Extend(trace, x);
  }

  lemma StartLinks(s: State, trace: seq<Event>, h: History, t: OpId, op: Op, retry: bool)
    requires Holds(s, trace, h, retry) && Linked(s, trace) && Enabled(s, Start(t, op))
    ensures Linked(Begin(s, t, op), trace + [Call(t, op)])
  {
    assert Look(TheNodes);
    LinkedStays(s, Begin(s, t, op), trace, Call(t, op));
  }

  lemma PrevLinks(s: State, trace: seq<Event>, h: History, t: OpId, retry: bool)
    requires Holds(s, trace, h, retry) && Linked(s, trace) && t in s.threads && s.threads[t].PushPrev?
    ensures Linked(Instr(s, t, false, retry), trace + [Tau])
  {
    var s' := Instr(s, t, false, retry);
    Extend(trace, Tau);
    forall m | m in s'.next && m.Elem? && !C.Awaits(s'.threads, m) ensures C.Joined(s'.next, s'.prev, m) {
      assert !C.Awaits(s.threads, m) && C.Joined(s.next, s.prev, m);
    }
  }

  lemma TrueLink(s: State, trace: seq<Event>, h: History, p: Node, n: Node, retry: bool)
    requires Holds(s, trace, h, retry) && Adjacent(h, p, n)
    ensures Of(s.prev, n) == p && (Of(s.next, p) == Null || Of(s.next, p) == n) && p in s.next
  {
    assert Look(TheShape);
    assert Following(h.chain, h.home[p]) == n;
  }

  /** A store of a true link leaves the others. */
  lemma StoreLinks(s: State, s': State, trace: seq<Event>, p: Node, n: Node)
    requires Linked(s, trace) && Of(s.prev, n) == p && (Of(s.next, p) == Null || Of(s.next, p) == n) && p in s.next
    requires s'.next == s.next[p := n] && s'.prev == s.prev
    requires forall m: Node :: m.Elem? && C.Awaits(s.threads, m) ==> C.Awaits(s'.threads, m) || m == n
    ensures Linked(s', trace + [Tau])
  {
    Extend(trace, Tau);
    forall m | m in s'.next && m.Elem? && !C.Awaits(s'.threads, m) ensures C.Joined(s'.next, s'.prev, m) {
      if m != n { assert C.Joined(s.next, s.prev, m); }
    }
  }

  lemma ExecLinks(s: State, trace: seq<Event>, h: History, t: OpId, spurious: bool, retry: bool)
    requires Holds(s, trace, h, retry) && Linked(s, trace) && Enabled(s, Exec(t, spurious))
    ensures Linked(Instr(s, t, spurious, retry), trace + [EventOf(s, Exec(t, spurious))])
  {
    hide OptimisticqueProof.Explained, Tally, Track, Nodes, Shape;
    ThreadHolds(s.next, s.prev, h, s.threads, t, retry);
    var s', l := Instr(s, t, spurious, retry), s.threads[t];
    if l.PushPrev? {
      PrevLinks(s, trace, h, t, retry);
    } else if l.PushLink? {
      TrueLink(s, trace, h, l.hp, Elem(t, l.v), retry);
      StoreLinks(s, s', trace, l.hp, Elem(t, l.v));
    } else if l.PopStore? {
      HeadIsNode(s, h, l.before);
      TrueLink(s, trace, h, l.before, l.tail, retry);
      StoreLinks(s, s', trace, l.before, l.tail);
    } else {
      LinkedStays(s, s', trace, EventOf(s, Exec(t, spurious)));
    }
  }

  lemma {:induction false} RunIsLinked(acts: seq<Action>, retry: bool)
    requires retry || Intact(acts, retry)
    ensures Linked(After(acts, retry).state, After(acts, retry).trace)
    decreases |acts|
  {
    if acts != [] {
      var r, a := After(acts[..|acts| - 1], retry), acts[|acts| - 1];
      RunIsLinked(acts[..|acts| - 1], retry);
      RunIsSimulated(acts[..|acts| - 1], retry);
      if Enabled(r.state, a) {
        var h :| Inv(r.state, r.trace, h, retry);
        if a.Start? { StartLinks(r.state, r.trace, h, a.t, a.op, retry); }
        else { ExecLinks(r.state, r.trace, h, a.t, a.spurious, retry); }
      }
    }
  }

  // ----- Main results -----

  /** In every reachable state the node of every push that has returned is linked forwards. */
  lemma PushedIsLinked(acts: seq<Action>, retry: bool, t: OpId, v: Value)
    requires retry || Intact(acts, retry)
    requires Call(t, Push(v)) in After(acts, retry).trace && Returned(After(acts, retry).trace, t)
    ensures var s := After(acts, retry).state; Elem(t, v) in s.next && Of(s.next, Of(s.prev, Elem(t, v))) == Elem(t, v)
  {
    RunIsLinked(acts, retry);
    RunIsSimulated(acts, retry);
    var r := After(acts, retry);
    var h :| Inv(r.state, r.trace, h, retry);
    ReturnedIsDone(r.state, r.trace, h, retry, t);
    assert !C.Awaits(r.state.threads, Elem(t, v));
    assert C.Joined(r.state.next, r.state.prev, Elem(t, v));
  }

  lemma ReturnedIsDone(s: State, trace: seq<Event>, h: History, retry: bool, t: OpId)
    requires Inv(s, trace, h, retry) && Returned(trace, t)
    ensures t in s.threads ==> s.threads[t] == Done
  {
    if t in s.threads {
      ThreadHolds(s.next, s.prev, h, s.threads, t, retry);
      PhaseHolds(trace, h.log, PhasesOf(s.threads), t);
    }
  }

  /** From every reachable state, with the retry or in a careful run in which no push is half done
      behind the head of a pop, an operation that goes on alone returns: a push within 8
      instructions, a pop within a number that depends on how many elements are left.  Its answer
      is that of a linearization of what has happened so far, and it has counted. */
  lemma OperationsFinishAlone(acts: seq<Action>, t: OpId, retry: bool)
    requires CanGoOn(acts, t, retry)
    requires t in After(acts, retry).state.threads && After(acts, retry).state.threads[t] != Done
    ensures var trace := After(acts, retry).trace;
      exists n: nat, res, log ::
        && Finishes(acts, t, retry, n, res) && n < 3 * |Replay([], log)| + 17 && (res == Ack ==> n < 8)
        && Linearization(trace, log) && Answers(trace, log, |log|, t, res)
  {
    var h := RunIsExplained(acts, retry);
    var r := After(acts, retry);
    AnswerFits(r.state, r.trace, h, t, retry);
    hide Holds, Rank, Answer, Finishes, Answers;
    var n := Returns(acts, t, retry, h);
  }

  lemma Called(acts: seq<Action>, t: OpId, op: Op, retry: bool)
    requires t !in After(acts, retry).state.threads && op != Clear
    requires retry || C.Careful(acts)
    requires var s := After(acts, retry).state; retry || (op.Pop? ==> !C.HalfDone(s.threads, s.head))
    ensures var r, r' := After(acts, retry), After(acts + [Start(t, op)], retry);
      && t in r'.state.threads && PhaseOf(r'.state.threads[t]) == Pending(op)
      && r'.trace == r.trace + [Call(t, op)] && CanGoOn(acts + [Start(t, op)], t, retry)
      && r'.state.size == r.state.size && (retry || C.Careful(acts + [Start(t, op)]))
  {
    var acts' := acts + [Start(t, op)];
    assert acts'[..|acts'| - 1] == acts;
  }

  /** A push or a pop that is called and then goes on alone answers what the sequential queue
      answers behind a linearization of everything so far: a pop gets the first element that is
      left, or "empty" if none is.  The counter has gone one up, one down, or stayed. */
  lemma CallsAreAnsweredAlone(acts: seq<Action>, t: OpId, op: Op, retry: bool)
    requires t !in After(acts, retry).state.threads && op != Clear
    requires retry || C.Careful(acts)
    requires var s := After(acts, retry).state; retry || (op.Pop? ==> !C.HalfDone(s.threads, s.head))
    ensures exists n: nat, log ::
      && n > 0 && n < 3 * |Replay([], log)| + 17 && (op.Push? ==> n < 8) && Linearization(After(acts, retry).trace, log)
      && Finishes(acts + [Start(t, op)], t, retry, n, Effect(Replay([], log), op).1)
    ensures var r, r' := After(acts, retry), After(acts + [Start(t, op)], retry);
      r'.trace == r.trace + [Call(t, op)] && r'.state.size == r.state.size
  {
    var acts' := acts + [Start(t, op)];
    Called(acts, t, op, retry);
    hide After, Holds, Rank, Answer, Finishes, CanGoOn, C.Careful;
    var h := RunIsExplained(acts', retry);
    var r' := After(acts', retry);
    AnswerFits(r'.state, r'.trace, h, t, retry);
    OrdersBeforeCall(After(acts, retry).trace, h.log, t, op);
    var n := Returns(acts', t, retry, h);
  }
}
