/** An operation of swapque that goes on alone, while nobody else holds the mutex, returns, is
    counted, and answers what the history gives. */
module SwapqueProgress {
  import opened Linearizability
  import opened NodeChains
  import opened Counting
  import opened SharedMutex
  import opened Swapque
  import opened SwapqueProof

  /** t alone takes n steps, none of them a spurious failure. */
  function Own(t: OpId, n: nat): seq<Action> { seq(n, _ => Exec(t, false)) }

  predicate Entering(l: Local) { l.PushTry? || l.PushExchange? || l.PushLink? || l.PushCount? }

  /** Nobody but t holds the mutex, and the counter of elements is not at its end. */
  predicate Free(s: State, t: OpId)
    requires t in s.threads
  {
    && s.readers <= {t} && (s.writer ==> HoldsUnique(s.threads[t]))
    && (Entering(s.threads[t]) ==> s.size + 1 < WORD)
  }

  // ----- How many instructions are left -----

  predicate FrontEmpty(s: State) { s.front.begin == s.front.end }

  predicate BackEmpty(s: State) { s.back.begin == s.back.end }

  /** From the start of a round of a pop: swap once if the front has nothing left. */
  function BeginRank(s: State): nat {
    if !FrontEmpty(s) then 8 else if s.size == 0 then 5 else 16
  }

  function SwappedRank(s: State): nat {
    if !BackEmpty(s) then 8 else if s.size == 0 then 5 else 16
  }

  function SeekRank(s: State, l: Local): nat {
    match l
    case PopStart => if s.size == 0 then 2 else 2 + BeginRank(s)
    case PopTry => 1 + BeginRank(s)
    case PopBegin => BeginRank(s)
    case PopEnd(n0) => if n0 == s.front.begin then BeginRank(s) - 1 else 2 + BeginRank(s)
    case PopNext(n0) => if n0 == s.front.begin then 6 else 1 + BeginRank(s)
    case PopCas(n0, _) => if n0 == s.front.begin then 5 else BeginRank(s)
    case PopSize => if s.size == 0 then 3 else 6 + SwappedRank(s)
    case PopUnlock => 5 + SwappedRank(s)
    case PopTryUnique => 4 + SwappedRank(s)
    case PopSwap => 3 + SwappedRank(s)
    case PopUnlockUnique => 2 + BeginRank(s)
    case PopRelock => 1 + BeginRank(s)
    case _ => 0
  }

  function ActRank(l: Local): nat {
    match l
    case PushTry(_) => 6
    case PushExchange(_) => 5
    case PushLink(_, _) => 4
    case PushCount(_) => 3
    case PushUnlock => 2
    case PopTake(_) => 4
    case PopCount(_) => 3
    case PopRelease(_) => 2
    case Exit(_) => 1
    case _ => 0
  }

  function Rank(s: State, t: OpId): nat
    requires t in s.threads
  {
    if Popping(s.threads[t]) then SeekRank(s, s.threads[t]) else ActRank(s.threads[t])
  }

  // ----- What it will answer, and the counter behind it -----

  function Behind(s: State, n: Node): Res {
    var m := Of(s.next, n);
    if m.Elem? then Got(m.data) else Empty
  }

  function First(s: State): Res {
    if !FrontEmpty(s) then Behind(s, s.front.begin) else if !BackEmpty(s) then Behind(s, s.back.begin) else Empty
  }

  /** A pop that has found the front empty swaps, even if others have swapped since. */
  function Answer(s: State, t: OpId): Res
    requires t in s.threads
  {
    var l := s.threads[t];
    if Popping(l) then
      (if FoundFrontEmpty(l) && !FrontEmpty(s) && !BackEmpty(s) then Behind(s, s.back.begin) else First(s))
    else if l.PopTake? then (if l.n1.Elem? then Got(l.n1.data) else Empty)
    else if l.PopCount? then Got(l.v)
    else if l.PopRelease? || l.Exit? then l.res
    else Ack
  }

  predicate HasCounted(l: Local) { l.PushUnlock? || l.PopRelease? || l.Exit? || l.Done? }

  /** The counter when the operation at l, with this answer, has counted. */
  function Settled(size: nat, l: Local, res: Res): nat {
    if HasCounted(l) then size
    else match res
      case Ack => Increment(size)
      case Got(_) => Decrement(size)
      case Empty => size
  }

  // ----- Each instruction brings it closer -----

  predicate Goes(s: State, t: OpId)
    requires t in s.threads
  {
    var s' := Instr(s, t, false);
    && Rank(s', t) < Rank(s, t) && Answer(s', t) == Answer(s, t) && s'.threads[t] != Done && Free(s', t)
    && Settled(s'.size, s'.threads[t], Answer(s, t)) == Settled(s.size, s.threads[t], Answer(s, t))
  }

  lemma OthersFindNothing(s: State, t: OpId)
    requires t in s.threads && !FoundFrontEmpty(s.threads[t]) && !s.threads[t].PopEnd?
    ensures !FoundFrontEmpty(Instr(s, t, false).threads[t])
  {
    match s.threads[t]
    case PushTry(_) =>
    case PopTry =>
    case PopCas(_, _) =>
    case _ =>
  }

  lemma FoundStaysFound(s: State, t: OpId)
    requires t in s.threads && (FoundFrontEmpty(s.threads[t]) || s.threads[t].PopEnd?)
    requires FoundFrontEmpty(Instr(s, t, false).threads[t])
    ensures Instr(s, t, false).front == s.front && Instr(s, t, false).back == s.back
    ensures s.threads[t].PopEnd? ==> s.threads[t].n0 == s.front.end
  {}

  /** A pop that finds the front empty on its own way has one side empty when it swaps. */
  lemma StaysClean(s: State, t: OpId)
    requires t in s.threads && (FoundFrontEmpty(s.threads[t]) ==> OneSideEmpty(s))
    requires s.threads[t].PopEnd? && s.threads[t].n0 == s.front.end ==> FrontEmpty(s)
    ensures var s' := Instr(s, t, false); FoundFrontEmpty(s'.threads[t]) ==> OneSideEmpty(s')
  {
    hide Instr;
    if FoundFrontEmpty(s.threads[t]) || s.threads[t].PopEnd? {
      if FoundFrontEmpty(Instr(s, t, false).threads[t]) { FoundStaysFound(s, t); }
    } else {
      OthersFindNothing(s, t);
    }
  }

  lemma PushGoes(s: State, t: OpId)
    requires t in s.threads && Free(s, t) && (s.threads[t].PushTry? || s.threads[t].PushExchange?)
    ensures Goes(s, t)
  {}

  lemma AddedGoes(s: State, t: OpId)
    requires t in s.threads && Free(s, t)
    requires s.threads[t].PushLink? || s.threads[t].PushCount? || s.threads[t].PushUnlock?
    ensures Goes(s, t)
  {}

  /** The counter and the chains agree about whether anything is left. */
  predicate Agrees(s: State) { s.size == 0 <==> FrontEmpty(s) && BackEmpty(s) }

  lemma StartGoes(s: State, t: OpId)
    requires t in s.threads && Free(s, t) && Agrees(s)
    requires s.threads[t].PopStart? || s.threads[t].PopTry? || s.threads[t].PopRelock?
    ensures Goes(s, t)
  {}

  lemma SearchGoes(s: State, t: OpId)
    requires t in s.threads && Free(s, t) && Agrees(s)
    requires match s.threads[t]
      case PopBegin => true
      case PopEnd(n0) => n0 == s.front.end ==> n0 == s.front.begin
      case PopSize => true
      case _ => false
    ensures Goes(s, t)
  {}

  lemma UnlockGoes(s: State, t: OpId)
    requires t in s.threads && Free(s, t) && (s.threads[t].PopUnlock? || s.threads[t].PopUnlockUnique?)
    ensures Goes(s, t)
  {}

  lemma SwapGoes(s: State, t: OpId)
    requires t in s.threads && Free(s, t)
    requires s.threads[t].PopSwap? || (s.threads[t].PopTryUnique? && s.readers == {})
    ensures Goes(s, t)
  {}

  lemma TakeGoes(s: State, t: OpId)
    requires t in s.threads && Free(s, t)
    requires match s.threads[t]
      case PopNext(n0) => n0 == s.front.begin ==> !FrontEmpty(s)
      case PopCas(n0, n1) => n0 == s.front.begin ==> !FrontEmpty(s) && Of(s.next, n0) == n1 && n1.Elem?
      case _ => false
    ensures Goes(s, t)
  {}

  lemma TakenGoes(s: State, t: OpId)
    requires t in s.threads && Free(s, t)
    requires var l := s.threads[t]; (l.PopTake? && l.n1.Elem?) || l.PopCount? || l.PopRelease?
    ensures Goes(s, t)
  {}

  // ----- What the invariant says for it -----

  /** While nobody else holds the mutex everything pushed is counted. */
  lemma OthersRest(s: State, t: OpId)
    requires Locks(s.readers, s.writer, s.threads, HoldsShared, HoldsUnique) && t in s.threads && Free(s, t)
    requires Popping(s.threads[t])
    ensures AtRest(s.threads)
  {
    assert Inside(0);
    forall u | u in s.threads
      ensures !s.threads[u].PushLink? && !s.threads[u].PushCount? && !s.threads[u].PopTake? && !s.threads[u].PopCount?
    {
      if HoldsShared(s.threads[u]) { assert u in s.readers; }
    }
  }

  lemma SearchesUnlocked(s: State, t: OpId)
    requires Locks(s.readers, s.writer, s.threads, HoldsShared, HoldsUnique) && t in s.threads && Free(s, t)
    requires s.threads[t].PopTryUnique?
    ensures s.readers == {}
  {
    assert Inside(0);
  }

  lemma AllIsLeft(h: History)
    requires h.f.b < |h.f.chain| && h.k.b <= h.com == |h.k.chain| - 1
    requires forall i :: 0 < i < |h.f.chain| ==> h.f.chain[i].Elem?
    requires forall i :: 0 < i < |h.k.chain| ==> h.k.chain[i].Elem?
    ensures Content(h) == Rest(h.f) + Rest(h.k)
    ensures |Rest(h.f)| == |h.f.chain| - 1 - h.f.b && |Rest(h.k)| == |h.k.chain| - 1 - h.k.b
  {
    ValuesLength(h.f.chain[h.f.b + 1..]);
    ValuesLength(h.k.chain[h.k.b + 1..]);
    assert h.k.chain[h.k.b + 1..h.com + 1] == h.k.chain[h.k.b + 1..];
  }

  lemma Left(s: State, h: History)
    requires Shape(s.next, s.front, s.back, s.threads, h) && Books(s.size, h, s.threads) && AtRest(s.threads)
    ensures h.f.b < |h.f.chain| && h.k.b < |h.k.chain|
    ensures Content(h) == Rest(h.f) + Rest(h.k)
    ensures FrontEmpty(s) <==> h.f.b == |h.f.chain| - 1
    ensures BackEmpty(s) <==> h.k.b == |h.k.chain| - 1
    ensures |Rest(h.f)| == |h.f.chain| - 1 - h.f.b && |Rest(h.k)| == |h.k.chain| - 1 - h.k.b
  {
    Bounds(s.next, s.front, s.back, s.threads, h);
    PointersMeet(s, h);
    assert Booked(h, s.threads) by { assert Look(TheLedger); }
    AllHaveEffect(h, s.threads);
    hide Shape, Booked, AtRest, Books, Content, Rest;
    AllIsLeft(h);
  }

  lemma SizeAgrees(s: State, trace: seq<Event>, h: History, mode: Mode, t: OpId)
    requires Holds(s, trace, h, mode) && t in s.threads && Free(s, t) && Popping(s.threads[t])
    ensures Agrees(s)
  {
    OthersRest(s, t);
    RestedSize(s, h);
    hide Shape, Ledger, Tally, Nodes, SwapqueProof.Explained, Track, Placed, Content, Rest;
    Left(s, h);
  }

  lemma TakeFacts(s: State, trace: seq<Event>, h: History, mode: Mode, t: OpId)
    requires Holds(s, trace, h, mode) && t in s.threads
    ensures match s.threads[t]
      case PopEnd(n0) => n0 == s.front.end ==> n0 == s.front.begin
      case PopNext(n0) => n0 == s.front.begin ==> !FrontEmpty(s)
      case PopCas(n0, n1) => n0 == s.front.begin ==> !FrontEmpty(s) && Of(s.next, n0) == n1 && n1.Elem?
      case PopTake(n1) => n1.Elem?
      case _ => true
  {
    hide Shape, Ledger, Tally, Nodes, SwapqueProof.Explained, Track, Placed;
    ThreadHolds(s.next, h, s.threads, t);
    BeginIsOn(s, h);
    PointersMeet(s, h);
    Bounds(s.next, s.front, s.back, s.threads, h);
    var l := s.threads[t];
    if l.PopCas? && l.n0 == s.front.begin { NextIsOn(s, h, l.n0); }
  }

  lemma Step(s: State, trace: seq<Event>, h: History, mode: Mode, t: OpId)
    requires Holds(s, trace, h, mode) && t in s.threads && Free(s, t) && s.threads[t] != Done && !s.threads[t].Exit?
    ensures Goes(s, t)
  {
    hide Goes, Free, Agrees;
    TakeFacts(s, trace, h, mode, t);
    var l := s.threads[t];
    if Popping(l) { SizeAgrees(s, trace, h, mode, t); }
    if l.PopTryUnique? { SearchesUnlocked(s, t); }
    hide Holds, FrontEmpty, Popping;
    if l.PushTry? || l.PushExchange? {
      PushGoes(s, t);
    } else if l.PushLink? || l.PushCount? || l.PushUnlock? {
      AddedGoes(s, t);
    } else if l.PopStart? || l.PopTry? || l.PopRelock? {
      StartGoes(s, t);
    } else if l.PopBegin? || l.PopEnd? || l.PopSize? {
      SearchGoes(s, t);
    } else if l.PopUnlock? || l.PopUnlockUnique? {
      UnlockGoes(s, t);
    } else if l.PopTryUnique? || l.PopSwap? {
      SwapGoes(s, t);
    } else if l.PopNext? || l.PopCas? {
      TakeGoes(s, t);
    } else {
      TakenGoes(s, t);
    }
  }

  // ----- Runs -----

  /** t can go on alone: nobody else holds the mutex, and in a run in which swaps have to be clean,
      the swap it is about to do is. */
  predicate CanGoOn(s: State, t: OpId, mode: Mode) {
    t in s.threads && Free(s, t) && (mode.CleanSwap? && FoundFrontEmpty(s.threads[t]) ==> OneSideEmpty(s))
  }

  lemma Follow(acts: seq<Action>, t: OpId, mode: Mode)
    requires var s := After(acts, mode).state; CanGoOn(s, t, mode) && s.threads[t] != Done && !s.threads[t].Exit?
    ensures var s, s' := After(acts, mode).state, After(acts + [Exec(t, false)], mode).state;
      && CanGoOn(s', t, mode) && s'.threads[t] != Done
      && Rank(s', t) < Rank(s, t) && Answer(s', t) == Answer(s, t)
      && Settled(s'.size, s'.threads[t], Answer(s, t)) == Settled(s.size, s.threads[t], Answer(s, t))
    ensures After(acts + [Exec(t, false)], mode).trace == After(acts, mode).trace + [Tau]
  {
    hide Rank, Answer, Settled, Instr;
    var acts', r := acts + [Exec(t, false)], After(acts, mode);
    assert acts'[..|acts'| - 1] == acts;
    RunIsSimulated(acts, mode);
    var h :| Inv(r.state, r.trace, h, mode);
    Step(r.state, r.trace, h, mode, t);
    TakeFacts(r.state, r.trace, h, mode, t);
    if mode.CleanSwap? { StaysClean(r.state, t); }
    hide Inv;
    assert After(acts', mode).state == Instr(r.state, t, false);
  }

  /** t goes on alone, returns res with its instruction n + 1 and leaves the counter at size. */
  ghost predicate Finishes(acts: seq<Action>, t: OpId, mode: Mode, n: nat, res: Res, size: nat) {
    var r, r' := After(acts, mode), After(acts + Own(t, n + 1), mode);
    r'.trace == r.trace + Silence(n) + [Ret(t, res)] && r'.state.size == size
  }

  lemma FinishesNow(acts: seq<Action>, t: OpId, mode: Mode)
    requires var s := After(acts, mode).state; t in s.threads && s.threads[t].Exit?
    ensures var s := After(acts, mode).state;
      0 < Rank(s, t) && Finishes(acts, t, mode, 0, Answer(s, t), Settled(s.size, s.threads[t], Answer(s, t)))
  {
    var acts' := acts + [Exec(t, false)];
    assert acts'[..|acts'| - 1] == acts;
    assert acts + Own(t, 1) == acts';
    assert After(acts, mode).trace + Silence(0) == After(acts, mode).trace;
  }

  lemma FinishesLater(acts: seq<Action>, t: OpId, mode: Mode, k: nat, res: Res, size: nat)
    requires Finishes(acts + [Exec(t, false)], t, mode, k, res, size)
    requires After(acts + [Exec(t, false)], mode).trace == After(acts, mode).trace + [Tau]
    ensures Finishes(acts, t, mode, k + 1, res, size)
  {
    hide After;
    assert acts + Own(t, k + 2) == acts + [Exec(t, false)] + Own(t, k + 1);
    SilentStep(After(acts, mode).trace, k, Ret(t, res));
  }

  lemma {:induction false} Returns(acts: seq<Action>, t: OpId, mode: Mode) returns (n: nat)
    requires CanGoOn(After(acts, mode).state, t, mode) && After(acts, mode).state.threads[t] != Done
    ensures var s := After(acts, mode).state;
      n < Rank(s, t) && Finishes(acts, t, mode, n, Answer(s, t), Settled(s.size, s.threads[t], Answer(s, t)))
    decreases Rank(After(acts, mode).state, t)
  {
    hide Rank, Answer, Finishes, Settled, Free, After;
    var s := After(acts, mode).state;
    if s.threads[t].Exit? {
      n := 0;
      FinishesNow(acts, t, mode);
    } else {
      Follow(acts, t, mode);
      var k := Returns(acts + [Exec(t, false)], t, mode);
      n := k + 1;
      FinishesLater(acts, t, mode, k, Answer(s, t), Settled(s.size, s.threads[t], Answer(s, t)));
    }
  }

  // ----- The answer by the log -----

  lemma FrontFirst(s: State, h: History)
    requires Shape(s.next, s.front, s.back, s.threads, h) && h.f.b + 1 < |h.f.chain|
    ensures Rest(h.f) != [] && Behind(s, s.front.begin) == Got(Rest(h.f)[0])
  {
    assert Look(TheShape);
    assert s.next[h.f.chain[h.f.b]] == Following(h.f.chain, h.f.b);
    ValuesFirst(h.f.chain, h.f.b + 1);
  }

  lemma BackFirst(s: State, h: History)
    requires Shape(s.next, s.front, s.back, s.threads, h) && h.k.b + 1 < |h.k.chain| && AtRest(s.threads)
    ensures Rest(h.k) != [] && Behind(s, s.back.begin) == Got(Rest(h.k)[0])
  {
    assert Look(TheShape);
    assert s.next[h.k.chain[h.k.b]] == Following(h.k.chain, h.k.b);
    ValuesFirst(h.k.chain, h.k.b + 1);
  }

  /** What a pop that has not taken effect goes on to answer. */
  lemma PopAnswer(s: State, trace: seq<Event>, h: History, mode: Mode, t: OpId)
    requires Holds(s, trace, h, mode) && t in s.threads && Free(s, t) && Popping(s.threads[t])
    ensures s.size == |Content(h)| && (Answer(s, t) == Empty <==> Content(h) == [])
    ensures Answer(s, t).Got? ==> Answer(s, t).v in Content(h)
    ensures (FoundFrontEmpty(s.threads[t]) && !OneSideEmpty(s)) || Answer(s, t) == Effect(Content(h), Pop).1
  {
    OthersRest(s, t);
    RestedSize(s, h);
    hide Shape, Ledger, Tally, Nodes, SwapqueProof.Explained, Track, Placed, Content, Rest, Behind;
    Left(s, h);
    if !FrontEmpty(s) { FrontFirst(s, h); }
    if !BackEmpty(s) { BackFirst(s, h); }
  }

  /** res is what a pop may answer when the log leaves q. */
  ghost predicate Fits(log: seq<Entry>, q: seq<Value>, t: OpId, op: Op, res: Res, ordered: bool) {
    if InLog(log, t) then Entry(t, op, res) in log
    else if op.Pop? then
      (res == Empty <==> q == []) && (res.Got? ==> res.v in q) && (ordered ==> res == Effect(q, Pop).1)
    else res == Ack
  }

  lemma AnswerFits(s: State, trace: seq<Event>, h: History, mode: Mode, t: OpId)
    requires Holds(s, trace, h, mode) && CanGoOn(s, t, mode) && s.threads[t] != Done
    ensures Orders(trace, h.log) && Leaves(h.log, mode, Content(h))
    ensures exists op ::
      Call(t, op) in trace && Fits(h.log, Content(h), t, op, Answer(s, t), mode != AnySwap || OneSideEmpty(s))
  {
    var l := s.threads[t];
    if Popping(l) { PopAnswer(s, trace, h, mode, t); }
    if mode.OnePop? && FoundFrontEmpty(l) {
      FoundStays(s.threads, h, t);
      PointersMeet(s, h);
    }
    assert Explains(h, mode) by { assert Look(TheLog); }
    PhaseIs(s, trace, h, mode, t);
    hide Inv, Answer, Content;
    TrackOrders(trace, h.log, PhasesOf(s.threads, h.done));
    PhaseHolds(trace, h.log, PhasesOf(s.threads, h.done), t);
    match PhaseOf(l, t in h.done)
    case Effected(res) =>
      var op :| Entry(t, op, res) in h.log;
      var i :| 0 <= i < |h.log| && h.log[i] == Entry(t, op, res);
      assert InLog(h.log, t) && Call(t, op) in trace;
    case Pending(op) =>
      assert Call(t, op) in trace;
  }

  lemma PhaseIs(s: State, trace: seq<Event>, h: History, mode: Mode, t: OpId)
    requires Holds(s, trace, h, mode) && t in s.threads && s.threads[t] != Done
    ensures match PhaseOf(s.threads[t], t in h.done)
      case Effected(res) => res == Answer(s, t)
      case Pending(op) => if Popping(s.threads[t]) then op == Pop else op.Push? && Answer(s, t) == Ack
      case _ => false
  {
    TakeFacts(s, trace, h, mode, t);
  }

  lemma RankIsSmall(s: State, t: OpId)
    requires t in s.threads
    ensures Rank(s, t) <= 22
  {}

  // ----- Main results -----

  /** From every reachable state in which nobody else holds the mutex an operation that goes on
      alone returns within 22 instructions and is counted.  A push answers Ack; a pop finds nothing
      exactly if nothing is left, and otherwise gets something that is, the first element if the
      run keeps the order or one side is empty. */
  lemma OperationsFinishAlone(acts: seq<Action>, t: OpId, mode: Mode)
    requires CanGoOn(After(acts, mode).state, t, mode) && After(acts, mode).state.threads[t] != Done
    ensures var r := After(acts, mode);
      exists n: nat, res, log, q, op ::
        && n < 22 && Finishes(acts, t, mode, n, res, Settled(r.state.size, r.state.threads[t], res))
        && Orders(r.trace, log) && Leaves(log, mode, q)
        && Call(t, op) in r.trace && Fits(log, q, t, op, res, mode != AnySwap || OneSideEmpty(r.state))
  {
    RunIsSimulated(acts, mode);
    var r := After(acts, mode);
    var h :| Inv(r.state, r.trace, h, mode);
    AnswerFits(r.state, r.trace, h, mode, t);
    RankIsSmall(r.state, t);
    hide Inv, Answer, Rank, Settled, Finishes, Fits, Leaves, Content, Free, After;
    var n := Returns(acts, t, mode);
  }

  lemma Called(acts: seq<Action>, t: OpId, op: Op, mode: Mode)
    requires var s := After(acts, mode).state; Enabled(s, Start(t, op), mode) && s.readers == {} && !s.writer
    requires op.Push? ==> After(acts, mode).state.size + 1 < WORD
    ensures var r, r' := After(acts, mode), After(acts + [Start(t, op)], mode);
      && r'.trace == r.trace + [Call(t, op)] && r'.state.size == r.state.size
      && CanGoOn(r'.state, t, mode) && r'.state.threads[t] == (if op.Push? then PushTry(op.v) else PopStart)
  {
    var acts' := acts + [Start(t, op)];
    assert acts'[..|acts'| - 1] == acts;
  }

  lemma FreshAnswer(s: State, trace: seq<Event>, h: History, mode: Mode, t: OpId, op: Op)
    requires Holds(s, trace + [Call(t, op)], h, mode) && CanGoOn(s, t, mode) && !op.Clear?
    requires s.threads[t] == if op.Push? then PushTry(op.v) else PopStart
    ensures Orders(trace, h.log) && Leaves(h.log, mode, Content(h))
    ensures Answer(s, t) == Effect(Content(h), op).1
  {
    AnswerFits(s, trace + [Call(t, op)], h, mode, t);
    if op.Pop? { PopAnswer(s, trace + [Call(t, op)], h, mode, t); }
    PhaseHolds(trace + [Call(t, op)], h.log, PhasesOf(s.threads, h.done), t);
    if op.Push? { PushIsPending(s, trace + [Call(t, op)], h, mode, t); }
    OrdersBeforeCall(trace, h.log, t, op);
  }

  lemma PushIsPending(s: State, trace: seq<Event>, h: History, mode: Mode, t: OpId)
    requires Holds(s, trace, h, mode) && t in s.threads && s.threads[t].PushTry?
    ensures t !in h.done
  {
    assert Look(TheLedger);
  }

  lemma CountedIs(s: State, trace: seq<Event>, h: History, mode: Mode, t: OpId)
    requires Holds(s, trace, h, mode) && CanGoOn(s, t, mode) && Popping(s.threads[t])
    ensures s.size == |Content(h)| < WORD
  {
    PopAnswer(s, trace, h, mode, t);
    assert Look(TheTally);
  }

  function SizeAfter(size: nat, op: Op, q: seq<Value>): nat {
    if op.Push? then size + 1 else if q == [] || size == 0 then size else size - 1
  }

  /** t, called with op, goes on alone and answers what the sequential queue answers behind q. */
  ghost predicate Answered(acts: seq<Action>, t: OpId, op: Op, mode: Mode, n: nat, q: seq<Value>) {
    && Finishes(acts + [Start(t, op)], t, mode, n, Effect(q, op).1, SizeAfter(After(acts, mode).state.size, op, q))
    && After(acts + [Start(t, op)], mode).trace == After(acts, mode).trace + [Call(t, op)]
    && (op.Pop? ==> After(acts, mode).state.size == |q|)
  }

  lemma SettledIs(s: State, t: OpId, op: Op, q: seq<Value>)
    requires t in s.threads && s.threads[t] == (if op.Push? then PushTry(op.v) else PopStart) && !op.Clear?
    requires s.size < WORD && (op.Push? ==> s.size + 1 < WORD) && (op.Pop? ==> s.size == |q|)
    ensures Settled(s.size, s.threads[t], Effect(q, op).1) == SizeAfter(s.size, op, q)
  {}

  lemma FreshReturns(acts: seq<Action>, t: OpId, op: Op, mode: Mode) returns (n: nat, log: seq<Entry>, q: seq<Value>)
    requires var s := After(acts, mode).state; Enabled(s, Start(t, op), mode) && s.readers == {} && !s.writer
    requires op.Push? ==> After(acts, mode).state.size + 1 < WORD
    ensures n < 22 && Orders(After(acts, mode).trace, log) && Leaves(log, mode, q) && Answered(acts, t, op, mode, n, q)
  {
    Called(acts, t, op, mode);
    var acts' := acts + [Start(t, op)];
    assert !op.Clear?;
    hide After, Answer, Rank, Free, Finishes, Content, Fits, Enabled, Settled, Explains, Leaves;
    RunIsSimulated(acts', mode);
    var r' := After(acts', mode);
    var h :| Inv(r'.state, r'.trace, h, mode);
    HoldsOf(r'.state, r'.trace, h, mode);
    hide Inv;
    FreshAnswer(r'.state, After(acts, mode).trace, h, mode, t, op);
    if op.Pop? { CountedIs(r'.state, r'.trace, h, mode, t); }
    RankIsSmall(r'.state, t);
    n := Returns(acts', t, mode);
    log, q := h.log, Content(h);
    SettledIs(r'.state, t, op, q);
  }

  lemma HoldsOf(s: State, trace: seq<Event>, h: History, mode: Mode)
    requires Inv(s, trace, h, mode)
    ensures Holds(s, trace, h, mode)
  {}

  /** A push or a pop that is called while nobody holds the mutex and then goes on alone answers
      what the sequential queue answers behind an order of everything so far: a pop gets the first
      element that is left, or "empty" if none is.  The counter goes one up, one down, or stays. */
  lemma CallsAreAnsweredAlone(acts: seq<Action>, t: OpId, op: Op, mode: Mode)
    requires var s := After(acts, mode).state; Enabled(s, Start(t, op), mode) && s.readers == {} && !s.writer
    requires op.Push? ==> After(acts, mode).state.size + 1 < WORD
    ensures exists n: nat, log, q ::
      n < 22 && Orders(After(acts, mode).trace, log) && Leaves(log, mode, q) && Answered(acts, t, op, mode, n, q)
  {
    var n, log, q := FreshReturns(acts, t, op, mode);
  }
}
