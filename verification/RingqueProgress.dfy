/** An operation of ringque that goes on alone, in a run without a flaw and while nobody else holds
    the mutex, returns, is counted, and answers what the history gives, unless it is about to do
    harm; and a push that doubles the array without end. */
module RingqueProgress {
  import opened Linearizability
  import opened Counting
  import opened SharedMutex
  import opened Ringque
  import opened RingqueResize
  import opened RingqueFlaws
  import opened RingqueProof

  /** t alone takes n steps, none of them a spurious failure. */
  function Own(t: OpId, n: nat): seq<Action> { seq(n, _ => Exec(t, false)) }

  /** What t has read does no harm: a slide that looks full has push below pop, a claim has not
      become one of the last slot, and a tail is still the tail. */
  predicate Passable(push: nat, pop: nat, max: nat, l: Local) {
    match l
    case PushCheck(_, slide, newslide) => newslide == slide + 1 && (newslide == pop ==> push < pop)
    case PushUnlock(_, slide, newslide) => newslide == slide + 1 && (newslide == pop ==> push < pop)
    case PushTry(_, slide, newslide) => newslide == slide + 1 && (newslide == pop ==> push < pop)
    case PushRecheck(_, slide, newslide) => newslide == slide + 1 && (newslide == pop ==> push < pop)
    case PushResize(_, slide, newslide) => newslide == slide + 1 && newslide == pop && push < pop
    case PushRelease(_, slide, newslide) => newslide == slide + 1 && (newslide == pop ==> push < pop)
    case PushRelock(_, slide, newslide) => newslide == slide + 1 && (newslide == pop ==> push < pop)
    case PushClaim(_, slide, newslide) => newslide == slide + 1 && (slide == push ==> newslide != pop)
    case PopCheck(_, slidetail) => slidetail == Tail(pop, max)
    case PopClaim(slide, slidetail) => slidetail == Tail(pop, max) && (slide == pop ==> slidetail != push)
    case _ => true
  }

  /** Nobody but t holds the mutex, and what t has read does no harm. */
  predicate CanGoOn(s: State, t: OpId) {
    && t in s.threads && s.readers <= {t} && (s.writer ==> HoldsUnique(s.threads[t]))
    && Passable(s.push, s.pop, |s.que|, s.threads[t])
  }

  // ----- How many instructions are left -----

  /** From a test that passes: claim at once, or fail, read the slide and perhaps double first. */
  function ClaimRank(push: nat, pop: nat, slide: nat): nat {
    if slide == push then 5 else if push + 1 == pop then 14 else 7
  }

  /** Behind a resize. */
  function DoubledRank(push: nat, slide: nat): nat {
    if slide == push then 6 else 8
  }

  function CheckRank(push: nat, pop: nat, slide: nat): nat {
    if slide + 1 == pop then 7 + DoubledRank(push, slide) else 1 + ClaimRank(push, pop, slide)
  }

  function PushRank(push: nat, pop: nat, l: Local): nat {
    match l
    case PushLock(_) => 2 + CheckRank(push, pop, push)
    case PushLoad(_) => 1 + CheckRank(push, pop, push)
    case PushCheck(_, slide, _) => CheckRank(push, pop, slide)
    case PushUnlock(_, slide, _) =>
      if slide + 1 == pop then 6 + DoubledRank(push, slide) else 5 + CheckRank(push, pop, slide)
    case PushTry(_, slide, _) =>
      if slide + 1 == pop then 5 + DoubledRank(push, slide) else 4 + CheckRank(push, pop, slide)
    case PushRecheck(_, slide, _) =>
      if slide + 1 == pop then 4 + DoubledRank(push, slide) else 3 + CheckRank(push, pop, slide)
    case PushResize(_, slide, _) => 3 + DoubledRank(push, slide)
    case PushRelease(_, slide, _) => 2 + CheckRank(push, pop, slide)
    case PushRelock(_, slide, _) => 1 + CheckRank(push, pop, slide)
    case PushClaim(_, slide, _) => ClaimRank(push, pop, slide)
    case PushFill(_, _) => 4
    case PushCount => 3
    case PushExit => 2
    case _ => 0
  }

  function Rank(s: State, t: OpId): nat
    requires t in s.threads
  {
    match s.threads[t]
    case PopLock => 8
    case PopLoad => 7
    case PopCheck(slide, _) => if slide == s.pop then 6 else 8
    case PopClaim(slide, _) => if slide == s.pop then 5 else 7
    case PopTake(_) => 4
    case PopCount(_) => 3
    case PopExit(_) => 2
    case Exit(_) => 1
    case _ => PushRank(s.push, s.pop, s.threads[t])
  }

  // ----- What it will answer, and the counter behind it -----

  function Taken(slot: Slot): Res {
    if slot.Full? then Got(slot.v) else Empty
  }

  function First(s: State): Res {
    var tail := Tail(s.pop, |s.que|);
    if tail == s.push then Empty else Taken(SlotAt(s.que, tail))
  }

  predicate Seeking(l: Local) { l.PopLock? || l.PopLoad? || l.PopCheck? || l.PopClaim? }

  function Answer(s: State, t: OpId): Res
    requires t in s.threads
  {
    var l := s.threads[t];
    if Seeking(l) then First(s)
    else match l
      case PopTake(slidetail) => Taken(SlotAt(s.que, slidetail))
      case PopCount(v) => Got(v)
      case PopExit(res) => res
      case Exit(res) => res
      case _ => Ack
  }

  /** The counter when the operation at l, with this answer, has counted. */
  function Settled(size: nat, l: Local, res: Res): nat {
    if l.PushExit? || l.PopExit? || l.Exit? || l.Done? then size
    else match res
      case Ack => Increment(size)
      case Got(_) => Decrement(size)
      case Empty => size
  }

  // ----- Each instruction brings it closer -----

  predicate Goes(s: State, t: OpId)
    requires t in s.threads
  {
    var s' := Instr(s, t, false);
    && Rank(s', t) < Rank(s, t) && Answer(s', t) == Answer(s, t) && s'.threads[t] != Done && CanGoOn(s', t)
    && Settled(s'.size, s'.threads[t], Answer(s, t)) == Settled(s.size, s.threads[t], Answer(s, t))
  }

  lemma SearchGoes(s: State, t: OpId)
    requires CanGoOn(s, t) && InRange(s.push, s.pop, |s.que|)
    requires var l := s.threads[t]; l.PushLock? || l.PushLoad? || l.PushCheck? || l.PushUnlock? || l.PushRelock?
    ensures Goes(s, t)
  {}

  lemma TryGoes(s: State, t: OpId)
    requires CanGoOn(s, t) && InRange(s.push, s.pop, |s.que|)
    requires var l := s.threads[t]; (l.PushTry? && s.readers == {}) || l.PushRecheck? || l.PushRelease?
    ensures Goes(s, t)
  {}

  lemma ResizeGoes(s: State, t: OpId)
    requires CanGoOn(s, t) && InRange(s.push, s.pop, |s.que|) && s.threads[t].PushResize?
    ensures Goes(s, t)
  {
    hide Resized;
  }

  lemma ClaimGoes(s: State, t: OpId)
    requires CanGoOn(s, t) && InRange(s.push, s.pop, |s.que|) && s.threads[t].PushClaim?
    ensures Goes(s, t)
  {}

  lemma FillGoes(s: State, t: OpId)
    requires CanGoOn(s, t) && (s.threads[t].PushCount? || s.threads[t].PushExit? || s.threads[t].PushFill?)
    requires s.threads[t].PushFill? ==> SlotAt(s.que, s.threads[t].slide) == Free
    ensures Goes(s, t)
  {}

  lemma SeekGoes(s: State, t: OpId)
    requires CanGoOn(s, t) && (s.threads[t].PopLock? || s.threads[t].PopLoad? || s.threads[t].PopCheck?)
    ensures Goes(s, t)
  {}

  lemma PopClaimGoes(s: State, t: OpId)
    requires CanGoOn(s, t) && s.threads[t].PopClaim?
    ensures Goes(s, t)
  {}

  lemma TakeGoes(s: State, t: OpId)
    requires CanGoOn(s, t) && (s.threads[t].PopTake? || s.threads[t].PopCount? || s.threads[t].PopExit?)
    requires s.threads[t].PopTake? ==> SlotAt(s.que, s.threads[t].slidetail).Full?
    ensures Goes(s, t)
  {}

  // ----- What the invariant says for it -----

  lemma OthersHoldNothing(s: State, t: OpId)
    requires Locks(s.readers, s.writer, s.threads, HoldsShared, HoldsUnique) && CanGoOn(s, t)
    ensures forall u :: u in s.threads && u != t ==> !HoldsShared(s.threads[u])
    ensures s.threads[t].PushTry? ==> s.readers == {}
  {
    assert Inside(0);
    forall u | u in s.threads && u != t ensures !HoldsShared(s.threads[u]) {
      assert u in s.readers <==> HoldsShared(s.threads[u]);
    }
  }

  lemma HasNoFlaw(s: State, t: OpId)
    requires CanGoOn(s, t) && s.threads[t] != Done && InRange(s.push, s.pop, |s.que|)
    requires forall u :: u in s.threads && u != t ==> !HoldsShared(s.threads[u])
    ensures FlawOf(s, Exec(t, false)) == NoFlaw
  {}

  /** Nobody but t holds a claim. */
  lemma OnlyOwnClaims(s: State, h: History, t: OpId)
    requires Claims(s.threads, h) && t in s.threads
    requires forall u :: u in s.threads && u != t ==> !HoldsShared(s.threads[u])
    ensures forall i :: i in h.gaps ==> s.threads[t].PushFill? && s.threads[t].slide == i
    ensures forall i :: i in h.hands ==> s.threads[t].PopTake? && s.threads[t].slidetail == i
    ensures s.threads[t].PushFill? ==> s.threads[t].slide in h.gaps
    ensures s.threads[t].PopTake? && h.early == map[] ==> s.threads[t].slidetail in h.hands
  {
    assert Look(TheClaims);
  }

  lemma GapSlot(s: State, h: History, t: OpId)
    requires RingqueProof.Ring(s.que, s.pop, h) && Claims(s.threads, h) && t in s.threads && s.threads[t].PushFill?
    requires forall u :: u in s.threads && u != t ==> !HoldsShared(s.threads[u])
    ensures SlotAt(s.que, s.threads[t].slide) == Free
  {
    OnlyOwnClaims(s, h, t);
    hide Claims;
    assert Look(TheRing);
    var i := s.threads[t].slide;
    assert GapFits(s.pop, |s.que|, h, i);
    assert s.que[i] == Held(h, s.pop, |s.que|, i);
  }

  lemma HandSlot(s: State, h: History, t: OpId)
    requires RingqueProof.Ring(s.que, s.pop, h) && Claims(s.threads, h) && t in s.threads && s.threads[t].PopTake?
    requires h.early == map[] && forall u :: u in s.threads && u != t ==> !HoldsShared(s.threads[u])
    ensures var i := s.threads[t].slidetail; i in h.hands && SlotAt(s.que, i) == Full(h.hands[i].v)
  {
    OnlyOwnClaims(s, h, t);
    hide Claims;
    assert Look(TheRing);
    var i := s.threads[t].slidetail;
    assert HandFits(s.pop, |s.que|, h, i);
    assert s.que[i] == Held(h, s.pop, |s.que|, i);
  }

  lemma FirstSlot(s: State, h: History, t: OpId)
    requires RingqueProof.Ring(s.que, s.pop, h) && Line(s.push, s.pop, |s.que|, h) && Claims(s.threads, h)
    requires h.early == map[] && t in s.threads && !s.threads[t].PushFill? && !s.threads[t].PopTake?
    requires forall u :: u in s.threads && u != t ==> !HoldsShared(s.threads[u])
    ensures First(s) == Effect(h.content, Pop).1
  {
    OnlyOwnClaims(s, h, t);
    hide Claims;
    assert Look(TheRing) && Look(TheLine);
    var tail := Tail(s.pop, |s.que|);
    FullIff(s.push, s.pop, |s.que|);
    assert s.que[tail] == Held(h, s.pop, |s.que|, tail);
  }

  lemma Step(s: State, trace: seq<Event>, h: History, t: OpId)
    requires Holds(s, trace, h) && h.early == map[] && CanGoOn(s, t) && s.threads[t] != Done && !s.threads[t].Exit?
    ensures Goes(s, t) && FlawOf(s, Exec(t, false)) == NoFlaw
  {
    hide RingqueProof.Ring, Line, Claims, RingqueProof.Explained, Tally, Track, Goes, InRange;
    OthersHoldNothing(s, t);
    Ranges(s, h);
    if s.threads[t].PushFill? { GapSlot(s, h, t); }
    if s.threads[t].PopTake? { HandSlot(s, h, t); }
    HasNoFlaw(s, t);
    hide Holds, CanGoOn, FlawOf, First;
    var l := s.threads[t];
    if l.PushLock? || l.PushLoad? || l.PushCheck? || l.PushUnlock? || l.PushRelock? {
      SearchGoes(s, t);
    } else if l.PushTry? || l.PushRecheck? || l.PushRelease? {
      TryGoes(s, t);
    } else if l.PushResize? {
      ResizeGoes(s, t);
    } else if l.PushClaim? {
      ClaimGoes(s, t);
    } else if l.PushFill? || l.PushCount? || l.PushExit? {
      FillGoes(s, t);
    } else if l.PopClaim? {
      PopClaimGoes(s, t);
    } else if l.PopTake? || l.PopCount? || l.PopExit? {
      TakeGoes(s, t);
    } else {
      SeekGoes(s, t);
    }
  }

  // ----- Runs -----

  lemma Follow(max: nat, acts: seq<Action>, t: OpId)
    requires max > 0 && Clean(max, acts, false)
    requires var s := After(max, acts, false).state; CanGoOn(s, t) && s.threads[t] != Done && !s.threads[t].Exit?
    ensures var s, s' := After(max, acts, false).state, After(max, acts + [Exec(t, false)], false).state;
      && CanGoOn(s', t) && s'.threads[t] != Done
      && Rank(s', t) < Rank(s, t) && Answer(s', t) == Answer(s, t)
      && Settled(s'.size, s'.threads[t], Answer(s, t)) == Settled(s.size, s.threads[t], Answer(s, t))
    ensures After(max, acts + [Exec(t, false)], false).trace == After(max, acts, false).trace + [Tau]
    ensures Clean(max, acts + [Exec(t, false)], false)
  {
    hide Rank, Answer, Settled, Instr, FlawOf, CanGoOn;
    var acts', r := acts + [Exec(t, false)], After(max, acts, false);
    assert acts'[..|acts'| - 1] == acts;
    RunIsSimulated(max, acts, false, NoFlaw);
    var h: History :| !h.ahead && Inv(r.state, r.trace, h);
    Step(r.state, r.trace, h, t);
    hide Inv;
    Stands(r.state, t);
    assert After(max, acts', false).state == Instr(r.state, t, false);
  }

  lemma Stands(s: State, t: OpId)
    requires CanGoOn(s, t)
    ensures t in s.threads
  {}

  /** t goes on alone, returns res with its instruction n + 1 and leaves the counter at size. */
  ghost predicate Finishes(max: nat, acts: seq<Action>, t: OpId, n: nat, res: Res, size: nat) {
    var r, r' := After(max, acts, false), After(max, acts + Own(t, n + 1), false);
    r'.trace == r.trace + Silence(n) + [Ret(t, res)] && r'.state.size == size
  }

  lemma FinishesNow(max: nat, acts: seq<Action>, t: OpId)
    requires var s := After(max, acts, false).state; t in s.threads && s.threads[t].Exit?
    ensures var s := After(max, acts, false).state;
      0 < Rank(s, t) && Finishes(max, acts, t, 0, Answer(s, t), Settled(s.size, s.threads[t], Answer(s, t)))
  {
    var acts' := acts + [Exec(t, false)];
    assert acts'[..|acts'| - 1] == acts;
    assert acts + Own(t, 1) == acts';
    assert After(max, acts, false).trace + Silence(0) == After(max, acts, false).trace;
  }

  lemma FinishesLater(max: nat, acts: seq<Action>, t: OpId, k: nat, res: Res, size: nat)
    requires Finishes(max, acts + [Exec(t, false)], t, k, res, size)
    requires After(max, acts + [Exec(t, false)], false).trace == After(max, acts, false).trace + [Tau]
    ensures Finishes(max, acts, t, k + 1, res, size)
  {
    hide After;
    assert acts + Own(t, k + 2) == acts + [Exec(t, false)] + Own(t, k + 1);
    SilentStep(After(max, acts, false).trace, k, Ret(t, res));
  }

  lemma {:induction false} Returns(max: nat, acts: seq<Action>, t: OpId) returns (n: nat)
    requires max > 0 && Clean(max, acts, false)
    requires CanGoOn(After(max, acts, false).state, t) && After(max, acts, false).state.threads[t] != Done
    ensures var s := After(max, acts, false).state;
      n < Rank(s, t) && Finishes(max, acts, t, n, Answer(s, t), Settled(s.size, s.threads[t], Answer(s, t)))
    decreases Rank(After(max, acts, false).state, t)
  {
    hide Rank, Answer, Finishes, Settled, Passable, After, Clean;
    var s := After(max, acts, false).state;
    if s.threads[t].Exit? {
      n := 0;
      FinishesNow(max, acts, t);
    } else {
      Follow(max, acts, t);
      var k := Returns(max, acts + [Exec(t, false)], t);
      n := k + 1;
      FinishesLater(max, acts, t, k, Answer(s, t), Settled(s.size, s.threads[t], Answer(s, t)));
    }
  }

  // ----- The answer by the log -----

  lemma AnswerIs(s: State, trace: seq<Event>, h: History, t: OpId)
    requires Holds(s, trace, h) && h.early == map[] && CanGoOn(s, t) && s.threads[t] != Done
    ensures match PhaseOf(s.threads[t], h.hands)
      case Effected(res) => res == Answer(s, t)
      case Pending(op) => op != Clear && Answer(s, t) == Effect(h.content, op).1
      case _ => false
  {
    OthersHoldNothing(s, t);
    hide RingqueProof.Ring, Line, Claims, RingqueProof.Explained, Tally, Track, First;
    if Seeking(s.threads[t]) { FirstSlot(s, h, t); }
    if s.threads[t].PopTake? { HandSlot(s, h, t); }
  }

  lemma AnswerFits(s: State, trace: seq<Event>, h: History, t: OpId)
    requires Holds(s, trace, h) && h.early == map[] && CanGoOn(s, t) && s.threads[t] != Done
    ensures Linearization(trace, h.log) && Replay([], h.log) == h.content
    ensures Answers(trace, h.log, |h.log|, t, Answer(s, t))
    ensures PhaseOf(s.threads[t], h.hands).Pending? ==> !InLog(h.log, t)
  {
    AnswerIs(s, trace, h, t);
    assert Explains(h) by { assert Look(TheLog); }
    TrackOrders(trace, h.log, PhasesOf(s.threads, h.hands));
    PhaseHolds(trace, h.log, PhasesOf(s.threads, h.hands), t);
    hide Answer, Passable, Holds;
    assert h.log[..|h.log|] == h.log;
    match PhaseOf(s.threads[t], h.hands)
    case Effected(res) => EffectedAnswers(trace, h.log, t, res);
    case Pending(op) =>
  }

  lemma RankIsSmall(s: State, t: OpId)
    requires t in s.threads
    ensures Rank(s, t) <= 20
  {}

  // ----- Main results -----

  /** From every state of a run without a flaw in which nobody else holds the mutex and what it has
      read does no harm, an operation that goes on alone, doubling the array if it has to, returns
      within 20 instructions and is counted.  Its answer is that of a linearization. */
  lemma OperationsFinishAlone(max: nat, acts: seq<Action>, t: OpId)
    requires max > 0 && Clean(max, acts, false)
    requires CanGoOn(After(max, acts, false).state, t) && After(max, acts, false).state.threads[t] != Done
    ensures var r := After(max, acts, false);
      exists n: nat, res, log ::
        && n < 20 && Finishes(max, acts, t, n, res, Settled(r.state.size, r.state.threads[t], res))
        && Linearization(r.trace, log) && Answers(r.trace, log, |log|, t, res)
  {
    RunIsSimulated(max, acts, false, NoFlaw);
    var r := After(max, acts, false);
    var h: History :| !h.ahead && Inv(r.state, r.trace, h);
    AnswerFits(r.state, r.trace, h, t);
    RankIsSmall(r.state, t);
    hide Inv, Answer, Rank, Settled, Finishes, Answers, After;
    var n := Returns(max, acts, t);
  }

  lemma Called(max: nat, acts: seq<Action>, t: OpId, op: Op)
    requires max > 0 && Clean(max, acts, false) && op != Clear
    requires var s := After(max, acts, false).state; t !in s.threads && s.readers == {} && !s.writer
    ensures var r, r' := After(max, acts, false), After(max, acts + [Start(t, op)], false);
      && r'.trace == r.trace + [Call(t, op)] && r'.state.size == r.state.size
      && CanGoOn(r'.state, t) && r'.state.threads[t] == (if op.Push? then PushLock(op.v) else PopLock)
    ensures Clean(max, acts + [Start(t, op)], false)
  {
    var acts' := acts + [Start(t, op)];
    assert acts'[..|acts'| - 1] == acts;
  }

  /** t, called with op, goes on alone and answers what the sequential queue answers behind the log;
      the counter goes one up, one down, or stays. */
  ghost predicate Answered(max: nat, acts: seq<Action>, t: OpId, op: Op, n: nat, log: seq<Entry>) {
    var r, r' := After(max, acts, false), After(max, acts + [Start(t, op)], false);
    var res, size := Effect(Replay([], log), op).1, r.state.size;
    && Finishes(max, acts + [Start(t, op)], t, n, res,
                if op.Push? then Increment(size) else if res.Got? then Decrement(size) else size)
    && r'.trace == r.trace + [Call(t, op)]
  }

  lemma FreshAnswer(s: State, trace: seq<Event>, h: History, t: OpId, op: Op)
    requires Holds(s, trace + [Call(t, op)], h) && h.early == map[] && CanGoOn(s, t) && op != Clear
    requires s.threads[t] == if op.Push? then PushLock(op.v) else PopLock
    ensures Linearization(trace, h.log)
    ensures var res := Effect(Replay([], h.log), op).1;
      && Answer(s, t) == res
      && Settled(s.size, s.threads[t], res) ==
        if op.Push? then Increment(s.size) else if res.Got? then Decrement(s.size) else s.size
  {
    AnswerFits(s, trace + [Call(t, op)], h, t);
    AnswerIs(s, trace + [Call(t, op)], h, t);
    OrdersBeforeCall(trace, h.log, t, op);
  }

  lemma FreshReturns(max: nat, acts: seq<Action>, t: OpId, op: Op) returns (n: nat, log: seq<Entry>)
    requires max > 0 && Clean(max, acts, false) && op != Clear
    requires var s := After(max, acts, false).state; t !in s.threads && s.readers == {} && !s.writer
    ensures n < 20 && Linearization(After(max, acts, false).trace, log) && Answered(max, acts, t, op, n, log)
  {
    Called(max, acts, t, op);
    var acts' := acts + [Start(t, op)];
    hide After, Answer, Rank, Passable, Finishes, Settled, Clean;
    RunIsSimulated(max, acts', false, NoFlaw);
    var r' := After(max, acts', false);
    var h: History :| !h.ahead && Inv(r'.state, r'.trace, h);
    FreshAnswer(r'.state, After(max, acts, false).trace, h, t, op);
    hide Inv;
    RankIsSmall(r'.state, t);
    n := Returns(max, acts', t);
    log := h.log;
  }

  /** A push or a pop that is called while nobody holds the mutex, and then goes on alone, answers
      what the sequential queue answers behind a linearization of everything so far: a pop gets the
      first element that is left, or "empty" if none is. */
  lemma CallsAreAnsweredAlone(max: nat, acts: seq<Action>, t: OpId, op: Op)
    requires max > 0 && Clean(max, acts, false) && op != Clear
    requires var s := After(max, acts, false).state; t !in s.threads && s.readers == {} && !s.writer
    ensures exists n: nat, log ::
      n < 20 && Linearization(After(max, acts, false).trace, log) && Answered(max, acts, t, op, n, log)
  {
    var n, log := FreshReturns(max, acts, t, op);
  }

  // ----- A push that doubles the array without end -----

  /** t goes by a slide that looks full although pop is below push: a resize leaves pop where it is. */
  predicate Doubling(s: State, t: OpId, v: Value, slide: nat) {
    && t in s.threads && s.pop == slide + 1 < s.push && s.push < |s.que|
    && s.readers <= {t} && (s.writer ==> HoldsUnique(s.threads[t]))
    && match s.threads[t]
       case PushCheck(w, sl, n) => w == v && sl == slide && n == slide + 1
       case PushUnlock(w, sl, n) => w == v && sl == slide && n == slide + 1
       case PushTry(w, sl, n) => w == v && sl == slide && n == slide + 1
       case PushRecheck(w, sl, n) => w == v && sl == slide && n == slide + 1
       case PushResize(w, sl, n) => w == v && sl == slide && n == slide + 1
       case PushRelease(w, sl, n) => w == v && sl == slide && n == slide + 1
       case PushRelock(w, sl, n) => w == v && sl == slide && n == slide + 1
       case _ => false
  }

  lemma DoublingStep(s: State, t: OpId, v: Value, slide: nat)
    requires Doubling(s, t, v, slide) && (s.threads[t].PushTry? ==> s.readers == {})
    ensures var s' := Instr(s, t, false); Doubling(s', t, v, slide) && |s'.que| >= |s.que|
    ensures Instr(s, t, false).threads[t].PushTry? ==> Instr(s, t, false).readers == {}
    ensures EventOf(s, Exec(t, false)) == Tau && Enabled(s, Exec(t, false), false)
  {}

  lemma NotReturned(trace: seq<Event>, n: nat, x: Event)
    requires x != Tau
    ensures trace + Silence(n + 1) != trace + Silence(n) + [x]
  {
    assert (trace + Silence(n + 1))[|trace| + n] == Tau;
  }

  lemma DoublesOnce(max: nat, acts: seq<Action>, t: OpId, v: Value, slide: nat)
    requires var s := After(max, acts, false).state;
      Doubling(s, t, v, slide) && (s.threads[t].PushTry? ==> s.readers == {})
    ensures var r, r' := After(max, acts, false), After(max, acts + [Exec(t, false)], false);
      && Doubling(r'.state, t, v, slide) && |r'.state.que| >= |r.state.que| && r'.trace == r.trace + [Tau]
      && (r'.state.threads[t].PushTry? ==> r'.state.readers == {})
  {
    hide Doubling, Instr;
    DoublingStep(After(max, acts, false).state, t, v, slide);
    assert (acts + [Exec(t, false)])[..|acts + [Exec(t, false)]| - 1] == acts;
  }

  lemma {:induction false} DoublesOn(max: nat, acts: seq<Action>, t: OpId, v: Value, slide: nat, n: nat)
    requires var s := After(max, acts, false).state;
      Doubling(s, t, v, slide) && (s.threads[t].PushTry? ==> s.readers == {})
    ensures var r, r' := After(max, acts, false), After(max, acts + Own(t, n), false);
      && Doubling(r'.state, t, v, slide) && |r'.state.que| >= |r.state.que| && r'.trace == r.trace + Silence(n)
      && (r'.state.threads[t].PushTry? ==> r'.state.readers == {})
    decreases n
  {
    var r := After(max, acts, false);
    if n == 0 {
      assert acts + Own(t, 0) == acts;
      assert r.trace + Silence(0) == r.trace;
    } else {
      hide Doubling, Instr, After;
      var acts' := acts + Own(t, n - 1);
      DoublesOn(max, acts, t, v, slide, n - 1);
      DoublesOnce(max, acts', t, v, slide);
      assert acts + Own(t, n) == acts' + [Exec(t, false)];
      assert Silence(n - 1) + [Tau] == Silence(n);
      assert r.trace + Silence(n - 1) + [Tau] == r.trace + Silence(n);
    }
  }

  /** When a push in a run without a flaw comes to its test while nobody else holds the mutex, and
      going on alone would not double an array with push equal to pop, then it returns alone if and
      only if its slide does not look full with pop below push.  If it does, it doubles the array
      again and again: its slide stays what it is, and so does pop. */
  lemma TestEndsIff(max: nat, acts: seq<Action>, t: OpId, v: Value, slide: nat)
    requires max > 0 && Clean(max, acts, false)
    requires var s := After(max, acts, false).state;
      && t in s.threads && s.threads[t] == PushCheck(v, slide, slide + 1) && s.readers <= {t} && !s.writer
      && (slide + 1 == s.pop ==> s.push != s.pop)
    ensures var s := After(max, acts, false).state;
      (exists n, res, size :: Finishes(max, acts, t, n, res, size)) <==> !(slide + 1 == s.pop < s.push)
  {
    var s := After(max, acts, false).state;
    AlwaysSized(max, acts, false);
    if slide + 1 == s.pop < s.push {
      forall n: nat, res, size ensures !Finishes(max, acts, t, n, res, size) {
        DoublesOn(max, acts, t, v, slide, n + 1);
        NotReturned(After(max, acts, false).trace, n, Ret(t, res));
      }
    } else {
      var n := Returns(max, acts, t);
    }
  }
}
