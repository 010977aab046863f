/** ringque is first in, first out through all claims, fills, takes and resizes, for any number
    of pushes and pops at once, in every run without a flaw that breaks the order. */
module RingqueProof {
  import opened Linearizability
  import opened Counting
  import opened SharedMutex
  import opened Ringque
  import opened RingqueResize
  import opened RingqueFlaws

  /** A claim of a slot by an operation, and the element the slot is claimed for. */
  datatype Claim = Claim(t: OpId, v: Value)

  /** content are the claimed elements.  gaps are the slots that a push has claimed and not yet
      filled, hands the slots that a pop has claimed for an element and not yet emptied, and
      early the slots that a pop has claimed before a push: only if ahead says so. */
  datatype History = History(content: seq<Value>, gaps: map<nat, Claim>, hands: map<nat, Claim>, early: map<nat, OpId>,
    log: seq<Entry>, ahead: bool)

  function PhaseOf(l: Local, hands: map<nat, Claim>): Phase {
    match l
    case PushFill(_, _) => Effected(Ack)
    case PushCount => Effected(Ack)
    case PushExit => Effected(Ack)
    case PopLock => Pending(Pop)
    case PopLoad => Pending(Pop)
    case PopCheck(_, _) => Pending(Pop)
    case PopClaim(_, _) => Pending(Pop)
    case PopTake(slot) => if slot in hands then Effected(Got(hands[slot].v)) else Pending(Pop)
    case PopCount(v) => Effected(Got(v))
    case PopExit(res) => Effected(res)
    case Exit(res) => Effected(res)
    case Done => Over
    case _ => Pending(Push(l.v))
  }

  function PhasesOf(threads: map<OpId, Local>, hands: map<nat, Claim>): Phases {
    map t | t in threads :: PhaseOf(threads[t], hands)
  }

  // ----- The invariant -----

  /** The parts of the invariant.  The verifier looks inside a part only where a proof
      mentions Look. */
  datatype Part = TheRing | TheLine | TheClaims | TheLog | TheTally

  predicate Look(part: Part) { true }

  /** Slot i holds a place in the row. */
  predicate InRow(h: History, pop: nat, max: nat, i: nat) {
    Behind(pop, max, i) < |h.content|
  }

  /** What slot i holds: the element of a pop that has yet to take it, unless the push of that
      element is still to fill the slot; otherwise the element claimed in the row, unless its
      push is still to fill the slot. */
  function Held(h: History, pop: nat, max: nat, i: nat): Slot {
    if i in h.hands then (if i in h.gaps && !InRow(h, pop, max, i) then Free else Full(h.hands[i].v))
    else if i in h.gaps then Free
    else if InRow(h, pop, max, i) then Full(h.content[Behind(pop, max, i)])
    else Free
  }

  ghost predicate SlotsHold(que: seq<Slot>, pop: nat, h: History) {
    forall i {:trigger que[i]} {:trigger Held(h, pop, |que|, i)} :: 0 <= i < |que| ==> que[i] == Held(h, pop, |que|, i)
  }

  /** The slot of a push is in the row, or already that of the pop which took it off the row. */
  predicate GapFits(pop: nat, max: nat, h: History, i: nat) {
    i in h.gaps && i < max &&
    if InRow(h, pop, max, i) then h.content[Behind(pop, max, i)] == h.gaps[i].v
    else i in h.hands && h.hands[i].v == h.gaps[i].v
  }

  /** The slot of a pop is off the row, or claimed again by a push that waits for the pop. */
  predicate HandFits(pop: nat, max: nat, h: History, i: nat) {
    i in h.hands && i < max && (InRow(h, pop, max, i) ==> i in h.gaps)
  }

  ghost predicate ClaimsFit(pop: nat, max: nat, h: History) {
    && (forall i :: i in h.gaps ==> GapFits(pop, max, h, i))
    && (forall i :: i in h.hands ==> HandFits(pop, max, h, i))
  }

  ghost predicate Ringed(que: seq<Slot>, pop: nat, h: History) {
    ClaimsFit(pop, |que|, h) && SlotsHold(que, pop, h)
  }

  ghost predicate Ring(que: seq<Slot>, pop: nat, h: History) {
    forall part {:trigger Look(part)} :: Look(part) && part == TheRing ==> Ringed(que, pop, h)
  }

  /** Slot i is off the row and an early pop waits at it. */
  predicate EarlyFits(push: nat, pop: nat, max: nat, h: History, i: nat) {
    i in h.early <==> i < max && Behind(pop, max, i) >= Count(push, pop, max)
  }

  /** As long as no pop is early, the row is what is in the ring.  Once one is, all pops are:
      nothing is in the ring, and an early pop waits at each slot that is not in the row. */
  ghost predicate Lined(push: nat, pop: nat, max: nat, h: History) {
    && InRange(push, pop, max)
    && if h.early == map[] then |h.content| == Count(push, pop, max)
       else
         && h.content == [] && (forall i :: i in h.early ==> i !in h.hands)
         && forall i: nat :: EarlyFits(push, pop, max, h, i)
  }

  ghost predicate Line(push: nat, pop: nat, max: nat, h: History) {
    forall part {:trigger Look(part)} :: Look(part) && part == TheLine ==> Lined(push, pop, max, h)
  }

  /** Who holds the claims. */
  ghost predicate GapsClaimed(threads: map<OpId, Local>, gaps: map<nat, Claim>) {
    && (forall i :: i in gaps ==> gaps[i].t in threads && threads[gaps[i].t] == PushFill(gaps[i].v, i))
    && (forall t :: t in threads && threads[t].PushFill? ==>
          threads[t].slide in gaps && gaps[threads[t].slide] == Claim(t, threads[t].v))
  }

  ghost predicate HandsClaimed(threads: map<OpId, Local>, hands: map<nat, Claim>, early: map<nat, OpId>) {
    && (forall i :: i in hands ==> hands[i].t in threads && threads[hands[i].t] == PopTake(i))
    && (forall i :: i in early ==> early[i] in threads && threads[early[i]] == PopTake(i))
    && (forall t :: t in threads && threads[t].PopTake? ==>
          var i := threads[t].slidetail; if i in hands then hands[i].t == t else i in early && early[i] == t)
  }

  ghost predicate Claimed(threads: map<OpId, Local>, h: History) {
    GapsClaimed(threads, h.gaps) && HandsClaimed(threads, h.hands, h.early)
  }

  ghost predicate Claims(threads: map<OpId, Local>, h: History) {
    forall part {:trigger Look(part)} :: Look(part) && part == TheClaims ==> Claimed(threads, h)
  }

  ghost predicate Explains(h: History) {
    Legal([], h.log) && Replay([], h.log) == h.content
  }

  ghost predicate Explained(h: History) {
    forall part {:trigger Look(part)} :: Look(part) && part == TheLog ==> Explains(h)
  }

  function Debt(l: Local): int {
    if l.PushFill? || l.PushCount? then 1 else if l.PopTake? || l.PopCount? then -1 else 0
  }

  ghost predicate Tallied(size: nat, h: History, threads: map<OpId, Local>) {
    size < WORD && Agree(size + Balance(threads, Debt), |h.content| - |h.early|)
  }

  ghost predicate Tally(size: nat, h: History, threads: map<OpId, Local>) {
    forall part {:trigger Look(part)} :: Look(part) && part == TheTally ==> Tallied(size, h, threads)
  }

  predicate HoldsShared(l: Local) {
    l.PushLoad? || l.PushCheck? || l.PushUnlock? || l.PushClaim? || l.PushFill? || l.PushCount? || l.PushExit? ||
    l.PopLoad? || l.PopCheck? || l.PopClaim? || l.PopTake? || l.PopCount? || l.PopExit?
  }

  predicate HoldsUnique(l: Local) {
    l.PushRecheck? || l.PushResize? || l.PushRelease?
  }

  ghost predicate Inv(s: State, trace: seq<Event>, h: History) {
    && Ring(s.que, s.pop, h)
    && Line(s.push, s.pop, |s.que|, h)
    && Claims(s.threads, h)
    && Explained(h)
    && Tally(s.size, h, s.threads)
    && Locks(s.readers, s.writer, s.threads, HoldsShared, HoldsUnique)
    && Slides(|s.que|, s.threads)
    && Track(trace, h.log, PhasesOf(s.threads, h.hands))
    && (!h.ahead ==> h.early == map[])
  }

  /** The same, not taken apart at every use. */
  ghost predicate Holds(s: State, trace: seq<Event>, h: History) {
    exists h' :: h' == h && Inv(s, trace, h')
  }

  ghost predicate Simulated(s: State, trace: seq<Event>, ahead: bool) {
    exists h: History :: h.ahead == ahead && Inv(s, trace, h)
  }

  // ----- Parts of the invariant under a step of t -----

  lemma CarriesHolds(max: nat, threads: map<OpId, Local>, t: OpId)
    requires Slides(max, threads) && t in threads
    ensures Carries(threads[t], max)
  {}

  lemma SlidesStep(max: nat, max': nat, threads: map<OpId, Local>, t: OpId, l: Local)
    requires Slides(max, threads) && max <= max' && Carries(l, max')
    ensures Slides(max', threads[t := l])
  {}

  /** Only operations that hold the shared side hold claims. */
  lemma NobodyHoldsShared(threads: map<OpId, Local>, h: History)
    requires Claims(threads, h) && forall u :: u in threads ==> !HoldsShared(threads[u])
    ensures h.gaps == map[] && h.hands == map[] && h.early == map[]
  {
    assert Look(TheClaims);
  }

  /** The hand of t changes, and nobody else's. */
  predicate SameHands(hands: map<nat, Claim>, hands': map<nat, Claim>, threads: map<OpId, Local>, t: OpId) {
    forall u :: u in threads && u != t && threads[u].PopTake? ==>
      var i := threads[u].slidetail; (i in hands <==> i in hands') && (i in hands ==> hands'[i] == hands[i])
  }

  lemma TrackNext(trace: seq<Event>, x: Event, log: seq<Entry>, threads: map<OpId, Local>, hands: map<nat, Claim>,
                  hands': map<nat, Claim>, t: OpId, l: Local)
    requires Track(trace, log, PhasesOf(threads, hands)) && SameHands(hands, hands', threads, t)
    requires match x
      case Call(u, op) => u == t && t !in threads && PhaseOf(l, hands') == Pending(op)
      case Ret(u, res) =>
        u == t && t in threads && PhaseOf(threads[t], hands) == Effected(res) && PhaseOf(l, hands') == Over
      case Tau => t in threads && PhaseOf(l, hands') == PhaseOf(threads[t], hands)
    ensures Track(trace + [x], log, PhasesOf(threads[t := l], hands'))
  {
    var m, m' := PhasesOf(threads, hands), PhasesOf(threads[t := l], hands');
    assert m' == m[t := PhaseOf(l, hands')];
    TrackEvent(trace, x, log, m, m', t, PhaseOf(l, hands'));
  }

  lemma TrackEffect(trace: seq<Event>, log: seq<Entry>, threads: map<OpId, Local>, hands: map<nat, Claim>,
                    hands': map<nat, Claim>, t: OpId, l: Local, op: Op, res: Res)
    requires Track(trace, log, PhasesOf(threads, hands)) && SameHands(hands, hands', threads, t)
    requires t in threads && PhaseOf(threads[t], hands) == Pending(op) && PhaseOf(l, hands') == Effected(res)
    ensures Track(trace + [Tau], log + [Entry(t, op, res)], PhasesOf(threads[t := l], hands'))
  {
    var m, m' := PhasesOf(threads, hands), PhasesOf(threads[t := l], hands');
    assert m' == m[t := PhaseOf(l, hands')];
    Linearizability.TrackEffect(trace, log, m, m', Entry(t, op, res));
  }

  lemma TallyMoves(size: nat, size': nat, h: History, h': History, threads: map<OpId, Local>, t: OpId, l: Local)
    requires Tally(size, h, threads) && size' < WORD
    requires Together(size' - size + Debt(l) - (if t in threads then Debt(threads[t]) else 0) - |h'.content| +
      |h.content| + |h'.early| - |h.early|)
    ensures Tally(size', h', threads[t := l])
  {
    assert Look(TheTally);
    BalanceMoves(threads, Debt, t, l);
    AgreeStill(size + Balance(threads, Debt), |h.content| - |h.early|,
      size' + Balance(threads[t := l], Debt), |h'.content| - |h'.early|);
  }

  lemma SizeFits(size: nat, h: History, threads: map<OpId, Local>)
    requires Tally(size, h, threads)
    ensures size < WORD
  {
    assert Look(TheTally);
  }

  /** A step of t that neither makes nor ends a claim. */
  lemma ClaimsStay(threads: map<OpId, Local>, h: History, t: OpId, l: Local)
    requires Claims(threads, h)
    requires l.PushFill? || l.PopTake? ==> t in threads && l == threads[t]
    requires t in threads && (threads[t].PushFill? || threads[t].PopTake?) ==> l == threads[t]
    ensures Claims(threads[t := l], h)
  {}

  // ----- Steps that leave the history as it is -----

  /** A step that only moves t on, and perhaps the mutex and the counter. */
  lemma Quiet(s: State, trace: seq<Event>, h: History, t: OpId, l: Local, x: Event, readers: set<OpId>, writer: bool,
              size: nat)
    requires Holds(s, trace, h) && t in s.threads && Carries(l, |s.que|)
    requires match x
      case Call(_, _) => false
      case Ret(u, res) => u == t && PhaseOf(s.threads[t], h.hands) == Effected(res) && PhaseOf(l, h.hands) == Over
      case Tau => PhaseOf(l, h.hands) == PhaseOf(s.threads[t], h.hands)
    requires l.PushFill? || l.PopTake? || s.threads[t].PushFill? || s.threads[t].PopTake? ==> l == s.threads[t]
    requires size < WORD && Together(size - s.size + Debt(l) - Debt(s.threads[t]))
    requires Locks(readers, writer, s.threads[t := l], HoldsShared, HoldsUnique)
    ensures Simulated(Goto(s, t, l).(readers := readers, writer := writer, size := size), trace + [x], h.ahead)
  {
    ClaimsStay(s.threads, h, t, l);
    TallyMoves(s.size, size, h, h, s.threads, t, l);
    SlidesStep(|s.que|, |s.que|, s.threads, t, l);
    TrackNext(trace, x, h.log, s.threads, h.hands, h.hands, t, l);
    var _ := Inv(Goto(s, t, l).(readers := readers, writer := writer, size := size), trace + [x], h);
  }

  /** A step that moves t on and nothing else. */
  lemma Moves(s: State, trace: seq<Event>, h: History, t: OpId, l: Local, x: Event)
    requires Holds(s, trace, h) && t in s.threads && Carries(l, |s.que|)
    requires match x
      case Call(_, _) => false
      case Ret(u, res) => u == t && PhaseOf(s.threads[t], h.hands) == Effected(res) && PhaseOf(l, h.hands) == Over
      case Tau => PhaseOf(l, h.hands) == PhaseOf(s.threads[t], h.hands)
    requires l.PushFill? || l.PopTake? || s.threads[t].PushFill? || s.threads[t].PopTake? ==> l == s.threads[t]
    requires Debt(l) == Debt(s.threads[t]) && HoldsShared(l) == HoldsShared(s.threads[t])
    requires HoldsUnique(l) == HoldsUnique(s.threads[t])
    ensures Simulated(Goto(s, t, l), trace + [x], h.ahead)
  {
    SizeFits(s.size, h, s.threads);
    LocksSame(s.readers, s.writer, s.threads, HoldsShared, HoldsUnique, t, l);
    Quiet(s, trace, h, t, l, x, s.readers, s.writer, s.size);
    assert Goto(s, t, l).(readers := s.readers, writer := s.writer, size := s.size) == Goto(s, t, l);
  }

  /** lock on the shared side. */
  lemma LocksShared(s: State, trace: seq<Event>, h: History, t: OpId, l: Local)
    requires Holds(s, trace, h) && t in s.threads && Carries(l, |s.que|)
    requires match s.threads[t]
      case PushLock(v) => l == PushLoad(v)
      case PushRelock(v, slide, newslide) => l == PushCheck(v, slide, newslide)
      case PopLock => l == PopLoad
      case _ => false
    ensures Simulated(Shared(s, t, l), trace + [Tau], h.ahead)
  {
    if s.writer {
      CarriesHolds(|s.que|, s.threads, t);
      Moves(s, trace, h, t, s.threads[t], Tau);
      assert Goto(s, t, s.threads[t]) == s;
    } else {
      SizeFits(s.size, h, s.threads);
      LocksStep(s.readers, s.writer, s.threads, HoldsShared, HoldsUnique, t, l, s.readers + {t}, s.writer);
      Quiet(s, trace, h, t, l, Tau, s.readers + {t}, s.writer, s.size);
      assert Goto(s, t, l).(readers := s.readers + {t}, writer := s.writer, size := s.size) == Shared(s, t, l);
    }
  }

  lemma Unlocks(s: State, trace: seq<Event>, h: History, t: OpId, l: Local)
    requires Holds(s, trace, h) && t in s.threads && HoldsShared(s.threads[t])
    requires match s.threads[t]
      case PushUnlock(v, slide, newslide) => l == PushTry(v, slide, newslide)
      case PushExit => l == Exit(Ack)
      case PopExit(res) => l == Exit(res)
      case _ => false
    ensures Simulated(Unshared(s, t, l), trace + [Tau], h.ahead)
  {
    SizeFits(s.size, h, s.threads);
    CarriesHolds(|s.que|, s.threads, t);
    LocksStep(s.readers, s.writer, s.threads, HoldsShared, HoldsUnique, t, l, s.readers - {t}, s.writer);
    Quiet(s, trace, h, t, l, Tau, s.readers - {t}, s.writer, s.size);
    assert Goto(s, t, l).(readers := s.readers - {t}, writer := s.writer, size := s.size) == Unshared(s, t, l);
  }

  lemma Starts(s: State, trace: seq<Event>, h: History, t: OpId, op: Op)
    requires Holds(s, trace, h) && Enabled(s, Start(t, op), false)
    ensures Simulated(Begin(s, t, op), trace + [Call(t, op)], h.ahead)
  {
    var l := if op.Push? then PushLock(op.v) else PopLock;
    SizeFits(s.size, h, s.threads);
    ClaimsStay(s.threads, h, t, l);
    TallyMoves(s.size, s.size, h, h, s.threads, t, l);
    LocksSame(s.readers, s.writer, s.threads, HoldsShared, HoldsUnique, t, l);
    SlidesStep(|s.que|, |s.que|, s.threads, t, l);
    TrackNext(trace, Call(t, op), h.log, s.threads, h.hands, h.hands, t, l);
    var _ := Inv(Goto(s, t, l), trace + [Call(t, op)], h);
  }

  // ----- A push claims a slot and fills it -----

  function Pushed(h: History, t: OpId, slide: nat, v: Value): History {
    h.(content := h.content + [v], gaps := h.gaps[slide := Claim(t, v)], log := h.log + [Entry(t, Push(v), Ack)])
  }

  lemma UnheldPush(threads: map<OpId, Local>, h: History, slide: nat)
    requires Claims(threads, h) && !Filling(threads, slide)
    ensures slide !in h.gaps
  {
    assert Look(TheClaims);
  }

  /** The slot a push claims is the first one behind the row.  It is null, or a pop has yet to
      empty it. */
  lemma ClaimRing(que: seq<Slot>, push: nat, pop: nat, h: History, t: OpId, v: Value)
    requires Ring(que, pop, h) && push !in h.gaps && InRange(push, pop, |que|) && |h.content| == Count(push, pop, |que|)
    ensures Ring(que, pop, Pushed(h, t, push, v))
  {
    assert Look(TheRing);
    var max, h' := |que|, Pushed(h, t, push, v);
    assert Behind(pop, max, push) == |h.content|;
    forall i | 0 <= i < max ensures InRow(h', pop, max, i) <==> InRow(h, pop, max, i) || i == push {}
    forall i | 0 <= i < max ensures que[i] == Held(h', pop, max, i) {
      assert que[i] == Held(h, pop, max, i);
    }
    forall i | i in h'.gaps ensures GapFits(pop, max, h', i) {
      if i != push { assert GapFits(pop, max, h, i); }
    }
    forall i | i in h'.hands ensures HandFits(pop, max, h', i) { assert HandFits(pop, max, h, i); }
  }

  lemma ClaimLine(push: nat, pop: nat, max: nat, h: History, t: OpId, v: Value)
    requires Line(push, pop, max, h) && h.early == map[] && push + 1 != pop
    ensures InRange(push, pop, max) && |h.content| == Count(push, pop, max)
    ensures Line(NextPush(push, max), pop, max, Pushed(h, t, push, v))
  {
    assert Look(TheLine);
  }

  lemma PushClaims(threads: map<OpId, Local>, h: History, t: OpId, slide: nat, v: Value)
    requires Claims(threads, h) && slide !in h.gaps && t in threads && !threads[t].PushFill? && !threads[t].PopTake?
    ensures Claims(threads[t := PushFill(v, slide)], Pushed(h, t, slide, v))
  {}

  lemma PushExplained(h: History, t: OpId, slide: nat, v: Value)
    requires Explained(h)
    ensures Explained(Pushed(h, t, slide, v))
  {
    assert Look(TheLog);
    ReplaySnoc([], h.log, Entry(t, Push(v), Ack));
  }

  lemma ClaimsPush(s: State, trace: seq<Event>, h: History, t: OpId, v: Value)
    requires Holds(s, trace, h) && t in s.threads && s.threads[t] == PushClaim(v, s.push, s.push + 1)
    requires s.push + 1 != s.pop && !Filling(s.threads, s.push) && h.early == map[]
    ensures Simulated(Goto(s, t, PushFill(v, s.push)).(push := NextPush(s.push, |s.que|)), trace + [Tau], h.ahead)
  {
    var l, h' := PushFill(v, s.push), Pushed(h, t, s.push, v);
    UnheldPush(s.threads, h, s.push);
    SizeFits(s.size, h, s.threads);
    ClaimLine(s.push, s.pop, |s.que|, h, t, v);
    ClaimRing(s.que, s.push, s.pop, h, t, v);
    PushClaims(s.threads, h, t, s.push, v);
    PushExplained(h, t, s.push, v);
    TallyMoves(s.size, s.size, h, h', s.threads, t, l);
    LocksSame(s.readers, s.writer, s.threads, HoldsShared, HoldsUnique, t, l);
    SlidesStep(|s.que|, |s.que|, s.threads, t, l);
    TrackEffect(trace, h.log, s.threads, h.hands, h.hands, t, l, Push(v), Ack);
    var _ := Inv(Goto(s, t, l).(push := NextPush(s.push, |s.que|)), trace + [Tau], h');
  }

  // ----- A push claims a slot at which a pop is early -----

  /** The push takes effect, and so does the pop that has been waiting for it. */
  function EarlyPushed(h: History, t: OpId, slide: nat, v: Value): History
    requires slide in h.early
  {
    var u := h.early[slide];
    h.(gaps := h.gaps[slide := Claim(t, v)], hands := h.hands[slide := Claim(u, v)], early := h.early - {slide},
      log := h.log + [Entry(t, Push(v), Ack)] + [Entry(u, Pop, Got(v))])
  }

  lemma EarlyPushLine(push: nat, pop: nat, max: nat, h: History, t: OpId, v: Value)
    requires Line(push, pop, max, h) && push in h.early && push + 1 != pop
    ensures Line(NextPush(push, max), pop, max, EarlyPushed(h, t, push, v))
  {
    assert Look(TheLine);
    var push', h' := NextPush(push, max), EarlyPushed(h, t, push, v);
    assert Count(push', pop, max) == Count(push, pop, max) + 1;
    forall i: nat ensures EarlyFits(push', pop, max, h', i) {
      assert EarlyFits(push, pop, max, h, i);
      assert i < max ==> (Behind(pop, max, i) == Count(push, pop, max) <==> i == push);
    }
    assert push' in h'.early by { assert EarlyFits(push', pop, max, h', push'); }
  }

  lemma EarlyPushRing(que: seq<Slot>, pop: nat, h: History, t: OpId, slide: nat, v: Value)
    requires Ring(que, pop, h) && slide in h.early && slide !in h.gaps && slide !in h.hands && slide < |que|
    requires h.content == []
    ensures Ring(que, pop, EarlyPushed(h, t, slide, v))
  {
    assert Look(TheRing);
    var max, h' := |que|, EarlyPushed(h, t, slide, v);
    hide Behind;
    forall i | 0 <= i < max ensures que[i] == Held(h', pop, max, i) { assert que[i] == Held(h, pop, max, i); }
    forall i | i in h'.gaps ensures GapFits(pop, max, h', i) {
      if i != slide { assert GapFits(pop, max, h, i); }
    }
    forall i | i in h'.hands ensures HandFits(pop, max, h', i) {
      if i != slide { assert HandFits(pop, max, h, i); }
    }
  }

  lemma EarlyPushClaims(threads: map<OpId, Local>, h: History, t: OpId, slide: nat, v: Value)
    requires Claims(threads, h) && slide in h.early && slide !in h.gaps && slide !in h.hands
    requires t in threads && !threads[t].PushFill? && !threads[t].PopTake?
    ensures Claims(threads[t := PushFill(v, slide)], EarlyPushed(h, t, slide, v))
  {
    assert Look(TheClaims);
    GapAdded(threads, h.gaps, t, slide, v);
    EarlyServed(threads, h.hands, h.early, t, PushFill(v, slide), slide, v);
    hide GapsClaimed, HandsClaimed;
  }

  lemma GapAdded(threads: map<OpId, Local>, gaps: map<nat, Claim>, t: OpId, slide: nat, v: Value)
    requires GapsClaimed(threads, gaps) && slide !in gaps && t in threads && !threads[t].PushFill?
    ensures GapsClaimed(threads[t := PushFill(v, slide)], gaps[slide := Claim(t, v)])
  {}

  lemma EarlyServed(threads: map<OpId, Local>, hands: map<nat, Claim>, early: map<nat, OpId>, t: OpId, l: Local,
                    slide: nat, v: Value)
    requires HandsClaimed(threads, hands, early) && slide in early && slide !in hands
    requires t in threads && !threads[t].PopTake? && !l.PopTake?
    ensures HandsClaimed(threads[t := l], hands[slide := Claim(early[slide], v)], early - {slide})
  {}

  lemma EarlyOwner(threads: map<OpId, Local>, h: History, slide: nat)
    requires Claims(threads, h) && slide in h.early && slide !in h.hands
    ensures var u := h.early[slide]; u in threads && threads[u] == PopTake(slide)
    ensures forall u :: u in threads && threads[u] == PopTake(slide) ==> u == h.early[slide]
  {
    assert Look(TheClaims);
  }

  lemma EarlyPushExplained(h: History, t: OpId, slide: nat, v: Value)
    requires Explained(h) && slide in h.early && h.content == []
    ensures Explained(EarlyPushed(h, t, slide, v))
  {
    assert Look(TheLog);
    var e := Entry(t, Push(v), Ack);
    ReplaySnoc([], h.log, e);
    assert Effect([], Push(v)).0 == [v];
    ReplaySnoc([], h.log + [e], Entry(h.early[slide], Pop, Got(v)));
  }

  lemma EarlyPushTrack(trace: seq<Event>, h: History, threads: map<OpId, Local>, t: OpId, slide: nat, v: Value)
    requires Track(trace, h.log, PhasesOf(threads, h.hands)) && slide in h.early && slide !in h.hands
    requires t in threads && PhaseOf(threads[t], h.hands) == Pending(Push(v)) && !threads[t].PopTake?
    requires var u := h.early[slide]; u in threads && threads[u] == PopTake(slide)
    requires forall u :: u in threads && threads[u] == PopTake(slide) ==> u == h.early[slide]
    ensures var h' := EarlyPushed(h, t, slide, v);
      Track(trace + [Tau], h'.log, PhasesOf(threads[t := PushFill(v, slide)], h'.hands))
  {
    var u, h' := h.early[slide], EarlyPushed(h, t, slide, v);
    var m, m' := PhasesOf(threads, h.hands), PhasesOf(threads[t := PushFill(v, slide)], h'.hands);
    var m1 := m[t := Effected(Ack)];
    TrackAppend(trace, h.log, m, m1, Entry(t, Push(v), Ack));
    assert m' == m1[u := Effected(Got(v))];
    Linearizability.TrackEffect(trace, h.log + [Entry(t, Push(v), Ack)], m1, m', Entry(u, Pop, Got(v)));
  }

  lemma EarlyPushHistory(s: State, trace: seq<Event>, h: History, t: OpId, v: Value) returns (h': History)
    requires Ring(s.que, s.pop, h) && Line(s.push, s.pop, |s.que|, h) && Claims(s.threads, h) && Explained(h)
    requires Track(trace, h.log, PhasesOf(s.threads, h.hands))
    requires t in s.threads && s.threads[t] == PushClaim(v, s.push, s.push + 1)
    requires s.push + 1 != s.pop && !Filling(s.threads, s.push) && h.early != map[]
    ensures Ring(s.que, s.pop, h') && Line(NextPush(s.push, |s.que|), s.pop, |s.que|, h')
    ensures Claims(s.threads[t := PushFill(v, s.push)], h') && Explained(h')
    ensures Track(trace + [Tau], h'.log, PhasesOf(s.threads[t := PushFill(v, s.push)], h'.hands))
    ensures |h'.content| == |h.content| && |h'.early| == |h.early| - 1 && h'.ahead == h.ahead
  {
    hide Ring, Line, Claims, Explained, Track, Filling, NextPush;
    EarlyAlone(s.que, s.push, s.pop, h);
    h' := EarlyPushed(h, t, s.push, v);
    EarlyPushLine(s.push, s.pop, |s.que|, h, t, v);
    EarlyPushRing(s.que, s.pop, h, t, s.push, v);
    EarlyPushClaims(s.threads, h, t, s.push, v);
    EarlyOwner(s.threads, h, s.push);
    EarlyPushExplained(h, t, s.push, v);
    EarlyPushTrack(trace, h, s.threads, t, s.push, v);
  }

  lemma EarlyPush(s: State, trace: seq<Event>, h: History, t: OpId, v: Value)
    requires Holds(s, trace, h) && t in s.threads && s.threads[t] == PushClaim(v, s.push, s.push + 1)
    requires s.push + 1 != s.pop && !Filling(s.threads, s.push) && h.early != map[]
    ensures Simulated(Goto(s, t, PushFill(v, s.push)).(push := NextPush(s.push, |s.que|)), trace + [Tau], h.ahead)
  {
    hide Ring, Line, Claims, Explained, Tally, Track, Filling, NextPush;
    var l := PushFill(v, s.push);
    var h' := EarlyPushHistory(s, trace, h, t, v);
    SizeFits(s.size, h, s.threads);
    TallyMoves(s.size, s.size, h, h', s.threads, t, l);
    LocksSame(s.readers, s.writer, s.threads, HoldsShared, HoldsUnique, t, l);
    SlidesStep(|s.que|, |s.que|, s.threads, t, l);
    var _ := Inv(Goto(s, t, l).(push := NextPush(s.push, |s.que|)), trace + [Tau], h');
  }

  /** Nothing is in the slot at which a pop is early. */
  lemma EarlyAlone(que: seq<Slot>, push: nat, pop: nat, h: History)
    requires Ring(que, pop, h) && Line(push, pop, |que|, h) && h.early != map[]
    ensures InRange(push, pop, |que|) && h.content == [] && push in h.early
    ensures forall i :: i in h.early ==> i !in h.hands && i !in h.gaps && i < |que| && que[i] == Free
  {
    assert Look(TheLine) && Look(TheRing);
    assert EarlyFits(push, pop, |que|, h, push);
    assert Behind(pop, |que|, push) == Count(push, pop, |que|);
    forall i | i in h.early ensures i !in h.hands && i !in h.gaps && i < |que| && que[i] == Free {
      EarlyFree(que, push, pop, h, i);
    }
  }

  lemma EarlyFree(que: seq<Slot>, push: nat, pop: nat, h: History, i: nat)
    requires Ringed(que, pop, h) && Lined(push, pop, |que|, h) && i in h.early
    ensures i !in h.hands && i !in h.gaps && i < |que| && que[i] == Free
  {
    assert EarlyFits(push, pop, |que|, h, i);
    hide Behind, Count, InRange;
    assert i in h.gaps ==> GapFits(pop, |que|, h, i);
    assert que[i] == Held(h, pop, |que|, i);
  }

  // ----- A push fills its slot -----

  function Filled(h: History, slide: nat): History {
    h.(gaps := h.gaps - {slide})
  }

  lemma FillRing(que: seq<Slot>, pop: nat, h: History, slide: nat)
    requires Ring(que, pop, h) && slide in h.gaps && SlotAt(que, slide) == Free
    ensures slide < |que| && Ring(que[slide := Full(h.gaps[slide].v)], pop, Filled(h, slide))
  {
    assert Look(TheRing);
    var max, h' := |que|, Filled(h, slide);
    assert GapFits(pop, max, h, slide);
    var que' := que[slide := Full(h.gaps[slide].v)];
    hide Behind;
    assert que[slide] == Held(h, pop, max, slide);
    forall i | 0 <= i < max ensures que'[i] == Held(h', pop, max, i) {
      assert que[i] == Held(h, pop, max, i);
    }
    forall i | i in h'.gaps ensures GapFits(pop, max, h', i) { assert GapFits(pop, max, h, i); }
    forall i | i in h'.hands ensures HandFits(pop, max, h', i) { assert HandFits(pop, max, h, i); }
  }

  lemma FillClaims(threads: map<OpId, Local>, h: History, t: OpId, slide: nat, v: Value)
    requires Claims(threads, h) && t in threads && threads[t] == PushFill(v, slide)
    ensures slide in h.gaps && h.gaps[slide] == Claim(t, v) && Claims(threads[t := PushCount], Filled(h, slide))
  {
    assert Look(TheClaims);
  }

  lemma LineSame(push: nat, pop: nat, max: nat, h: History, h': History)
    requires Line(push, pop, max, h) && h'.content == h.content && h'.early == h.early
    requires forall i :: i in h'.hands ==> i in h.hands
    ensures Line(push, pop, max, h')
  {
    hide Count, Behind;
    if Lined(push, pop, max, h) && h.early != map[] {
      forall i: nat ensures EarlyFits(push, pop, max, h', i) { assert EarlyFits(push, pop, max, h, i); }
    }
  }

  lemma ExplainedSame(h: History, h': History)
    requires Explained(h) && h'.log == h.log && h'.content == h.content
    ensures Explained(h')
  {}

  lemma Fills(s: State, trace: seq<Event>, h: History, t: OpId, v: Value, slide: nat)
    requires Holds(s, trace, h) && t in s.threads && s.threads[t] == PushFill(v, slide) && SlotAt(s.que, slide) == Free
    ensures Simulated(Goto(s, t, PushCount).(que := SetSlot(s.que, slide, Full(v))), trace + [Tau], h.ahead)
  {
    hide Ring, Line, Claims, Explained, Tally, Track;
    var h' := Filled(h, slide);
    SizeFits(s.size, h, s.threads);
    FillClaims(s.threads, h, t, slide, v);
    FillRing(s.que, s.pop, h, slide);
    LineSame(s.push, s.pop, |s.que|, h, h');
    ExplainedSame(h, h');
    TallyMoves(s.size, s.size, h, h', s.threads, t, PushCount);
    LocksSame(s.readers, s.writer, s.threads, HoldsShared, HoldsUnique, t, PushCount);
    SlidesStep(|s.que|, |s.que|, s.threads, t, PushCount);
    TrackNext(trace, Tau, h.log, s.threads, h.hands, h.hands, t, PushCount);
    var _ := Inv(Goto(s, t, PushCount).(que := SetSlot(s.que, slide, Full(v))), trace + [Tau], h');
  }

  // ----- A pop claims a slot and empties it -----

  function Popped(h: History, t: OpId, slidetail: nat): History
    requires h.content != []
  {
    h.(content := h.content[1..], hands := h.hands[slidetail := Claim(t, h.content[0])],
      log := h.log + [Entry(t, Pop, Got(h.content[0]))])
  }

  lemma UnheldPop(threads: map<OpId, Local>, h: History, slidetail: nat)
    requires Claims(threads, h) && !Taking(threads, slidetail)
    ensures slidetail !in h.hands && slidetail !in h.early
  {
    assert Look(TheClaims);
  }

  /** The row loses its first slot. */
  lemma TakeRow(h: History, h': History, push: nat, pop: nat, max: nat, i: nat)
    requires InRange(push, pop, max) && |h.content| == Count(push, pop, max) > 0 && i < max
    requires h'.content == h.content[1..]
    ensures var tail := Tail(pop, max);
      if i == tail then
        InRow(h, pop, max, i) && !InRow(h', tail + 1, max, i) && h.content[Behind(pop, max, i)] == h.content[0]
      else
        && (InRow(h', tail + 1, max, i) <==> InRow(h, pop, max, i))
        && (InRow(h, pop, max, i) ==> h'.content[Behind(tail + 1, max, i)] == h.content[Behind(pop, max, i)])
  {
    FullIff(push, pop, max);
    if i != Tail(pop, max) { assert Behind(Tail(pop, max) + 1, max, i) == Behind(pop, max, i) - 1; }
  }

  lemma TakeSlot(que: seq<Slot>, push: nat, pop: nat, h: History, t: OpId, i: nat)
    requires Ringed(que, pop, h) && InRange(push, pop, |que|) && |h.content| == Count(push, pop, |que|) > 0
    requires Tail(pop, |que|) !in h.hands && i < |que|
    ensures var tail := Tail(pop, |que|);
      var h' := Popped(h, t, tail);
      && que[i] == Held(h', tail + 1, |que|, i)
      && (i in h'.gaps ==> GapFits(tail + 1, |que|, h', i)) && (i in h'.hands ==> HandFits(tail + 1, |que|, h', i))
  {
    TakeRow(h, Popped(h, t, Tail(pop, |que|)), push, pop, |que|, i);
    hide InRow, Behind, Tail, Count;
    assert que[i] == Held(h, pop, |que|, i);
    if i in h.gaps { assert GapFits(pop, |que|, h, i); }
    if i in h.hands { assert HandFits(pop, |que|, h, i); }
  }

  lemma ClaimsInRange(pop: nat, max: nat, h: History, i: nat)
    requires ClaimsFit(pop, max, h) && (i in h.gaps || i in h.hands)
    ensures i < max
  {
    hide InRow;
    if i in h.gaps { assert GapFits(pop, max, h, i); } else { assert HandFits(pop, max, h, i); }
  }

  lemma TakeSlots(que: seq<Slot>, push: nat, pop: nat, h: History, t: OpId)
    requires Ringed(que, pop, h) && Tail(pop, |que|) !in h.hands
    requires InRange(push, pop, |que|) && |h.content| == Count(push, pop, |que|) > 0
    ensures var tail := Tail(pop, |que|); SlotsHold(que, tail + 1, Popped(h, t, tail))
  {
    var tail := Tail(pop, |que|);
    var h' := Popped(h, t, tail);
    hide Ringed, Held, GapFits, HandFits, Count;
    forall i | 0 <= i < |que| ensures que[i] == Held(h', tail + 1, |que|, i) { TakeSlot(que, push, pop, h, t, i); }
  }

  lemma TakeFits(que: seq<Slot>, push: nat, pop: nat, h: History, t: OpId)
    requires Ringed(que, pop, h) && Tail(pop, |que|) !in h.hands
    requires InRange(push, pop, |que|) && |h.content| == Count(push, pop, |que|) > 0
    ensures var tail := Tail(pop, |que|); ClaimsFit(tail + 1, |que|, Popped(h, t, tail))
  {
    var max, tail := |que|, Tail(pop, |que|);
    var h' := Popped(h, t, tail);
    assert ClaimsFit(pop, max, h);
    hide Ringed, Held, GapFits, HandFits, Count;
    forall i | i in h'.gaps ensures GapFits(tail + 1, max, h', i) {
      ClaimsInRange(pop, max, h, i);
      TakeSlot(que, push, pop, h, t, i);
    }
    forall i | i in h'.hands ensures HandFits(tail + 1, max, h', i) {
      if i != tail { ClaimsInRange(pop, max, h, i); }
      TakeSlot(que, push, pop, h, t, i);
    }
  }

  lemma TakeLine(push: nat, pop: nat, max: nat, h: History, t: OpId)
    requires Line(push, pop, max, h) && h.early == map[] && h.content != []
    ensures InRange(push, pop, max) && |h.content| == Count(push, pop, max)
    ensures var tail := Tail(pop, max); Line(push, tail + 1, max, Popped(h, t, tail))
  {
    assert Look(TheLine);
    TakeShortensIff(push, pop, Tail(pop, max), max);
  }

  lemma TakeRing(que: seq<Slot>, push: nat, pop: nat, h: History, t: OpId)
    requires Ring(que, pop, h) && Tail(pop, |que|) !in h.hands
    requires InRange(push, pop, |que|) && |h.content| == Count(push, pop, |que|) > 0
    ensures var tail := Tail(pop, |que|); Ring(que, tail + 1, Popped(h, t, tail))
  {
    assert Look(TheRing);
    TakeSlots(que, push, pop, h, t);
    TakeFits(que, push, pop, h, t);
    hide SlotsHold, ClaimsFit;
  }

  lemma PopClaims(threads: map<OpId, Local>, h: History, t: OpId, slidetail: nat)
    requires Claims(threads, h) && slidetail !in h.hands && slidetail !in h.early && h.content != []
    requires t in threads && !threads[t].PushFill? && !threads[t].PopTake?
    ensures Claims(threads[t := PopTake(slidetail)], Popped(h, t, slidetail))
  {
    assert Look(TheClaims);
  }

  lemma PopHands(threads: map<OpId, Local>, h: History, t: OpId, slidetail: nat)
    requires Claims(threads, h) && slidetail !in h.hands && slidetail !in h.early && h.content != []
    ensures SameHands(h.hands, Popped(h, t, slidetail).hands, threads, t)
  {
    assert Look(TheClaims);
  }

  lemma PopExplained(h: History, t: OpId, slidetail: nat)
    requires Explained(h) && h.content != []
    ensures Explained(Popped(h, t, slidetail))
  {
    assert Look(TheLog);
    ReplaySnoc([], h.log, Entry(t, Pop, Got(h.content[0])));
  }

  lemma PopHistory(s: State, h: History, t: OpId, slidetail: nat) returns (h': History)
    requires Ring(s.que, s.pop, h) && Line(s.push, s.pop, |s.que|, h) && Claims(s.threads, h) && Explained(h)
    requires t in s.threads && s.threads[t].PopClaim? && !Taking(s.threads, slidetail)
    requires slidetail == Tail(s.pop, |s.que|) != s.push && h.early == map[]
    ensures Ring(s.que, slidetail + 1, h') && Line(s.push, slidetail + 1, |s.que|, h')
    ensures Claims(s.threads[t := PopTake(slidetail)], h') && Explained(h')
    ensures SameHands(h.hands, h'.hands, s.threads, t) && slidetail in h'.hands
    ensures h'.log == h.log + [Entry(t, Pop, Got(h'.hands[slidetail].v))] && |h'.content| == |h.content| - 1
    ensures h'.early == h.early && h'.ahead == h.ahead
  {
    hide Ring, Line, Claims, Explained, Count, Tail, Taking, SameHands;
    Ranges(s, h);
    h' := Popped(h, t, slidetail);
    UnheldPop(s.threads, h, slidetail);
    TakeLine(s.push, s.pop, |s.que|, h, t);
    TakeRing(s.que, s.push, s.pop, h, t);
    PopClaims(s.threads, h, t, slidetail);
    PopHands(s.threads, h, t, slidetail);
    PopExplained(h, t, slidetail);
  }

  lemma ClaimsPop(s: State, trace: seq<Event>, h: History, t: OpId, slidetail: nat)
    requires Holds(s, trace, h) && t in s.threads && s.threads[t] == PopClaim(s.pop, slidetail) && h.early == map[]
    requires slidetail == Tail(s.pop, |s.que|) != s.push && slidetail < |s.que| && !Taking(s.threads, slidetail)
    ensures Simulated(Goto(s, t, PopTake(slidetail)).(pop := slidetail + 1), trace + [Tau], h.ahead)
  {
    hide Ring, Line, Claims, Explained, Tally, Track, Tail, Taking, SameHands;
    var l := PopTake(slidetail);
    var h' := PopHistory(s, h, t, slidetail);
    SizeFits(s.size, h, s.threads);
    TallyMoves(s.size, s.size, h, h', s.threads, t, l);
    LocksSame(s.readers, s.writer, s.threads, HoldsShared, HoldsUnique, t, l);
    SlidesStep(|s.que|, |s.que|, s.threads, t, l);
    TrackEffect(trace, h.log, s.threads, h.hands, h'.hands, t, l, Pop, Got(h'.hands[slidetail].v));
    var _ := Inv(Goto(s, t, l).(pop := slidetail + 1), trace + [Tau], h');
  }

  // ----- A pop is early -----

  function PoppedEarly(h: History, t: OpId, slidetail: nat): History {
    h.(early := h.early[slidetail := t])
  }

  /** The first early pop finds the ring empty, and all other slots become part of the row. */
  lemma FirstEarlyLine(push: nat, pop: nat, max: nat, h: History, t: OpId)
    requires Line(push, pop, max, h) && h.early == map[] && Tail(pop, max) == push && push !in h.hands
    ensures h.content == [] && Line(push, push + 1, max, PoppedEarly(h, t, push))
  {
    assert Look(TheLine);
    var pop', h' := push + 1, PoppedEarly(h, t, push);
    FullIff(push, pop, max);
    assert push in h'.early;
    forall i: nat ensures EarlyFits(push, pop', max, h', i) {
      assert i < max ==> (Behind(push + 1, max, i) >= Count(push, push + 1, max) <==> i == push);
    }
  }

  /** Another one finds a slot in the row which the pop that claimed it before has emptied. */
  lemma NextEarlyLine(push: nat, pop: nat, max: nat, h: History, t: OpId)
    requires Line(push, pop, max, h) && h.early != map[] && Tail(pop, max) != push && Tail(pop, max) !in h.hands
    ensures var tail := Tail(pop, max); h.content == [] && Line(push, tail + 1, max, PoppedEarly(h, t, tail))
  {
    assert Look(TheLine);
    var tail := Tail(pop, max);
    var pop', h' := tail + 1, PoppedEarly(h, t, tail);
    TakeShortensIff(push, pop, tail, max);
    forall i: nat ensures EarlyFits(push, pop', max, h', i) {
      assert EarlyFits(push, pop, max, h, i);
      assert i < max ==> Behind(tail + 1, max, i) == if i == tail then max - 1 else Behind(pop, max, i) - 1;
    }
  }

  /** What slots hold does not depend on pop when nothing is in the ring. */
  lemma EarlyRing(que: seq<Slot>, pop: nat, pop': nat, h: History, h': History)
    requires Ring(que, pop, h) && h.content == [] && h' == h.(early := h'.early)
    ensures Ring(que, pop', h')
  {
    hide Behind;
    if Ringed(que, pop, h) {
      forall i | 0 <= i < |que| ensures que[i] == Held(h', pop', |que|, i) { assert que[i] == Held(h, pop, |que|, i); }
      forall i | i in h'.gaps ensures GapFits(pop', |que|, h', i) { assert GapFits(pop, |que|, h, i); }
      forall i | i in h'.hands ensures HandFits(pop', |que|, h', i) { assert HandFits(pop, |que|, h, i); }
    }
  }

  lemma EarlyClaims(threads: map<OpId, Local>, h: History, t: OpId, slidetail: nat)
    requires Claims(threads, h) && slidetail !in h.hands && slidetail !in h.early
    requires t in threads && !threads[t].PushFill? && !threads[t].PopTake?
    ensures Claims(threads[t := PopTake(slidetail)], PoppedEarly(h, t, slidetail))
  {
    assert Look(TheClaims);
  }

  lemma EarlyHistory(s: State, h: History, t: OpId, slidetail: nat) returns (h': History)
    requires Ring(s.que, s.pop, h) && Line(s.push, s.pop, |s.que|, h) && Claims(s.threads, h) && Explained(h)
    requires t in s.threads && s.threads[t].PopClaim? && !Taking(s.threads, slidetail)
    requires slidetail == Tail(s.pop, |s.que|) && (h.early != map[] || slidetail == s.push)
    ensures Ring(s.que, slidetail + 1, h') && Line(s.push, slidetail + 1, |s.que|, h')
    ensures Claims(s.threads[t := PopTake(slidetail)], h') && Explained(h')
    ensures slidetail !in h.hands && |h'.early| == |h.early| + 1
    ensures h'.log == h.log && h'.content == h.content && h'.hands == h.hands && h'.ahead == h.ahead
  {
    h' := PoppedEarly(h, t, slidetail);
    UnheldPop(s.threads, h, slidetail);
    hide Ring, Line, Claims, Explained, Count, Taking, Tail;
    if h.early == map[] {
      FirstEarlyLine(s.push, s.pop, |s.que|, h, t);
    } else {
      EarlyAlone(s.que, s.push, s.pop, h);
      NextEarlyLine(s.push, s.pop, |s.que|, h, t);
    }
    EarlyRing(s.que, s.pop, slidetail + 1, h, h');
    EarlyClaims(s.threads, h, t, slidetail);
    ExplainedSame(h, h');
  }

  lemma EarlyPop(s: State, trace: seq<Event>, h: History, t: OpId, slidetail: nat)
    requires Holds(s, trace, h) && t in s.threads && s.threads[t] == PopClaim(s.pop, slidetail) && h.ahead
    requires slidetail == Tail(s.pop, |s.que|) && slidetail < |s.que| && !Taking(s.threads, slidetail)
    requires h.early != map[] || slidetail == s.push
    ensures Simulated(Goto(s, t, PopTake(slidetail)).(pop := slidetail + 1), trace + [Tau], h.ahead)
  {
    hide Ring, Line, Claims, Explained, Tally, Track, Tail, Taking;
    var l := PopTake(slidetail);
    var h' := EarlyHistory(s, h, t, slidetail);
    SizeFits(s.size, h, s.threads);
    TallyMoves(s.size, s.size, h, h', s.threads, t, l);
    LocksSame(s.readers, s.writer, s.threads, HoldsShared, HoldsUnique, t, l);
    SlidesStep(|s.que|, |s.que|, s.threads, t, l);
    TrackNext(trace, Tau, h.log, s.threads, h.hands, h.hands, t, l);
    var _ := Inv(Goto(s, t, l).(pop := slidetail + 1), trace + [Tau], h');
  }

  // ----- A pop empties its slot -----

  function Emptied(h: History, slidetail: nat): History {
    h.(hands := h.hands - {slidetail})
  }

  /** What a pop finds in its slot is the element it has claimed, or nothing yet because a push
      is still to fill it. */
  lemma HandRing(que: seq<Slot>, pop: nat, h: History, slidetail: nat)
    requires Ring(que, pop, h) && slidetail in h.hands
    ensures slidetail < |que|
    ensures que[slidetail] == Free ==> slidetail in h.gaps
    ensures que[slidetail] != Free ==> que[slidetail] == Full(h.hands[slidetail].v)
    ensures que[slidetail] != Free ==> Ring(que[slidetail := Free], pop, Emptied(h, slidetail))
  {
    assert Look(TheRing);
    var max, h' := |que|, Emptied(h, slidetail);
    assert HandFits(pop, max, h, slidetail);
    assert que[slidetail] == Held(h, pop, max, slidetail);
    if que[slidetail] != Free {
      var que' := que[slidetail := Free];
      forall i | 0 <= i < max ensures que'[i] == Held(h', pop, max, i) {
        assert que[i] == Held(h, pop, max, i);
      }
      forall i | i in h'.gaps ensures GapFits(pop, max, h', i) { assert GapFits(pop, max, h, i); }
      forall i | i in h'.hands ensures HandFits(pop, max, h', i) { assert HandFits(pop, max, h, i); }
    }
  }

  lemma EmptyClaims(threads: map<OpId, Local>, h: History, t: OpId, slidetail: nat, v: Value)
    requires Claims(threads, h) && t in threads && threads[t] == PopTake(slidetail) && slidetail !in h.early
    ensures slidetail in h.hands && h.hands[slidetail].t == t
    ensures Claims(threads[t := PopCount(v)], Emptied(h, slidetail))
    ensures SameHands(h.hands, Emptied(h, slidetail).hands, threads, t)
  {
    assert Look(TheClaims);
  }

  lemma HandHistory(s: State, h: History, t: OpId, slidetail: nat, v: Value) returns (h': History)
    requires Ring(s.que, s.pop, h) && Line(s.push, s.pop, |s.que|, h) && Claims(s.threads, h) && Explained(h)
    requires t in s.threads && s.threads[t] == PopTake(slidetail) && SlotAt(s.que, slidetail) == Full(v)
    ensures var que := SetSlot(s.que, slidetail, Free);
      Ring(que, s.pop, h') && |que| == |s.que| && Line(s.push, s.pop, |que|, h')
    ensures Claims(s.threads[t := PopCount(v)], h') && Explained(h') && SameHands(h.hands, h'.hands, s.threads, t)
    ensures slidetail in h.hands && h.hands[slidetail].v == v
    ensures h'.log == h.log && h'.content == h.content && h'.early == h.early && h'.ahead == h.ahead
  {
    hide Ring, Line, Claims, Explained, SameHands;
    h' := Emptied(h, slidetail);
    if h.early != map[] { EarlyAlone(s.que, s.push, s.pop, h); }
    EmptyClaims(s.threads, h, t, slidetail, v);
    HandRing(s.que, s.pop, h, slidetail);
    LineSame(s.push, s.pop, |s.que|, h, h');
    ExplainedSame(h, h');
  }

  lemma Empties(s: State, trace: seq<Event>, h: History, t: OpId, slidetail: nat, v: Value)
    requires Holds(s, trace, h) && t in s.threads && s.threads[t] == PopTake(slidetail)
    requires SlotAt(s.que, slidetail) == Full(v)
    ensures Simulated(Goto(s, t, PopCount(v)).(que := SetSlot(s.que, slidetail, Free)), trace + [Tau], h.ahead)
  {
    hide Ring, Line, Claims, Explained, Tally, Track, SameHands, SetSlot;
    var l := PopCount(v);
    var h' := HandHistory(s, h, t, slidetail, v);
    SizeFits(s.size, h, s.threads);
    TallyMoves(s.size, s.size, h, h', s.threads, t, l);
    LocksSame(s.readers, s.writer, s.threads, HoldsShared, HoldsUnique, t, l);
    SlidesStep(|s.que|, |s.que|, s.threads, t, l);
    TrackNext(trace, Tau, h.log, s.threads, h.hands, h'.hands, t, l);
    var _ := Inv(Goto(s, t, l).(que := SetSlot(s.que, slidetail, Free)), trace + [Tau], h');
  }

  lemma FindsEmpty(s: State, trace: seq<Event>, h: History, t: OpId)
    requires Holds(s, trace, h) && t in s.threads && s.threads[t].PopCheck? && Tail(s.pop, |s.que|) == s.push
    ensures Simulated(Goto(s, t, PopExit(Empty)), trace + [Tau], h.ahead)
  {
    var l, h' := PopExit(Empty), h.(log := h.log + [Entry(t, Pop, Empty)]);
    SizeFits(s.size, h, s.threads);
    NothingIn(s.push, s.pop, |s.que|, h);
    EmptyRing(s.que, s.pop, h, h');
    LineSame(s.push, s.pop, |s.que|, h, h');
    EmptyExplained(h, t);
    LogClaims(s.threads, h, h', t, l);
    TallyMoves(s.size, s.size, h, h', s.threads, t, l);
    LocksSame(s.readers, s.writer, s.threads, HoldsShared, HoldsUnique, t, l);
    SlidesStep(|s.que|, |s.que|, s.threads, t, l);
    TrackEffect(trace, h.log, s.threads, h.hands, h.hands, t, l, Pop, Empty);
    var _ := Inv(Goto(s, t, l), trace + [Tau], h');
  }

  lemma LogClaims(threads: map<OpId, Local>, h: History, h': History, t: OpId, l: Local)
    requires Claims(threads, h) && h' == h.(log := h'.log) && t in threads
    requires !l.PushFill? && !l.PopTake? && !threads[t].PushFill? && !threads[t].PopTake?
    ensures Claims(threads[t := l], h')
  {}

  lemma NothingIn(push: nat, pop: nat, max: nat, h: History)
    requires Line(push, pop, max, h) && Tail(pop, max) == push
    ensures h.content == []
  {
    assert Look(TheLine);
  }

  lemma EmptyRing(que: seq<Slot>, pop: nat, h: History, h': History)
    requires Ring(que, pop, h) && h' == h.(log := h'.log)
    ensures Ring(que, pop, h')
  {
    hide Behind;
    if Ringed(que, pop, h) {
      forall i | 0 <= i < |que| ensures que[i] == Held(h', pop, |que|, i) { assert que[i] == Held(h, pop, |que|, i); }
      forall i | i in h'.gaps ensures GapFits(pop, |que|, h', i) { assert GapFits(pop, |que|, h, i); }
      forall i | i in h'.hands ensures HandFits(pop, |que|, h', i) { assert HandFits(pop, |que|, h, i); }
    }
  }

  lemma EmptyExplained(h: History, t: OpId)
    requires Explained(h) && h.content == []
    ensures Explained(h.(log := h.log + [Entry(t, Pop, Empty)]))
  {
    assert Look(TheLog);
    ReplaySnoc([], h.log, Entry(t, Pop, Empty));
  }

  // ----- The ring is doubled -----

  lemma DoubledRing(que: seq<Slot>, push: nat, pop: nat, h: History)
    requires Ring(que, pop, h) && Line(push, pop, |que|, h) && push != pop
    requires h.gaps == map[] && h.hands == map[] && h.early == map[]
    ensures Ring(Resized(que, push, pop), ResizedPop(push, pop, |que|), h)
    ensures Line(push, ResizedPop(push, pop, |que|), 2 * |que|, h)
  {
    assert Look(TheLine);
  }

  lemma Doubles(s: State, trace: seq<Event>, h: History, t: OpId)
    requires Holds(s, trace, h) && t in s.threads && s.threads[t].PushResize? && s.push != s.pop
    ensures Simulated(Instr(s, t, false), trace + [Tau], h.ahead)
  {
    var l := PushRelease(s.threads[t].v, s.threads[t].slide, s.threads[t].newslide);
    var que', pop' := Resized(s.que, s.push, s.pop), ResizedPop(s.push, s.pop, |s.que|);
    UniqueExcludes(s.readers, s.writer, s.threads, HoldsShared, HoldsUnique, t);
    NobodyHoldsShared(s.threads, h);
    SizeFits(s.size, h, s.threads);
    CarriesHolds(|s.que|, s.threads, t);
    DoubledRing(s.que, s.push, s.pop, h);
    ClaimsStay(s.threads, h, t, l);
    TallyMoves(s.size, s.size, h, h, s.threads, t, l);
    LocksSame(s.readers, s.writer, s.threads, HoldsShared, HoldsUnique, t, l);
    SlidesStep(|s.que|, |que'|, s.threads, t, l);
    TrackNext(trace, Tau, h.log, s.threads, h.hands, h.hands, t, l);
    var _ := Inv(Goto(s, t, l).(que := que', pop := pop'), trace + [Tau], h);
  }

  // ----- Every step -----

  lemma Ranges(s: State, h: History)
    requires Line(s.push, s.pop, |s.que|, h)
    ensures InRange(s.push, s.pop, |s.que|) && Count(s.push, s.pop, |s.que|) < |s.que| && Tail(s.pop, |s.que|) < |s.que|
    ensures h.early == map[] ==> |h.content| == Count(s.push, s.pop, |s.que|)
    ensures s.push + 1 == s.pop <==> Count(s.push, s.pop, |s.que|) == |s.que| - 1
    ensures Tail(s.pop, |s.que|) == s.push <==> Count(s.push, s.pop, |s.que|) == 0
  {
    assert Look(TheLine);
    FullIff(s.push, s.pop, |s.que|);
  }

  lemma PushSearchStep(s: State, trace: seq<Event>, h: History, t: OpId, miss: bool)
    requires Holds(s, trace, h) && t in s.threads
    requires var l := s.threads[t]; l.PushLock? || l.PushLoad? || l.PushCheck? || l.PushUnlock? || l.PushRelock?
    ensures Simulated(Instr(s, t, miss), trace + [Tau], h.ahead)
  {
    hide Ring, Line, Claims, Explained, Tally, Track;
    CarriesHolds(|s.que|, s.threads, t);
    match s.threads[t]
    case PushLock(v) => LocksShared(s, trace, h, t, PushLoad(v));
    case PushLoad(v) => Moves(s, trace, h, t, PushCheck(v, s.push, s.push + 1), Tau);
    case PushCheck(v, slide, newslide) =>
      Moves(s, trace, h, t,
        if newslide == s.pop then PushUnlock(v, slide, newslide) else PushClaim(v, slide, newslide), Tau);
    case PushUnlock(v, slide, newslide) => Unlocks(s, trace, h, t, PushTry(v, slide, newslide));
    case PushRelock(v, slide, newslide) => LocksShared(s, trace, h, t, PushCheck(v, slide, newslide));
  }

  lemma PushTryStep(s: State, trace: seq<Event>, h: History, t: OpId, miss: bool)
    requires Holds(s, trace, h) && t in s.threads && (s.threads[t].PushTry? || s.threads[t].PushRelease?)
    ensures Simulated(Instr(s, t, miss), trace + [Tau], h.ahead)
  {
    hide Ring, Line, Claims, Explained, Tally, Track;
    CarriesHolds(|s.que|, s.threads, t);
    SizeFits(s.size, h, s.threads);
    assert s.readers == {} || s.threads[t].PushRelease? ==> s.readers - {t} == s.readers by {
      if s.threads[t].PushRelease? {
        UniqueExcludes(s.readers, s.writer, s.threads, HoldsShared, HoldsUnique, t);
      }
    }
    match s.threads[t]
    case PushTry(v, slide, newslide) =>
      if s.readers == {} && !s.writer && !miss {
        var l := PushRecheck(v, slide, newslide);
        LocksStep(s.readers, s.writer, s.threads, HoldsShared, HoldsUnique, t, l, s.readers, true);
        Quiet(s, trace, h, t, l, Tau, s.readers, true, s.size);
        assert Goto(s, t, l).(readers := s.readers, writer := true, size := s.size) == Goto(s, t, l).(writer := true);
      } else {
        Moves(s, trace, h, t, PushRelock(v, slide, newslide), Tau);
      }
    case PushRelease(v, slide, newslide) =>
      var l := PushRelock(v, slide, newslide);
      LocksStep(s.readers, s.writer, s.threads, HoldsShared, HoldsUnique, t, l, s.readers, false);
      Quiet(s, trace, h, t, l, Tau, s.readers, false, s.size);
      assert Goto(s, t, l).(readers := s.readers, writer := false, size := s.size) == Goto(s, t, l).(writer := false);
  }

  lemma PushResizeStep(s: State, trace: seq<Event>, h: History, t: OpId, miss: bool)
    requires Holds(s, trace, h) && t in s.threads && (s.threads[t].PushRecheck? || s.threads[t].PushResize?)
    requires FlawOf(s, Exec(t, miss)) == NoFlaw || (h.ahead && FlawOf(s, Exec(t, miss)) == EmptyClaim)
    ensures Simulated(Instr(s, t, miss), trace + [Tau], h.ahead)
  {
    hide Ring, Line, Claims, Explained, Tally, Track;
    CarriesHolds(|s.que|, s.threads, t);
    match s.threads[t]
    case PushRecheck(v, slide, newslide) =>
      Moves(s, trace, h, t,
        if newslide == s.pop then PushResize(v, slide, newslide) else PushRelease(v, slide, newslide), Tau);
    case PushResize(v, slide, newslide) => Doubles(s, trace, h, t);
  }

  lemma PushClaimStep(s: State, trace: seq<Event>, h: History, t: OpId, miss: bool)
    requires Holds(s, trace, h) && t in s.threads
    requires var l := s.threads[t]; l.PushClaim? || l.PushFill? || l.PushExit?
    requires FlawOf(s, Exec(t, miss)) == NoFlaw || (h.ahead && FlawOf(s, Exec(t, miss)) == EmptyClaim)
    ensures Simulated(Instr(s, t, miss), trace + [Tau], h.ahead)
  {
    hide Ring, Line, Claims, Explained, Tally, Track;
    CarriesHolds(|s.que|, s.threads, t);
    match s.threads[t]
    case PushClaim(v, slide, newslide) =>
      if s.push == slide {
        if h.early == map[] { ClaimsPush(s, trace, h, t, v); } else { EarlyPush(s, trace, h, t, v); }
      } else {
        Moves(s, trace, h, t, PushCheck(v, s.push, s.push + 1), Tau);
      }
    case PushFill(v, slide) =>
      if SlotAt(s.que, slide) == Free && !miss {
        Fills(s, trace, h, t, v, slide);
      } else {
        Moves(s, trace, h, t, s.threads[t], Tau);
        assert Goto(s, t, s.threads[t]) == s;
      }
    case PushExit => Unlocks(s, trace, h, t, Exit(Ack));
  }

  lemma CountStep(s: State, trace: seq<Event>, h: History, t: OpId, miss: bool)
    requires Holds(s, trace, h) && t in s.threads && (s.threads[t].PushCount? || s.threads[t].PopCount?)
    ensures Simulated(Instr(s, t, miss), trace + [Tau], h.ahead)
  {
    var l := if s.threads[t].PushCount? then PushExit else PopExit(Got(s.threads[t].v));
    var size := if s.threads[t].PushCount? then Increment(s.size) else Decrement(s.size);
    SizeFits(s.size, h, s.threads);
    LocksSame(s.readers, s.writer, s.threads, HoldsShared, HoldsUnique, t, l);
    Quiet(s, trace, h, t, l, Tau, s.readers, s.writer, size);
    assert Goto(s, t, l).(readers := s.readers, writer := s.writer, size := size) == Goto(s, t, l).(size := size);
  }

  lemma PopTakeStep(s: State, trace: seq<Event>, h: History, t: OpId, miss: bool)
    requires Holds(s, trace, h) && t in s.threads && s.threads[t].PopTake?
    ensures Simulated(Instr(s, t, miss), trace + [Tau], h.ahead)
  {
    hide Ring, Line, Claims, Explained, Tally, Track;
    var slidetail := s.threads[t].slidetail;
    if SlotAt(s.que, slidetail) == Free {
      Moves(s, trace, h, t, s.threads[t], Tau);
      assert Goto(s, t, s.threads[t]) == s;
    } else {
      Empties(s, trace, h, t, slidetail, SlotAt(s.que, slidetail).v);
    }
  }

  lemma PopClaimStep(s: State, trace: seq<Event>, h: History, t: OpId, slidetail: nat)
    requires Holds(s, trace, h) && t in s.threads && s.threads[t] == PopClaim(s.pop, slidetail)
    requires slidetail == Tail(s.pop, |s.que|) && !Taking(s.threads, slidetail) && (slidetail == s.push ==> h.ahead)
    ensures Simulated(Goto(s, t, PopTake(slidetail)).(pop := slidetail + 1), trace + [Tau], h.ahead)
  {
    hide Ring, Line, Claims, Explained, Tally, Track, Tail, Taking;
    CarriesHolds(|s.que|, s.threads, t);
    if h.early == map[] && slidetail != s.push {
      ClaimsPop(s, trace, h, t, slidetail);
    } else {
      EarlyPop(s, trace, h, t, slidetail);
    }
  }

  lemma PopSearchStep(s: State, trace: seq<Event>, h: History, t: OpId, miss: bool)
    requires Holds(s, trace, h) && t in s.threads
    requires s.threads[t].PopLock? || s.threads[t].PopLoad? || s.threads[t].PopCheck?
    requires FlawOf(s, Exec(t, miss)) == NoFlaw || (h.ahead && FlawOf(s, Exec(t, miss)) == EmptyClaim)
    ensures Simulated(Instr(s, t, miss), trace + [Tau], h.ahead)
  {
    hide Ring, Line, Claims, Explained, Tally, Track, Count, Tail;
    CarriesHolds(|s.que|, s.threads, t);
    Ranges(s, h);
    match s.threads[t]
    case PopLock => LocksShared(s, trace, h, t, PopLoad);
    case PopLoad => Moves(s, trace, h, t, PopCheck(s.pop, Tail(s.pop, |s.que|)), Tau);
    case PopCheck(slide, slidetail) =>
      if slidetail == s.push {
        FindsEmpty(s, trace, h, t);
      } else {
        Moves(s, trace, h, t, PopClaim(slide, slidetail), Tau);
      }
  }

  lemma PopStep(s: State, trace: seq<Event>, h: History, t: OpId, miss: bool)
    requires Holds(s, trace, h) && t in s.threads
    requires s.threads[t].PopClaim? || s.threads[t].PopTake? || s.threads[t].PopExit?
    requires FlawOf(s, Exec(t, miss)) == NoFlaw || (h.ahead && FlawOf(s, Exec(t, miss)) == EmptyClaim)
    ensures Simulated(Instr(s, t, miss), trace + [Tau], h.ahead)
  {
    hide Ring, Line, Claims, Explained, Tally, Track, Count, Tail, Taking;
    CarriesHolds(|s.que|, s.threads, t);
    match s.threads[t]
    case PopClaim(slide, slidetail) =>
      if s.pop == slide {
        PopClaimStep(s, trace, h, t, slidetail);
      } else {
        Moves(s, trace, h, t, PopCheck(s.pop, slidetail), Tau);
      }
    case PopTake(slidetail) => PopTakeStep(s, trace, h, t, miss);
    case PopExit(res) => Unlocks(s, trace, h, t, Exit(res));
  }

  lemma StepIsSimulated(s: State, trace: seq<Event>, h: History, a: Action)
    requires Holds(s, trace, h) && Enabled(s, a, false)
    requires FlawOf(s, a) == NoFlaw || (h.ahead && FlawOf(s, a) == EmptyClaim)
    ensures Simulated(Step(s, a), trace + [EventOf(s, a)], h.ahead)
  {
    match a
    case Start(t, op) => Starts(s, trace, h, t, op);
    case Exec(t, miss) =>
      var l := s.threads[t];
      if l.Exit? {
        Moves(s, trace, h, t, Done, Ret(t, l.res));
      } else if l.PushLock? || l.PushLoad? || l.PushCheck? || l.PushUnlock? || l.PushRelock? {
        PushSearchStep(s, trace, h, t, miss);
      } else if l.PushTry? || l.PushRelease? {
        PushTryStep(s, trace, h, t, miss);
      } else if l.PushRecheck? || l.PushResize? {
        PushResizeStep(s, trace, h, t, miss);
      } else if l.PushCount? || l.PopCount? {
        CountStep(s, trace, h, t, miss);
      } else if l.PushClaim? || l.PushFill? || l.PushExit? {
        PushClaimStep(s, trace, h, t, miss);
      } else if l.PopLock? || l.PopLoad? || l.PopCheck? {
        PopSearchStep(s, trace, h, t, miss);
      } else {
        PopStep(s, trace, h, t, miss);
      }
  }

  // ----- Main results -----

  lemma InitIsSimulated(max: nat, ahead: bool)
    requires max > 0
    ensures Simulated(Init(max), [], ahead)
  {
    var h := History([], map[], map[], map[], [], ahead);
    TrackInit();
    assert PhasesOf(map[], map[]) == map[];
    BalanceAtRest(map[], Debt);
    assert Laps(0) == 0;
    LocksInit(HoldsShared, HoldsUnique);
    var _ := Inv(Init(max), [], h);
  }

  lemma {:induction false} RunIsSimulated(max: nat, acts: seq<Action>, single: bool, flaw: Flaw)
    requires max > 0 && OnlyFlaw(max, acts, single, flaw) && (flaw == NoFlaw || flaw == EmptyClaim)
    ensures Simulated(After(max, acts, single).state, After(max, acts, single).trace, flaw == EmptyClaim)
    decreases |acts|
  {
    if acts == [] {
      InitIsSimulated(max, flaw == EmptyClaim);
    } else {
      var before := After(max, acts[..|acts| - 1], single);
      var a := acts[|acts| - 1];
      RunIsSimulated(max, acts[..|acts| - 1], single, flaw);
      if Enabled(before.state, a, single) {
        var h: History :| h.ahead == (flaw == EmptyClaim) && Inv(before.state, before.trace, h);
        StepIsSimulated(before.state, before.trace, h, a);
      }
    }
  }

  /** In every run with no flaw but that pops may claim slots of an empty ring, with any number
      of pushes and pops at once, ringque is a linearizable first-in-first-out queue of any
      length, whatever the length of its first array. */
  lemma OrderlyIsFifo(max: nat, acts: seq<Action>, single: bool)
    requires max > 0 && OnlyFlaw(max, acts, single, EmptyClaim)
    ensures WellFormed(After(max, acts, single).trace) && Linearizable(After(max, acts, single).trace)
  {
    RunIsSimulated(max, acts, single, EmptyClaim);
    var r := After(max, acts, single);
    var h: History :| h.ahead && Inv(r.state, r.trace, h);
    TrackOrders(r.trace, h.log, PhasesOf(r.state.threads, h.hands));
    assert Explains(h) by { assert Look(TheLog); }
    assert Linearization(r.trace, h.log);
  }

  lemma PopIsServed(s: State, h: History, t: OpId)
    requires Ring(s.que, s.pop, h) && Claims(s.threads, h) && t in s.threads && s.threads[t].PopTake?
    requires h.early == map[]
    ensures var i := s.threads[t].slidetail; i < |s.que| && (s.que[i] == Free ==> Filling(s.threads, i))
  {
    assert Look(TheClaims);
    HandRing(s.que, s.pop, h, s.threads[t].slidetail);
  }

  /** And if there is no flaw at all, no pop waits in vain: the slot it has claimed is full, or a
      push is about to fill it. */
  lemma CleanPopsAreServed(max: nat, acts: seq<Action>, single: bool, t: OpId)
    requires max > 0 && Clean(max, acts, single)
    requires var s := After(max, acts, single).state; t in s.threads && s.threads[t].PopTake?
    ensures var s := After(max, acts, single).state; var i := s.threads[t].slidetail;
      i < |s.que| && (s.que[i] == Free ==> Filling(s.threads, i))
  {
    RunIsSimulated(max, acts, single, NoFlaw);
    var s := After(max, acts, single).state;
    var h: History :| !h.ahead && Inv(s, After(max, acts, single).trace, h);
    PopIsServed(s, h, t);
  }

  /** size() is exact, modulo 32 bits, whenever no operation is between its claim and its
      counting. */
  lemma SizeIsExactAtRest(max: nat, acts: seq<Action>, single: bool)
    requires max > 0 && OnlyFlaw(max, acts, single, EmptyClaim)
    requires forall t ::
      t in After(max, acts, single).state.threads ==> Debt(After(max, acts, single).state.threads[t]) == 0
    ensures var r := After(max, acts, single);
      exists log :: Linearization(r.trace, log) && r.state.size == |Replay([], log)| % WORD
  {
    RunIsSimulated(max, acts, single, EmptyClaim);
    var r := After(max, acts, single);
    var h: History :| h.ahead && Inv(r.state, r.trace, h);
    RestedSize(r.state.size, h, r.state.threads);
    TrackOrders(r.trace, h.log, PhasesOf(r.state.threads, h.hands));
    assert Explains(h) by { assert Look(TheLog); }
    assert Linearization(r.trace, h.log);
  }

  lemma RestedSize(size: nat, h: History, threads: map<OpId, Local>)
    requires Tally(size, h, threads) && Claims(threads, h) && forall t :: t in threads ==> Debt(threads[t]) == 0
    ensures size == |h.content| % WORD
  {
    assert h.early == map[] by { assert Look(TheClaims); }
    BalanceAtRest(threads, Debt);
    assert Tallied(size, h, threads) by { assert Look(TheTally); }
    Settles(size, |h.content|);
  }
}
