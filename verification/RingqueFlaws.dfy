/** What can go wrong with one instruction of ringque, and what an instruction that goes wrong
    does to the row of claimed slots. */
module RingqueFlaws {
  import opened Linearizability
  import opened Ringque
  import opened RingqueResize

  // ----- Flaws -----

  /** FullClaim: a push claims the last slot a full ring keeps free.  HeldPush: it claims a slot
      that another push has yet to fill.  EmptyResize: an array with push equal to pop is
      doubled.  StaleEmpty: a pop finds nothing behind a tail that is not the tail any more.
      StaleClaim: it claims the slot of such a tail.  HeldPop: it claims a slot that another pop
      has yet to empty.  EmptyClaim: it claims any other slot of an empty ring. */
  datatype Flaw = NoFlaw | FullClaim | HeldPush | EmptyResize | StaleEmpty | StaleClaim | HeldPop | EmptyClaim

  ghost predicate Filling(threads: map<OpId, Local>, i: nat) {
    exists u :: u in threads && threads[u].PushFill? && threads[u].slide == i
  }

  ghost predicate Taking(threads: map<OpId, Local>, i: nat) {
    exists u :: u in threads && threads[u].PopTake? && threads[u].slidetail == i
  }

  /** What is wrong with an action, if anything is. */
  ghost function FlawOf(s: State, a: Action): Flaw
    requires Enabled(s, a, false)
  {
    match a
    case Start(_, _) => NoFlaw
    case Exec(t, _) =>
      match s.threads[t]
      case PushClaim(_, slide, _) =>
        if s.push != slide then NoFlaw
        else if s.push + 1 == s.pop then FullClaim
        else if Filling(s.threads, slide) then HeldPush
        else NoFlaw
      case PushResize(_, _, _) => if s.push == s.pop then EmptyResize else NoFlaw
      case PopCheck(_, slidetail) =>
        if slidetail == s.push && slidetail != Tail(s.pop, |s.que|) then StaleEmpty else NoFlaw
      case PopClaim(slide, slidetail) =>
        if s.pop != slide then NoFlaw
        else if slidetail != Tail(s.pop, |s.que|) then StaleClaim
        else if Taking(s.threads, slidetail) then HeldPop
        else if slidetail == s.push then EmptyClaim
        else NoFlaw
      case _ => NoFlaw
  }

  /** The actions of the schedule have no flaw other than this one. */
  ghost predicate OnlyFlaw(max: nat, acts: seq<Action>, single: bool, flaw: Flaw)
    decreases |acts|
  {
    acts == [] ||
    var s, a := After(max, acts[..|acts| - 1], single).state, acts[|acts| - 1];
    && OnlyFlaw(max, acts[..|acts| - 1], single, flaw)
    && (Enabled(s, a, single) && FlawOf(s, a) != NoFlaw ==> FlawOf(s, a) == flaw)
  }

  /** The actions of the schedule have no flaw. */
  ghost predicate Clean(max: nat, acts: seq<Action>, single: bool) {
    OnlyFlaw(max, acts, single, NoFlaw)
  }

  lemma {:induction false} CleanAllows(max: nat, acts: seq<Action>, single: bool, flaw: Flaw)
    requires Clean(max, acts, single)
    ensures OnlyFlaw(max, acts, single, flaw)
    decreases |acts|
  {
    if acts != [] { CleanAllows(max, acts[..|acts| - 1], single, flaw); }
  }

  // ----- What every run keeps -----

  /** The slides an operation carries with it. */
  predicate Carries(l: Local, max: nat) {
    match l
    case PushCheck(_, slide, newslide) => newslide == slide + 1
    case PushUnlock(_, slide, newslide) => newslide == slide + 1
    case PushTry(_, slide, newslide) => newslide == slide + 1
    case PushRecheck(_, slide, newslide) => newslide == slide + 1
    case PushResize(_, slide, newslide) => newslide == slide + 1
    case PushRelease(_, slide, newslide) => newslide == slide + 1
    case PushRelock(_, slide, newslide) => newslide == slide + 1
    case PushClaim(_, slide, newslide) => newslide == slide + 1
    case PopCheck(_, slidetail) => slidetail < max
    case PopClaim(_, slidetail) => slidetail < max
    case _ => true
  }

  predicate Sized(s: State) {
    InRange(s.push, s.pop, |s.que|)
  }

  ghost predicate Slides(max: nat, threads: map<OpId, Local>) {
    forall t :: t in threads ==> Carries(threads[t], max)
  }

  lemma SizedStep(s: State, a: Action)
    requires Sized(s) && Slides(|s.que|, s.threads) && Enabled(s, a, false)
    ensures var s' := Step(s, a); Sized(s') && Slides(|s'.que|, s'.threads) && |s'.que| >= |s.que|
  {
    if a.Exec? { assert Carries(s.threads[a.t], |s.que|); }
  }

  /** In every run, however operations overlap, push and pop are in their ranges. */
  lemma {:induction false} AlwaysSized(max: nat, acts: seq<Action>, single: bool)
    requires max > 0
    ensures var s := After(max, acts, single).state; Sized(s) && Slides(|s.que|, s.threads)
    decreases |acts|
  {
    if acts != [] {
      var s, a := After(max, acts[..|acts| - 1], single).state, acts[|acts| - 1];
      AlwaysSized(max, acts[..|acts| - 1], single);
      if Enabled(s, a, single) { SizedStep(s, a); }
    }
  }

  // ----- Exactly when an instruction does to the row what it should -----

  function RowOf(s: State): seq<Slot> {
    Row(s.que, s.push, s.pop)
  }

  /** In every run, the exchange of a push adds the claimed slot to the row, and nothing else, if
      and only if the ring is not full when it happens, whatever the test for a full ring said
      before; if it is full, the row is gone. */
  lemma PushClaimIsSoundIff(max: nat, acts: seq<Action>, t: OpId, miss: bool)
    requires max > 0
    requires var s := After(max, acts, false).state;
      t in s.threads && s.threads[t].PushClaim? && s.threads[t].slide == s.push
    ensures var s := After(max, acts, false).state;
      var s' := Instr(s, t, miss);
      && s.push < |s.que|
      && (RowOf(s') == RowOf(s) + [s.que[s.push]] <==> s.push + 1 != s.pop)
      && (s.push + 1 == s.pop ==> RowOf(s') == [])
  {
    AlwaysSized(max, acts, false);
    var s := After(max, acts, false).state;
    assert Carries(s.threads[t], |s.que|);
    ClaimExtendsRowIff(s.que, s.push, s.pop);
  }

  /** In every run, the exchange of a pop takes the slot it goes on to empty, the first one, off
      the row if and only if the ring is not empty when it happens and the tail is that of the
      slide. */
  lemma PopClaimIsSoundIff(max: nat, acts: seq<Action>, t: OpId, miss: bool)
    requires max > 0
    requires var s := After(max, acts, false).state;
      t in s.threads && s.threads[t].PopClaim? && s.threads[t].slide == s.pop
    ensures var s := After(max, acts, false).state;
      var s', slidetail := Instr(s, t, miss), s.threads[t].slidetail;
      && slidetail < |s.que| && s'.threads[t] == PopTake(slidetail)
      && (|RowOf(s')| == |RowOf(s)| - 1 <==> slidetail == Tail(s.pop, |s.que|) && slidetail != s.push)
      && (|RowOf(s')| == |RowOf(s)| - 1 ==> RowOf(s) == [s.que[slidetail]] + RowOf(s'))
  {
    AlwaysSized(max, acts, false);
    var s := After(max, acts, false).state;
    assert Carries(s.threads[t], |s.que|);
    var slidetail := s.threads[t].slidetail;
    assert Instr(s, t, miss) == Goto(s, t, PopTake(slidetail)).(pop := slidetail + 1);
    hide After, Instr, Row, Tail, InRange, Carries;
    TakeDropsFirstIff(s.que, s.push, s.pop, slidetail);
  }

  /** In every run, the test of a pop for an empty ring is right if and only if it does not say
      "empty" behind a tail that is not the tail any more, nor miss an empty ring there. */
  lemma EmptyTestIsRightIff(max: nat, acts: seq<Action>, t: OpId)
    requires max > 0
    requires var s := After(max, acts, false).state; t in s.threads && s.threads[t].PopCheck?
    ensures var s := After(max, acts, false).state;
      var slidetail, tail := s.threads[t].slidetail, Tail(s.pop, |s.que|);
      (slidetail == s.push <==> RowOf(s) == []) <==> slidetail == tail || (slidetail != s.push && tail != s.push)
  {
    AlwaysSized(max, acts, false);
    var s := After(max, acts, false).state;
    FullIff(s.push, s.pop, |s.que|);
    assert RowOf(s) == [] <==> Count(s.push, s.pop, |s.que|) == 0;
  }

  /** In every run, a resize keeps the row if and only if push and pop differ. */
  lemma ResizeIsSoundIff(max: nat, acts: seq<Action>, t: OpId, miss: bool)
    requires max > 0
    requires var s := After(max, acts, false).state; t in s.threads && s.threads[t].PushResize?
    ensures var s := After(max, acts, false).state; RowOf(Instr(s, t, miss)) == RowOf(s) <==> s.push != s.pop
  {
    AlwaysSized(max, acts, false);
    var s := After(max, acts, false).state;
    ResizeKeepsRowIff(s.que, s.push, s.pop);
  }
}
