/** ringque with one producer and one consumer at a time: no run of this kind has a flaw. */
module RingqueSingle {
  import opened Linearizability
  import opened Counting
  import opened SharedMutex
  import opened Ringque
  import opened RingqueResize
  import opened RingqueFlaws
  import opened RingqueProof

  /** What an operation has read of the slides is still so. */
  predicate UpToDate(push: nat, pop: nat, max: nat, l: Local) {
    match l
    case PushCheck(_, slide, _) => slide == push
    case PushUnlock(_, slide, _) => slide == push
    case PushTry(_, slide, _) => slide == push
    case PushRecheck(_, slide, _) => slide == push
    case PushResize(_, slide, newslide) => slide == push && newslide == pop
    case PushRelease(_, slide, _) => slide == push
    case PushRelock(_, slide, _) => slide == push
    case PushClaim(_, slide, _) => slide == push && push + 1 != pop
    case PushFill(_, slide) => NextPush(slide, max) == push
    case PopCheck(slide, slidetail) => slide == pop && slidetail == Tail(pop, max)
    case PopClaim(slide, slidetail) => slide == pop && slidetail == Tail(pop, max) && slidetail != push
    case PopTake(slidetail) => slidetail + 1 == pop
    case _ => true
  }

  /** At most one push and one pop is under way, and both are up to date. */
  ghost predicate Solo(s: State) {
    && Sized(s) && Slides(|s.que|, s.threads)
    && (forall t, u :: t in s.threads && u in s.threads && Pushing(s.threads[t]) && Pushing(s.threads[u]) ==> t == u)
    && (forall t, u :: t in s.threads && u in s.threads && Popping(s.threads[t]) && Popping(s.threads[u]) ==> t == u)
    && (forall t :: t in s.threads ==> UpToDate(s.push, s.pop, |s.que|, s.threads[t]))
  }

  lemma SoloHasNoFlaw(s: State, a: Action)
    requires Solo(s) && Enabled(s, a, true)
    ensures FlawOf(s, a) == NoFlaw
  {
    if a.Exec? {
      assert UpToDate(s.push, s.pop, |s.que|, s.threads[a.t]) && Carries(s.threads[a.t], |s.que|);
    }
  }

  /** While one operation holds the unique side, nobody holds the shared side. */
  lemma Excluded(s: State, t: OpId, u: OpId)
    requires Locks(s.readers, s.writer, s.threads, HoldsShared, HoldsUnique)
    requires t in s.threads && u in s.threads && HoldsUnique(s.threads[t])
    ensures !HoldsShared(s.threads[u])
  {
    UniqueExcludes(s.readers, s.writer, s.threads, HoldsShared, HoldsUnique, t);
  }

  lemma PopSeesClaim(push: nat, pop: nat, max: nat, l: Local)
    requires InRange(push, pop, max) && push + 1 != pop && !Pushing(l) && UpToDate(push, pop, max, l)
    ensures UpToDate(NextPush(push, max), pop, max, l)
  {}

  lemma PushSeesClaim(push: nat, pop: nat, max: nat, l: Local)
    requires InRange(push, pop, max) && Tail(pop, max) != push && !Popping(l) && !l.PushResize?
    requires UpToDate(push, pop, max, l)
    ensures UpToDate(push, Tail(pop, max) + 1, max, l)
  {}

  lemma PopSeesResize(push: nat, pop: nat, max: nat, pop': nat, max': nat, l: Local)
    requires !Pushing(l) && !HoldsShared(l)
    ensures UpToDate(push, pop', max', l)
  {}

  /** Only three instructions change a slide or the array. */
  lemma SlidesStay(s: State, t: OpId, miss: bool)
    requires t in s.threads && !s.threads[t].PushClaim? && !s.threads[t].PushResize? && !s.threads[t].PopClaim?
    ensures var s' := Instr(s, t, miss); s'.push == s.push && s'.pop == s.pop && |s'.que| == |s.que|
  {}

  /** A step of the one push leaves the pop up to date, and the other way round. */
  lemma OtherStaysUpToDate(s: State, t: OpId, miss: bool, u: OpId)
    requires Solo(s) && Locks(s.readers, s.writer, s.threads, HoldsShared, HoldsUnique)
    requires t in s.threads && u in s.threads && u != t
    ensures var s' := Instr(s, t, miss); UpToDate(s'.push, s'.pop, |s'.que|, s.threads[u])
  {
    var l, m := s.threads[t], s.threads[u];
    assert UpToDate(s.push, s.pop, |s.que|, l) && UpToDate(s.push, s.pop, |s.que|, m) && Carries(l, |s.que|);
    if l.PushClaim? {
      PopSeesClaim(s.push, s.pop, |s.que|, m);
    } else if l.PushResize? {
      Excluded(s, t, u);
      PopSeesResize(s.push, s.pop, |s.que|, ResizedPop(s.push, s.pop, |s.que|), 2 * |s.que|, m);
    } else if l.PopClaim? {
      if m.PushResize? { Excluded(s, u, t); }
      PushSeesClaim(s.push, s.pop, |s.que|, m);
    } else {
      SlidesStay(s, t, miss);
    }
  }

  lemma PushIsUpToDate(s: State, t: OpId, miss: bool)
    requires Sized(s) && t in s.threads && Pushing(s.threads[t])
    requires UpToDate(s.push, s.pop, |s.que|, s.threads[t]) && Carries(s.threads[t], |s.que|)
    ensures var s' := Instr(s, t, miss); UpToDate(s'.push, s'.pop, |s'.que|, s'.threads[t])
  {
    hide Resized;
  }

  lemma PopIsUpToDate(s: State, t: OpId, miss: bool)
    requires Sized(s) && t in s.threads && !Pushing(s.threads[t])
    requires UpToDate(s.push, s.pop, |s.que|, s.threads[t]) && Carries(s.threads[t], |s.que|)
    ensures var s' := Instr(s, t, miss); UpToDate(s'.push, s'.pop, |s'.que|, s'.threads[t])
  {}

  lemma SoloStep(s: State, a: Action)
    requires Solo(s) && Enabled(s, a, true) && Locks(s.readers, s.writer, s.threads, HoldsShared, HoldsUnique)
    ensures Solo(Step(s, a))
  {
    SizedStep(s, a);
    if a.Exec? { ExecKeepsSolo(s, a.t, a.miss); }
  }

  lemma ExecKeepsSolo(s: State, t: OpId, miss: bool)
    requires Solo(s) && t in s.threads && Locks(s.readers, s.writer, s.threads, HoldsShared, HoldsUnique)
    requires Sized(Instr(s, t, miss)) && Slides(|Instr(s, t, miss).que|, Instr(s, t, miss).threads)
    ensures Solo(Instr(s, t, miss))
  {
    var s' := Instr(s, t, miss);
    KindsStay(s, t, miss);
    hide Instr, UpToDate, Pushing, Popping, Carries;
    assert UpToDate(s.push, s.pop, |s.que|, s.threads[t]) && Carries(s.threads[t], |s.que|);
    if Pushing(s.threads[t]) { PushIsUpToDate(s, t, miss); } else { PopIsUpToDate(s, t, miss); }
    forall u | u in s'.threads && u != t ensures UpToDate(s'.push, s'.pop, |s'.que|, s'.threads[u]) {
      OtherStaysUpToDate(s, t, miss, u);
    }
  }

  lemma KindsStay(s: State, t: OpId, miss: bool)
    requires t in s.threads
    ensures Pushing(Instr(s, t, miss).threads[t]) ==> Pushing(s.threads[t])
    ensures Popping(Instr(s, t, miss).threads[t]) ==> Popping(s.threads[t])
  {}

  // ----- Main results -----

  /** When pushes do not overlap and pops do not overlap, no run has a flaw. */
  lemma {:induction false} SingleIsClean(max: nat, acts: seq<Action>)
    requires max > 0
    ensures Clean(max, acts, true) && Solo(After(max, acts, true).state)
    decreases |acts|
  {
    if acts != [] {
      var r, a := After(max, acts[..|acts| - 1], true), acts[|acts| - 1];
      SingleIsClean(max, acts[..|acts| - 1]);
      if Enabled(r.state, a, true) {
        RunIsSimulated(max, acts[..|acts| - 1], true, NoFlaw);
        var h: History :| !h.ahead && Inv(r.state, r.trace, h);
        SoloHasNoFlaw(r.state, a);
        SoloStep(r.state, a);
      }
    }
  }

  /** With pushes that do not overlap and pops that do not overlap, ringque is a linearizable
      first-in-first-out queue of any length, whatever the length of its first array. */
  lemma RingqueIsFifo(max: nat, acts: seq<Action>)
    requires max > 0
    ensures WellFormed(After(max, acts, true).trace) && Linearizable(After(max, acts, true).trace)
  {
    SingleIsClean(max, acts);
    CleanAllows(max, acts, true, EmptyClaim);
    OrderlyIsFifo(max, acts, true);
  }

  /** A push never waits for a pop to empty the slot it has claimed: there is always one slot
      between them. */
  lemma FillNeverWaits(max: nat, acts: seq<Action>, t: OpId)
    requires max > 0
    requires t in After(max, acts, true).state.threads && After(max, acts, true).state.threads[t].PushFill?
    ensures var s := After(max, acts, true).state; s.threads[t].slide < |s.que| && s.que[s.threads[t].slide] == Free
  {
    SingleIsClean(max, acts);
    RunIsSimulated(max, acts, true, NoFlaw);
    var s := After(max, acts, true).state;
    var h: History :| !h.ahead && Inv(s, After(max, acts, true).trace, h);
    GapIsNull(s, h, t);
  }

  lemma GapIsNull(s: State, h: History, t: OpId)
    requires RingqueProof.Ring(s.que, s.pop, h) && Line(s.push, s.pop, |s.que|, h) && h.early == map[]
    requires Claims(s.threads, h) && Solo(s)
    requires t in s.threads && s.threads[t].PushFill?
    ensures s.threads[t].slide < |s.que| && s.que[s.threads[t].slide] == Free
  {
    assert Look(TheRing) && Look(TheLine) && Look(TheClaims);
    var i := s.threads[t].slide;
    assert GapFits(s.pop, |s.que|, h, i) && UpToDate(s.push, s.pop, |s.que|, s.threads[t]);
    assert s.que[i] == Held(h, s.pop, |s.que|, i);
    if i in h.hands {
      assert UpToDate(s.push, s.pop, |s.que|, s.threads[h.hands[i].t]);
      FullIff(s.push, s.pop, |s.que|);
    }
  }

  /** The test of a push for a full ring is true exactly when all slots but one are claimed,
      so that a resize finds push and pop apart and keeps the row of slots. */
  lemma FullTestIsExact(max: nat, acts: seq<Action>, t: OpId)
    requires max > 0 && t in After(max, acts, true).state.threads
    ensures var s := After(max, acts, true).state; var l := s.threads[t];
      && (l.PushCheck? || l.PushRecheck? ==> (l.newslide == s.pop <==> Count(s.push, s.pop, |s.que|) == |s.que| - 1))
      && (l.PushResize? ==> Count(s.push, s.pop, |s.que|) == |s.que| - 1)
      && (l.PushResize? ==>
            Row(Resized(s.que, s.push, s.pop), s.push, ResizedPop(s.push, s.pop, |s.que|)) == Row(s.que, s.push, s.pop))
  {
    SingleIsClean(max, acts);
    var s := After(max, acts, true).state;
    assert UpToDate(s.push, s.pop, |s.que|, s.threads[t]) && Carries(s.threads[t], |s.que|);
    FullIff(s.push, s.pop, |s.que|);
    ResizeKeepsRowIff(s.que, s.push, s.pop);
  }

  /** size() is exact, modulo 32 bits, whenever no operation is between its claim and its
      counting. */
  lemma SizeIsExactWhenSingle(max: nat, acts: seq<Action>)
    requires max > 0
    requires forall t ::
      t in After(max, acts, true).state.threads ==> Debt(After(max, acts, true).state.threads[t]) == 0
    ensures var r := After(max, acts, true);
      exists log :: Linearization(r.trace, log) && r.state.size == |Replay([], log)| % WORD
  {
    SingleIsClean(max, acts);
    CleanAllows(max, acts, true, EmptyClaim);
    SizeIsExactAtRest(max, acts, true);
  }
}
