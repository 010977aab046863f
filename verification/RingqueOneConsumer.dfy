/** ringque with any number of producers and one consumer at a time: of all flaws only a claim in
    a full ring and a resize of an empty one have to be kept out. */
module RingqueOneConsumer {
  import opened Linearizability
  import opened SharedMutex
  import opened Ringque
  import opened RingqueResize
  import opened RingqueFlaws
  import opened RingqueProof
  import opened RingqueSingle

  /** A pop is called only when no other is under way. */
  predicate PopsApart(s: State, a: Action) {
    a.Start? && a.op.Pop? ==> forall u | u in s.threads :: !Popping(s.threads[u])
  }

  /** Neither a claim in a full ring nor a resize with push equal to pop. */
  ghost predicate Sparing(s: State, a: Action)
    requires Enabled(s, a, false)
  {
    FlawOf(s, a) != FullClaim && FlawOf(s, a) != EmptyResize
  }

  /** The schedule keeps pops apart and those two flaws out. */
  ghost predicate OneConsumer(max: nat, acts: seq<Action>)
    decreases |acts|
  {
    acts == [] ||
    var s, a := After(max, acts[..|acts| - 1], false).state, acts[|acts| - 1];
    OneConsumer(max, acts[..|acts| - 1]) && (Enabled(s, a, false) ==> PopsApart(s, a) && Sparing(s, a))
  }

  /** At most one pop is under way, and it is up to date. */
  ghost predicate PopSolo(s: State) {
    && Sized(s) && Slides(|s.que|, s.threads)
    && (forall t, u :: t in s.threads && u in s.threads && Popping(s.threads[t]) && Popping(s.threads[u]) ==> t == u)
    && (forall t :: t in s.threads && !Pushing(s.threads[t]) ==> UpToDate(s.push, s.pop, |s.que|, s.threads[t]))
  }

  lemma PopSeesPush(s: State, t: OpId, miss: bool, u: OpId)
    requires PopSolo(s) && Locks(s.readers, s.writer, s.threads, HoldsShared, HoldsUnique)
    requires t in s.threads && u in s.threads && Pushing(s.threads[t]) && !Pushing(s.threads[u])
    requires Sparing(s, Exec(t, miss))
    ensures var s' := Instr(s, t, miss); UpToDate(s'.push, s'.pop, |s'.que|, s.threads[u])
  {
    var l, m := s.threads[t], s.threads[u];
    assert UpToDate(s.push, s.pop, |s.que|, m) && Carries(l, |s.que|);
    if l.PushClaim? {
      if s.push + 1 != s.pop { PopSeesClaim(s.push, s.pop, |s.que|, m); }
    } else if l.PushResize? {
      Excluded(s, t, u);
      PopSeesResize(s.push, s.pop, |s.que|, ResizedPop(s.push, s.pop, |s.que|), 2 * |s.que|, m);
    } else {
      SlidesStay(s, t, miss);
    }
  }

  lemma PopSeesItself(s: State, t: OpId, miss: bool, u: OpId)
    requires PopSolo(s) && t in s.threads && u in s.threads && !Pushing(s.threads[t]) && !Pushing(s.threads[u])
    requires u != t
    ensures var s' := Instr(s, t, miss); UpToDate(s'.push, s'.pop, |s'.que|, s.threads[u])
  {
    assert UpToDate(s.push, s.pop, |s.que|, s.threads[u]);
    if !s.threads[t].PopClaim? { SlidesStay(s, t, miss); }
  }

  /** A push that is over has nothing to be up to date with. */
  lemma PushIsOver(s: State, t: OpId, miss: bool)
    requires t in s.threads && Pushing(s.threads[t]) && !Pushing(Instr(s, t, miss).threads[t])
    ensures var s' := Instr(s, t, miss); UpToDate(s'.push, s'.pop, |s'.que|, s'.threads[t])
  {}

  lemma ExecKeepsPopSolo(s: State, t: OpId, miss: bool)
    requires PopSolo(s) && Locks(s.readers, s.writer, s.threads, HoldsShared, HoldsUnique)
    requires t in s.threads && s.threads[t] != Done && Sparing(s, Exec(t, miss))
    requires Sized(Instr(s, t, miss)) && Slides(|Instr(s, t, miss).que|, Instr(s, t, miss).threads)
    ensures PopSolo(Instr(s, t, miss))
  {
    var s' := Instr(s, t, miss);
    KindsStay(s, t, miss);
    hide Instr, UpToDate, Pushing, Popping, Carries, Sparing;
    assert Carries(s.threads[t], |s.que|);
    if !Pushing(s'.threads[t]) {
      if Pushing(s.threads[t]) { PushIsOver(s, t, miss); } else { PopIsUpToDate(s, t, miss); }
    }
    forall u | u in s'.threads && u != t && !Pushing(s'.threads[u])
      ensures UpToDate(s'.push, s'.pop, |s'.que|, s'.threads[u])
    {
      if Pushing(s.threads[t]) { PopSeesPush(s, t, miss, u); } else { PopSeesItself(s, t, miss, u); }
    }
  }

  lemma PopSoloStep(s: State, a: Action)
    requires PopSolo(s) && Enabled(s, a, false) && Locks(s.readers, s.writer, s.threads, HoldsShared, HoldsUnique)
    requires PopsApart(s, a) && Sparing(s, a)
    ensures PopSolo(Step(s, a))
  {
    SizedStep(s, a);
    if a.Exec? { ExecKeepsPopSolo(s, a.t, a.miss); }
  }

  /** A slot that a push has yet to fill is not claimed by another push before the ring is full:
      the one pop waits at it. */
  lemma HeldPushIsFull(s: State, h: History)
    requires PopSolo(s) && RingqueProof.Ring(s.que, s.pop, h) && Line(s.push, s.pop, |s.que|, h) && Claims(s.threads, h)
    requires h.early == map[]
    ensures Filling(s.threads, s.push) ==> s.push + 1 == s.pop
  {
    assert Look(TheRing) && Look(TheLine) && Look(TheClaims);
    if Filling(s.threads, s.push) {
      assert GapFits(s.pop, |s.que|, h, s.push);
      assert Behind(s.pop, |s.que|, s.push) == |h.content|;
      assert UpToDate(s.push, s.pop, |s.que|, s.threads[h.hands[s.push].t]);
    }
  }

  lemma PopSoloHasNoFlaw(s: State, h: History, a: Action)
    requires PopSolo(s) && RingqueProof.Ring(s.que, s.pop, h) && Line(s.push, s.pop, |s.que|, h) && Claims(s.threads, h)
    requires h.early == map[] && Enabled(s, a, false) && Sparing(s, a)
    ensures FlawOf(s, a) == NoFlaw
  {
    if a.Exec? {
      var l := s.threads[a.t];
      assert Carries(l, |s.que|) && (!Pushing(l) ==> UpToDate(s.push, s.pop, |s.que|, l));
      if l.PushClaim? { HeldPushIsFull(s, h); }
    }
  }

  /** With any number of producers and one consumer at a time, a run in which no push claims the
      last slot of a full ring and no resize finds push equal to pop has no flaw at all. */
  lemma {:induction false} OneConsumerIsClean(max: nat, acts: seq<Action>)
    requires max > 0 && OneConsumer(max, acts)
    ensures Clean(max, acts, false) && PopSolo(After(max, acts, false).state)
    decreases |acts|
  {
    if acts != [] {
      var r, a := After(max, acts[..|acts| - 1], false), acts[|acts| - 1];
      OneConsumerIsClean(max, acts[..|acts| - 1]);
      if Enabled(r.state, a, false) {
        RunIsSimulated(max, acts[..|acts| - 1], false, NoFlaw);
        var h: History :| !h.ahead && Inv(r.state, r.trace, h);
        PopSoloHasNoFlaw(r.state, h, a);
        PopSoloStep(r.state, a);
      }
    }
  }

  /** So it is linearizable. */
  lemma OneConsumerIsFifo(max: nat, acts: seq<Action>)
    requires max > 0 && OneConsumer(max, acts)
    ensures WellFormed(After(max, acts, false).trace) && Linearizable(After(max, acts, false).trace)
  {
    OneConsumerIsClean(max, acts);
    CleanAllows(max, acts, false, EmptyClaim);
    OrderlyIsFifo(max, acts, false);
  }
}
