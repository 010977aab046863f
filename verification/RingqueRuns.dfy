/** Runs of ringque that are put together operation by operation. */
module RingqueRuns {
  import opened Linearizability
  import opened Counting
  import opened Ringque
  import opened RingqueResize
  import opened RingqueFlaws

  /** The runs on a ring of max slots that have no flaw but this one. */
  datatype Kind = Kind(max: nat, flaw: Flaw)

  /** The schedule ends in s and shows clients the events seen. */
  ghost predicate Ends(k: Kind, acts: seq<Action>, s: State, seen: seq<Event>) {
    forall i {:trigger Inside(i)} :: Inside(i) ==>
      After(k.max, acts, false).state == s && Visible(After(k.max, acts, false).trace) == seen &&
      OnlyFlaw(k.max, acts, false, k.flaw)
  }

  ghost predicate Reached(k: Kind, s: State, seen: seq<Event>) {
    exists acts :: Ends(k, acts, s, seen)
  }

  ghost predicate Permits(k: Kind, s: State, a: Action)
    requires Enabled(s, a, false)
  {
    FlawOf(s, a) == NoFlaw || FlawOf(s, a) == k.flaw
  }

  lemma Begins(k: Kind, seen: seq<Event>)
    ensures Reached(k, Init(k.max), seen[..0])
  {
    assert Ends(k, [], Init(k.max), seen[..0]);
  }

  lemma Do(k: Kind, s: State, seen: seq<Event>, a: Action, s': State)
    requires Reached(k, s, seen) && Enabled(s, a, false) && Permits(k, s, a) && s' == Step(s, a)
    ensures Reached(k, s', seen + (if EventOf(s, a).Tau? then [] else [EventOf(s, a)]))
  {
    hide Step, EventOf, FlawOf;
    var acts :| Ends(k, acts, s, seen);
    assert Inside(0);
    assert (acts + [a])[..|acts + [a]| - 1] == acts;
    VisibleSnoc(After(k.max, acts, false).trace, EventOf(s, a));
    assert Ends(k, acts + [a], s', seen + (if EventOf(s, a).Tau? then [] else [EventOf(s, a)]));
  }

  /** An instruction that clients do not see. */
  lemma Tick(k: Kind, s: State, seen: seq<Event>, t: OpId, s': State)
    requires Reached(k, s, seen) && t in s.threads && !s.threads[t].Exit? && s.threads[t] != Done
    requires Permits(k, s, Exec(t, false)) && s' == Instr(s, t, false)
    ensures Reached(k, s', seen)
  {
    hide FlawOf;
    Do(k, s, seen, Exec(t, false), s');
    assert seen + [] == seen;
  }

  lemma Return(k: Kind, s: State, seen: seq<Event>, t: OpId)
    requires Reached(k, s, seen) && t in s.threads && s.threads[t].Exit?
    ensures Reached(k, Goto(s, t, Done), seen + [Ret(t, s.threads[t].res)])
  {
    Do(k, s, seen, Exec(t, false), Goto(s, t, Done));
  }

  /** An operation that gives back the mutex and returns. */
  lemma Leaves(k: Kind, s: State, seen: seq<Event>, t: OpId, res: Res, s': State)
    requires Reached(k, s, seen) && t in s.threads && s.threads[t] == (if res == Ack then PushExit else PopExit(res))
    requires s' == Goto(s, t, Done).(readers := s.readers - {t})
    ensures Reached(k, s', seen + [Ret(t, res)])
  {
    var s1 := Goto(s, t, Exit(res)).(readers := s.readers - {t});
    Tick(k, s, seen, t, s1);
    Return(k, s1, seen, t);
    assert Goto(s1, t, Done) == s';
  }

  // ----- Pushes -----

  /** A push that comes to its test for a full ring. */
  lemma PushComes(k: Kind, s: State, seen: seq<Event>, n: nat, t: OpId, v: Value, s': State)
    requires n + 1 <= |seen| && seen[n] == Call(t, Push(v))
    requires Reached(k, s, seen[..n]) && !s.writer && t !in s.threads
    requires s' == Goto(s, t, PushCheck(v, s.push, s.push + 1)).(readers := s.readers + {t})
    ensures Reached(k, s', seen[..n + 1])
  {
    assert seen[..n + 1] == seen[..n] + [seen[n]];
    var s1 := Goto(s, t, PushLock(v));
    var s2 := Goto(s1, t, PushLoad(v)).(readers := s.readers + {t});
    Do(k, s, seen[..n], Start(t, Push(v)), s1);
    Tick(k, s1, seen[..n + 1], t, s2);
    assert Instr(s2, t, false) == s';
    Tick(k, s2, seen[..n + 1], t, s');
  }

  /** A push that comes to its claim. */
  lemma PushPasses(k: Kind, s: State, seen: seq<Event>, n: nat, t: OpId, v: Value, s': State)
    requires n + 1 <= |seen| && seen[n] == Call(t, Push(v))
    requires Reached(k, s, seen[..n]) && !s.writer && t !in s.threads && s.push + 1 != s.pop
    requires s' == Goto(s, t, PushClaim(v, s.push, s.push + 1)).(readers := s.readers + {t})
    ensures Reached(k, s', seen[..n + 1])
  {
    var s1 := Goto(s, t, PushCheck(v, s.push, s.push + 1)).(readers := s.readers + {t});
    PushComes(k, s, seen, n, t, v, s1);
    assert Instr(s1, t, false) == s';
    Tick(k, s1, seen[..n + 1], t, s');
  }

  /** A push whose exchange succeeds, whatever has happened since its test. */
  lemma PushClaims(k: Kind, s: State, seen: seq<Event>, t: OpId, v: Value, s': State)
    requires Reached(k, s, seen) && t in s.threads && s.threads[t] == PushClaim(v, s.push, s.push + 1)
    requires Permits(k, s, Exec(t, false))
    requires s' == Goto(s, t, PushFill(v, s.push)).(push := NextPush(s.push, |s.que|))
    ensures Reached(k, s', seen)
  {
    hide Permits;
    Tick(k, s, seen, t, s');
  }

  /** A push that finds the slot it has claimed null. */
  lemma PushFills(k: Kind, s: State, seen: seq<Event>, n: nat, t: OpId, v: Value, i: nat, s': State)
    requires n + 1 <= |seen| && seen[n] == Ret(t, Ack)
    requires Reached(k, s, seen[..n]) && t in s.threads && s.threads[t] == PushFill(v, i)
    requires i < |s.que| && s.que[i] == Free && s.size + 1 < WORD
    requires s' ==
      Goto(s, t, Done).(que := s.que[i := Full(v)], size := s.size + 1, readers := s.readers - {t})
    ensures Reached(k, s', seen[..n + 1])
  {
    assert seen[..n + 1] == seen[..n] + [seen[n]];
    var s1 := Goto(s, t, PushCount).(que := s.que[i := Full(v)]);
    var s2 := Goto(s1, t, PushExit).(size := s.size + 1);
    Tick(k, s, seen[..n], t, s1);
    Tick(k, s1, seen[..n], t, s2);
    assert s' == Goto(s2, t, Done).(readers := s2.readers - {t});
    Leaves(k, s2, seen[..n], t, Ack, s');
  }

  /** A push that claims its slot and has yet to fill it. */
  lemma PushWaits(k: Kind, s: State, seen: seq<Event>, n: nat, t: OpId, v: Value, s': State)
    requires n + 1 <= |seen| && seen[n] == Call(t, Push(v))
    requires Reached(k, s, seen[..n]) && !s.writer && t !in s.threads && s.push + 1 != s.pop
    requires Filling(s.threads, s.push) ==> k.flaw == HeldPush
    requires s' == Goto(s, t, PushFill(v, s.push)).(push := NextPush(s.push, |s.que|), readers := s.readers + {t})
    ensures Reached(k, s', seen[..n + 1])
  {
    var s1 := Goto(s, t, PushClaim(v, s.push, s.push + 1)).(readers := s.readers + {t});
    PushPasses(k, s, seen, n, t, v, s1);
    assert s' == Goto(s1, t, PushFill(v, s1.push)).(push := NextPush(s1.push, |s1.que|));
    PushClaims(k, s1, seen[..n + 1], t, v, s');
  }

  /** A whole push with nobody in the way. */
  lemma PushesAlone(k: Kind, s: State, seen: seq<Event>, n: nat, t: OpId, v: Value, s': State)
    requires n + 2 <= |seen| && seen[n] == Call(t, Push(v)) && seen[n + 1] == Ret(t, Ack)
    requires Reached(k, s, seen[..n]) && !s.writer && t !in s.threads && t !in s.readers && s.push + 1 != s.pop
    requires s.push < |s.que| && s.que[s.push] == Free && s.size + 1 < WORD
    requires Filling(s.threads, s.push) ==> k.flaw == HeldPush
    requires s' == s.(que := s.que[s.push := Full(v)], push := NextPush(s.push, |s.que|), size := s.size + 1,
      threads := s.threads[t := Done])
    ensures Reached(k, s', seen[..n + 2])
  {
    var s1 := Goto(s, t, PushFill(v, s.push)).(push := NextPush(s.push, |s.que|), readers := s.readers + {t});
    PushWaits(k, s, seen, n, t, v, s1);
    hide Filling;
    assert s.readers + {t} - {t} == s.readers;
    assert s1.threads[t := Done] == s'.threads;
    PushFills(k, s1, seen, n + 1, t, v, s.push, s');
  }

  /** A push that finds the ring full gives the mutex back. */
  lemma PushGivesUp(k: Kind, s: State, seen: seq<Event>, t: OpId, v: Value, slide: nat, s': State)
    requires Reached(k, s, seen) && t in s.threads && s.threads[t] == PushCheck(v, slide, s.pop)
    requires s' == Goto(s, t, PushTry(v, slide, s.pop)).(readers := s.readers - {t})
    ensures Reached(k, s', seen)
  {
    var s1 := Goto(s, t, PushUnlock(v, slide, s.pop));
    Tick(k, s, seen, t, s1);
    assert Instr(s1, t, false) == s';
    Tick(k, s1, seen, t, s');
  }

  /** With the mutex to itself it doubles the array. */
  lemma PushDoubles(k: Kind, s: State, seen: seq<Event>, t: OpId, v: Value, slide: nat, s': State)
    requires Reached(k, s, seen) && t in s.threads && s.threads[t] == PushTry(v, slide, s.pop)
    requires s.readers == {} && !s.writer && (s.push == s.pop ==> k.flaw == EmptyResize)
    requires s' == Goto(s, t, PushRelock(v, slide, s.pop)).(que := Resized(s.que, s.push, s.pop),
      pop := ResizedPop(s.push, s.pop, |s.que|))
    ensures Reached(k, s', seen)
  {
    var s1 := Goto(s, t, PushRecheck(v, slide, s.pop)).(writer := true);
    Tick(k, s, seen, t, s1);
    var s2 := Goto(s1, t, PushResize(v, slide, s.pop));
    Tick(k, s1, seen, t, s2);
    PushResizes(k, s2, seen, t, v, slide, s');
  }

  lemma PushResizes(k: Kind, s: State, seen: seq<Event>, t: OpId, v: Value, slide: nat, s': State)
    requires Reached(k, s, seen) && t in s.threads && s.threads[t] == PushResize(v, slide, s.pop)
    requires s.push == s.pop ==> k.flaw == EmptyResize
    requires s' == Goto(s, t, PushRelock(v, slide, s.pop)).(que := Resized(s.que, s.push, s.pop),
      pop := ResizedPop(s.push, s.pop, |s.que|), writer := false)
    ensures Reached(k, s', seen)
  {
    var s1 := Goto(s, t, PushRelease(v, slide, s.pop)).(que := s'.que, pop := s'.pop);
    Tick(k, s, seen, t, s1);
    assert Instr(s1, t, false) == s';
    Tick(k, s1, seen, t, s');
  }

  /** It takes the mutex again, and its test lets it pass. */
  lemma PushComesBack(k: Kind, s: State, seen: seq<Event>, t: OpId, v: Value, slide: nat, newslide: nat, s': State)
    requires Reached(k, s, seen) && t in s.threads && s.threads[t] == PushRelock(v, slide, newslide)
    requires !s.writer && newslide != s.pop
    requires s' == Goto(s, t, PushClaim(v, slide, newslide)).(readers := s.readers + {t})
    ensures Reached(k, s', seen)
  {
    var s1 := Goto(s, t, PushCheck(v, slide, newslide)).(readers := s.readers + {t});
    Tick(k, s, seen, t, s1);
    assert Instr(s1, t, false) == s';
    Tick(k, s1, seen, t, s');
  }

  /** A push whose exchange fails goes by the slide it finds. */
  lemma PushRetries(k: Kind, s: State, seen: seq<Event>, t: OpId, v: Value, s': State)
    requires Reached(k, s, seen) && t in s.threads && s.threads[t].PushClaim? && s.threads[t].v == v
    requires s.threads[t].slide != s.push && s.push + 1 != s.pop && s' == Goto(s, t, PushClaim(v, s.push, s.push + 1))
    ensures Reached(k, s', seen)
  {
    var s1 := Goto(s, t, PushCheck(v, s.push, s.push + 1));
    Tick(k, s, seen, t, s1);
    assert Instr(s1, t, false) == s';
    Tick(k, s1, seen, t, s');
  }

  // ----- Pops -----

  /** A pop that comes to its test for an empty ring. */
  lemma PopComes(k: Kind, s: State, seen: seq<Event>, n: nat, t: OpId, s': State)
    requires n + 1 <= |seen| && seen[n] == Call(t, Pop)
    requires Reached(k, s, seen[..n]) && !s.writer && t !in s.threads
    requires s' == Goto(s, t, PopCheck(s.pop, Tail(s.pop, |s.que|))).(readers := s.readers + {t})
    ensures Reached(k, s', seen[..n + 1])
  {
    assert seen[..n + 1] == seen[..n] + [seen[n]];
    var s1 := Goto(s, t, PopLock);
    var s2 := Goto(s1, t, PopLoad).(readers := s.readers + {t});
    Do(k, s, seen[..n], Start(t, Pop), s1);
    Tick(k, s1, seen[..n + 1], t, s2);
    assert Instr(s2, t, false) == s';
    Tick(k, s2, seen[..n + 1], t, s');
  }

  /** A pop that comes to its claim. */
  lemma PopPasses(k: Kind, s: State, seen: seq<Event>, n: nat, t: OpId, s': State)
    requires n + 1 <= |seen| && seen[n] == Call(t, Pop)
    requires Reached(k, s, seen[..n]) && !s.writer && t !in s.threads && Tail(s.pop, |s.que|) != s.push
    requires s' == Goto(s, t, PopClaim(s.pop, Tail(s.pop, |s.que|))).(readers := s.readers + {t})
    ensures Reached(k, s', seen[..n + 1])
  {
    var s1 := Goto(s, t, PopCheck(s.pop, Tail(s.pop, |s.que|))).(readers := s.readers + {t});
    PopComes(k, s, seen, n, t, s1);
    assert Instr(s1, t, false) == s';
    Tick(k, s1, seen[..n + 1], t, s');
  }

  /** A pop whose exchange succeeds, whatever has happened since its test. */
  lemma PopClaims(k: Kind, s: State, seen: seq<Event>, t: OpId, slidetail: nat, s': State)
    requires Reached(k, s, seen) && t in s.threads && s.threads[t] == PopClaim(s.pop, slidetail)
    requires Permits(k, s, Exec(t, false))
    requires s' == Goto(s, t, PopTake(slidetail)).(pop := slidetail + 1)
    ensures Reached(k, s', seen)
  {
    hide Permits;
    Tick(k, s, seen, t, s');
  }

  /** A pop that finds an element in the slot it has claimed. */
  lemma PopTakes(k: Kind, s: State, seen: seq<Event>, n: nat, t: OpId, i: nat, v: Value, s': State)
    requires n + 1 <= |seen| && seen[n] == Ret(t, Got(v))
    requires Reached(k, s, seen[..n]) && t in s.threads && s.threads[t] == PopTake(i)
    requires i < |s.que| && s.que[i] == Full(v) && 0 < s.size < WORD
    requires s' ==
      Goto(s, t, Done).(que := s.que[i := Free], size := s.size - 1, readers := s.readers - {t})
    ensures Reached(k, s', seen[..n + 1])
  {
    assert seen[..n + 1] == seen[..n] + [seen[n]];
    var s1 := Goto(s, t, PopCount(v)).(que := s.que[i := Free]);
    var s2 := Goto(s1, t, PopExit(Got(v))).(size := s.size - 1);
    Tick(k, s, seen[..n], t, s1);
    Tick(k, s1, seen[..n], t, s2);
    assert s' == Goto(s2, t, Done).(readers := s2.readers - {t});
    Leaves(k, s2, seen[..n], t, Got(v), s');
  }

  /** A pop that claims its slot and has yet to empty it. */
  lemma PopWaits(k: Kind, s: State, seen: seq<Event>, n: nat, t: OpId, s': State)
    requires n + 1 <= |seen| && seen[n] == Call(t, Pop)
    requires Reached(k, s, seen[..n]) && !s.writer && t !in s.threads && Tail(s.pop, |s.que|) != s.push
    requires Taking(s.threads, Tail(s.pop, |s.que|)) ==> k.flaw == HeldPop
    requires var tail := Tail(s.pop, |s.que|);
      s' == Goto(s, t, PopTake(tail)).(pop := tail + 1, readers := s.readers + {t})
    ensures Reached(k, s', seen[..n + 1])
  {
    var tail := Tail(s.pop, |s.que|);
    var s1 := Goto(s, t, PopClaim(s.pop, tail)).(readers := s.readers + {t});
    PopPasses(k, s, seen, n, t, s1);
    assert s' == Goto(s1, t, PopTake(tail)).(pop := tail + 1);
    PopClaims(k, s1, seen[..n + 1], t, tail, s');
  }

  /** A whole pop with nobody in the way. */
  lemma PopsAlone(k: Kind, s: State, seen: seq<Event>, n: nat, t: OpId, v: Value, s': State)
    requires n + 2 <= |seen| && seen[n] == Call(t, Pop) && seen[n + 1] == Ret(t, Got(v))
    requires Reached(k, s, seen[..n]) && !s.writer && t !in s.threads && t !in s.readers
    requires var tail := Tail(s.pop, |s.que|);
      tail != s.push && tail < |s.que| && s.que[tail] == Full(v) && 0 < s.size < WORD
    requires Taking(s.threads, Tail(s.pop, |s.que|)) ==> k.flaw == HeldPop
    requires var tail := Tail(s.pop, |s.que|);
      s' == s.(que := s.que[tail := Free], pop := tail + 1, size := s.size - 1, threads := s.threads[t := Done])
    ensures Reached(k, s', seen[..n + 2])
  {
    var tail := Tail(s.pop, |s.que|);
    var s1 := Goto(s, t, PopTake(tail)).(pop := tail + 1, readers := s.readers + {t});
    PopWaits(k, s, seen, n, t, s1);
    hide Taking;
    assert s.readers + {t} - {t} == s.readers;
    assert s1.threads[t := Done] == s'.threads;
    PopTakes(k, s1, seen, n + 1, t, tail, v, s');
  }

  /** A pop whose exchange fails: it reads the new slide and keeps its old tail. */
  lemma PopRetries(k: Kind, s: State, seen: seq<Event>, t: OpId, s': State)
    requires Reached(k, s, seen) && t in s.threads && s.threads[t].PopClaim? && s.threads[t].slide != s.pop
    requires s' == Goto(s, t, PopCheck(s.pop, s.threads[t].slidetail))
    ensures Reached(k, s', seen)
  {
    Tick(k, s, seen, t, s');
  }

  /** A pop that finds nothing. */
  lemma PopFails(k: Kind, s: State, seen: seq<Event>, n: nat, t: OpId, s': State)
    requires n + 1 <= |seen| && seen[n] == Ret(t, Empty)
    requires Reached(k, s, seen[..n]) && t in s.threads && s.threads[t].PopCheck? && s.threads[t].slidetail == s.push
    requires Permits(k, s, Exec(t, false))
    requires s' == Goto(s, t, Done).(readers := s.readers - {t})
    ensures Reached(k, s', seen[..n + 1])
  {
    assert seen[..n + 1] == seen[..n] + [seen[n]];
    hide Permits;
    var s1 := Goto(s, t, PopExit(Empty));
    Tick(k, s, seen[..n], t, s1);
    assert s' == Goto(s1, t, Done).(readers := s1.readers - {t});
    Leaves(k, s1, seen[..n], t, Empty, s');
  }

  // ----- Runs that no order explains -----

  /** Some run of this kind shows clients the events seen and is not linearizable. */
  ghost predicate Unexplained(k: Kind, seen: seq<Event>) {
    exists acts :: OnlyFlaw(k.max, acts, false, k.flaw) && Visible(After(k.max, acts, false).trace) == seen &&
      !Linearizable(After(k.max, acts, false).trace)
  }

  lemma MissIsUnexplained(k: Kind, s: State, seen: seq<Event>, p: OpId, v: Value, u: OpId)
    requires Reached(k, s, seen) && Missed(seen, p, v, u)
    ensures Unexplained(k, seen)
  {
    hide Missed;
    var acts :| Ends(k, acts, s, seen);
    assert Inside(0);
    SeenToMiss(After(k.max, acts, false).trace, p, v, u);
  }

  lemma SwapIsUnexplained(k: Kind, s: State, seen: seq<Event>, p: OpId, v: Value, q: OpId, w: Value, c: OpId, d: OpId)
    requires Reached(k, s, seen) && Swapped(seen, p, v, q, w, c, d)
    ensures Unexplained(k, seen)
  {
    hide Swapped;
    var acts :| Ends(k, acts, s, seen);
    assert Inside(0);
    SeenToSwap(After(k.max, acts, false).trace, p, v, q, w, c, d);
  }
}
