/** swapque with two consumers: both find the front empty, each swaps, and the second swap
    puts the older element behind the newer ones. */
module SwapqueTwoConsumers {
  import opened Linearizability
  import opened NodeChains
  import opened Counting
  import opened Swapque

  /** The schedule ends in s and shows clients the events seen. */
  ghost predicate Ends(acts: seq<Action>, s: State, seen: seq<Event>) {
    forall k {:trigger Inside(k)} ::
        Inside(k) ==> After(acts, AnySwap).state == s && Visible(After(acts, AnySwap).trace) == seen
  }

  ghost predicate Reached(s: State, seen: seq<Event>) {
    exists acts :: Ends(acts, s, seen)
  }

  lemma Do(s: State, seen: seq<Event>, a: Action, s': State)
    requires Reached(s, seen) && Enabled(s, a, AnySwap) && s' == Step(s, a)
    ensures Reached(s', seen + (if EventOf(s, a).Tau? then [] else [EventOf(s, a)]))
  {
    var acts :| Ends(acts, s, seen);
    assert Inside(0);
    assert (acts + [a])[..|acts + [a]| - 1] == acts;
    VisibleSnoc(After(acts, AnySwap).trace, EventOf(s, a));
    assert Ends(acts + [a], s', seen + (if EventOf(s, a).Tau? then [] else [EventOf(s, a)]));
  }

  /** An instruction that clients do not see. */
  lemma Tick(s: State, seen: seq<Event>, t: OpId, s': State)
    requires Reached(s, seen) && t in s.threads && !s.threads[t].Exit? && s.threads[t] != Done
    requires (s.threads[t].PushCount? ==> s.size + 1 < WORD) && s' == Instr(s, t, false)
    ensures Reached(s', seen)
  {
    Do(s, seen, Exec(t, false), s');
    assert seen + [] == seen;
  }

  lemma Return(s: State, seen: seq<Event>, t: OpId, s': State)
    requires Reached(s, seen) && t in s.threads && s.threads[t].Exit? && s' == Goto(s, t, Done)
    ensures Reached(s', seen + [Ret(t, s.threads[t].res)])
  {
    Do(s, seen, Exec(t, false), s');
  }

  predicate Unlocked(s: State) { s.readers == {} && !s.writer }

  /** A whole push with nobody in the way. */
  lemma PushesAlone(s: State, seen: seq<Event>, t: OpId, v: Value, s': State)
    requires Reached(s, seen) && Unlocked(s) && t !in s.threads && s.size + 1 < WORD
    requires var n := Elem(t, v);
      s' == s.(next := s.next[n := Null][s.back.end := n], back := s.back.(end := n), size := s.size + 1,
        threads := s.threads[t := Done])
    ensures Reached(s', seen + [Call(t, Push(v))] + [Ret(t, Ack)])
  {
    var n, seen1 := Elem(t, v), seen + [Call(t, Push(v))];
    var s0 := Goto(s, t, PushTry(v)).(next := s.next[n := Null]);
    var s1 := Goto(s0, t, PushExchange(v)).(readers := {t});
    var s2 := Goto(s1, t, PushLink(v, s.back.end)).(back := s.back.(end := n));
    Do(s, seen, Start(t, Push(v)), s0);
    assert {} + {t} == {t};
    Tick(s0, seen1, t, s1);
    Tick(s1, seen1, t, s2);
    PushFinishes(s2, seen1, t, v, s.back.end, s');
  }

  lemma PushFinishes(s: State, seen: seq<Event>, t: OpId, v: Value, p: Node, s': State)
    requires Reached(s, seen) && s.readers == {t} && t in s.threads && s.threads[t] == PushLink(v, p)
    requires s.size + 1 < WORD
    requires s' ==
      s.(next := s.next[p := Elem(t, v)], size := s.size + 1, readers := {}, threads := s.threads[t := Done])
    ensures Reached(s', seen + [Ret(t, Ack)])
  {
    var s1 := Goto(s, t, PushCount(v)).(next := s.next[p := Elem(t, v)]);
    var s2 := Goto(s1, t, PushUnlock).(size := s.size + 1);
    var s3 := Goto(s2, t, Exit(Ack)).(readers := {});
    Tick(s, seen, t, s1);
    Tick(s1, seen, t, s2);
    assert {t} - {t} == {};
    Tick(s2, seen, t, s3);
    Return(s3, seen, t, Goto(s3, t, Done));
    assert Goto(s3, t, Done) == s';
  }

  /** A pop that finds the front at its end and the counter not zero. */
  lemma FindsFrontEmpty(s: State, seen: seq<Event>, t: OpId)
    requires Reached(s, seen) && Unlocked(s) && t !in s.threads && s.size > 0 && s.front.begin == s.front.end
    ensures Reached(Goto(s, t, PopTryUnique), seen + [Call(t, Pop)])
  {
    var seen1 := seen + [Call(t, Pop)];
    var s1 := Goto(s, t, PopStart);
    var s2 := Goto(s1, t, PopTry);
    var s3 := Goto(s2, t, PopBegin).(readers := {t});
    Do(s, seen, Start(t, Pop), s1);
    Tick(s1, seen1, t, s2);
    assert {} + {t} == {t};
    Tick(s2, seen1, t, s3);
    GivesUp(s3, seen1, t);
    assert Goto(s3, t, PopTryUnique).(readers := {}) == Goto(s, t, PopTryUnique);
  }

  lemma GivesUp(s: State, seen: seq<Event>, t: OpId)
    requires Reached(s, seen) && s.readers == {t} && t in s.threads && s.threads[t].PopBegin?
    requires s.size > 0 && s.front.begin == s.front.end
    ensures Reached(Goto(s, t, PopTryUnique).(readers := {}), seen)
  {
    var s1 := Goto(s, t, PopEnd(s.front.begin));
    var s2 := Goto(s1, t, PopSize);
    Tick(s, seen, t, s1);
    Tick(s1, seen, t, s2);
    Backs(s2, seen, t);
    assert Goto(s2, t, PopTryUnique).(readers := {}) == Goto(s, t, PopTryUnique).(readers := {});
  }

  lemma Backs(s: State, seen: seq<Event>, t: OpId)
    requires Reached(s, seen) && s.readers == {t} && t in s.threads && s.threads[t].PopSize? && s.size > 0
    ensures Reached(Goto(s, t, PopTryUnique).(readers := {}), seen)
  {
    var s1 := Goto(s, t, PopUnlock);
    var s2 := Goto(s1, t, PopTryUnique).(readers := {});
    Tick(s, seen, t, s1);
    assert {t} - {t} == {};
    Tick(s1, seen, t, s2);
    assert s2 == Goto(s, t, PopTryUnique).(readers := {});
  }

  lemma SwapsAlone(s: State, seen: seq<Event>, t: OpId)
    requires Reached(s, seen) && Unlocked(s) && t in s.threads && s.threads[t].PopTryUnique?
    ensures Reached(Goto(s, t, PopRelock).(front := s.back, back := s.front), seen)
  {
    var s1 := Goto(s, t, PopSwap).(writer := true);
    var s2 := Goto(s1, t, PopUnlockUnique).(front := s.back, back := s.front);
    var s3 := Goto(s2, t, PopRelock).(writer := false);
    Tick(s, seen, t, s1);
    Tick(s1, seen, t, s2);
    Tick(s2, seen, t, s3);
    assert s3 == Goto(s, t, PopRelock).(front := s.back, back := s.front);
  }

  /** The rest of a pop once there is something in the front. */
  lemma TakesAlone(s: State, seen: seq<Event>, t: OpId, n1: Node, s': State)
    requires Reached(s, seen) && Unlocked(s) && t in s.threads && s.threads[t].PopRelock?
    requires s.front.begin != s.front.end && Of(s.next, s.front.begin) == n1 && n1.Elem? && 0 < s.size < WORD
    requires s' == s.(front := s.front.(begin := n1), size := s.size - 1, threads := s.threads[t := Done])
    ensures Reached(s', seen + [Ret(t, Got(n1.data))])
  {
    var s1 := Goto(s, t, PopNext(s.front.begin)).(readers := {t});
    Searches(s, seen, t);
    Unlinks(s1, seen, t, n1, s');
  }

  lemma Searches(s: State, seen: seq<Event>, t: OpId)
    requires Reached(s, seen) && Unlocked(s) && t in s.threads && s.threads[t].PopRelock?
    requires s.front.begin != s.front.end
    ensures Reached(Goto(s, t, PopNext(s.front.begin)).(readers := {t}), seen)
  {
    var s1 := Goto(s, t, PopBegin).(readers := {t});
    var s2 := Goto(s1, t, PopEnd(s.front.begin));
    var s3 := Goto(s2, t, PopNext(s.front.begin));
    assert {} + {t} == {t};
    Tick(s, seen, t, s1);
    Tick(s1, seen, t, s2);
    Tick(s2, seen, t, s3);
    assert s3 == Goto(s, t, PopNext(s.front.begin)).(readers := {t});
  }

  lemma Unlinks(s: State, seen: seq<Event>, t: OpId, n1: Node, s': State)
    requires Reached(s, seen) && s.readers == {t} && t in s.threads && s.threads[t] == PopNext(s.front.begin)
    requires Of(s.next, s.front.begin) == n1 && n1.Elem? && 0 < s.size < WORD
    requires s' ==
      s.(front := s.front.(begin := n1), size := s.size - 1, readers := {}, threads := s.threads[t := Done])
    ensures Reached(s', seen + [Ret(t, Got(n1.data))])
  {
    var s1 := Goto(s, t, PopCas(s.front.begin, n1));
    var s2 := Goto(s1, t, PopTake(n1)).(front := s.front.(begin := n1));
    var s3 := Goto(s2, t, PopCount(n1.data));
    Tick(s, seen, t, s1);
    Tick(s1, seen, t, s2);
    Tick(s2, seen, t, s3);
    Delivers(s3, seen, t, n1.data, s');
  }

  lemma Delivers(s: State, seen: seq<Event>, t: OpId, v: Value, s': State)
    requires Reached(s, seen) && s.readers == {t} && t in s.threads && s.threads[t] == PopCount(v) && 0 < s.size < WORD
    requires s' == s.(size := s.size - 1, readers := {}, threads := s.threads[t := Done])
    ensures Reached(s', seen + [Ret(t, Got(v))])
  {
    var s1 := Goto(s, t, PopRelease(Got(v))).(size := s.size - 1);
    var s2 := Goto(s1, t, Exit(Got(v))).(readers := {});
    Tick(s, seen, t, s1);
    assert {t} - {t} == {};
    Tick(s1, seen, t, s2);
    Return(s2, seen, t, Goto(s2, t, Done));
    assert Goto(s2, t, Done) == s';
  }

  function Prelude(a: Value, b: Value): seq<Event> {
    [Call(0, Push(a)), Ret(0, Ack), Call(1, Pop), Call(2, Pop), Call(3, Push(b)), Ret(3, Ack), Call(4, Push(b)),
      Ret(4, Ack)]
  }

  function Violation(a: Value, b: Value): seq<Event> {
    Prelude(a, b) + [Ret(2, Got(b))] + [Ret(1, Got(b))]
  }

  /** a is pushed; both pops find the front empty; the first swaps; b is pushed twice. */
  lemma Prepare(a: Value, b: Value) returns (s: State)
    ensures Reached(s, Prelude(a, b))
    ensures Unlocked(s) && s.size == 3
    ensures s.front == Micro(Dummy(1), Elem(0, a)) && s.back == Micro(Dummy(0), Elem(4, b))
    ensures Of(s.next, Dummy(0)) == Elem(3, b) && Of(s.next, Elem(3, b)) == Elem(4, b)
    ensures s.threads == map[0 := Done, 1 := PopRelock, 2 := PopTryUnique, 3 := Done, 4 := Done]
  {
    assert Ends([], Init, []);
    var n, n3, n4 := Elem(0, a), Elem(3, b), Elem(4, b);
    var next1 := Init.next[n := Null][Dummy(1) := n];
    var front, back := Micro(Dummy(0), Dummy(0)), Micro(Dummy(1), n);
    var s1 := State(next1, front, back, 1, {}, false, map[0 := Done]);
    PushesAlone(Init, [], 0, a, s1);
    var seen1 := [] + [Call(0, Push(a))] + [Ret(0, Ack)];
    FindsFrontEmpty(s1, seen1, 1);
    var s2 := Goto(s1, 1, PopTryUnique);
    FindsFrontEmpty(s2, seen1 + [Call(1, Pop)], 2);
    var s3, seen3 := Goto(s2, 2, PopTryUnique), seen1 + [Call(1, Pop)] + [Call(2, Pop)];
    SwapsAlone(s3, seen3, 1);
    var s4 := State(next1, back, front, 1, {}, false, map[0 := Done, 1 := PopRelock, 2 := PopTryUnique]);
    assert s4 == Goto(s3, 1, PopRelock).(front := back, back := front);
    var s5 := State(next1[n3 := Null][Dummy(0) := n3], back, Micro(Dummy(0), n3), 2, {}, false, s4.threads[3 := Done]);
    PushesAlone(s4, seen3, 3, b, s5);
    s := State(s5.next[n4 := Null][n3 := n4], back, Micro(Dummy(0), n4), 3, {}, false, s5.threads[4 := Done]);
    PushesAlone(s5, seen3 + [Call(3, Push(b))] + [Ret(3, Ack)], 4, b, s);
    assert seen3 + [Call(3, Push(b))] + [Ret(3, Ack)] + [Call(4, Push(b))] + [Ret(4, Ack)] == Prelude(a, b);
  }

  /** The second pop swaps again, and both pops get b although a was pushed first. */
  lemma Violate(a: Value, b: Value) returns (s: State)
    ensures Reached(s, Violation(a, b))
  {
    var seen := Prelude(a, b);
    s := Prepare(a, b);
    SwapsAlone(s, seen, 2);
    s := Goto(s, 2, PopRelock).(front := s.back, back := s.front);
    var s1 := s.(front := Micro(Elem(3, b), Elem(4, b)), size := 2, threads := s.threads[2 := Done]);
    TakesAlone(s, seen, 2, Elem(3, b), s1);
    s := s1.(front := Micro(Elem(4, b), Elem(4, b)), size := 1, threads := s1.threads[1 := Done]);
    TakesAlone(s1, seen + [Ret(2, Got(b))], 1, Elem(4, b), s);
  }

  function Asked(t: OpId, a: Value, b: Value): Op {
    if t == 0 then Push(a) else if t <= 2 then Pop else Push(b)
  }

  /** What clients saw: a was in before b was pushed, and both pops got b. */
  ghost predicate OutOfOrder(seen: seq<Event>, a: Value, b: Value) {
    && Precedes(seen, 0, 3) && Precedes(seen, 0, 4)
    && Ret(0, Ack) in seen && Ret(1, Got(b)) in seen && Ret(2, Got(b)) in seen
    && forall t, op :: Call(t, op) in seen ==> t <= 4 && op == Asked(t, a, b)
  }

  lemma WhatIsSeen(a: Value, b: Value)
    ensures OutOfOrder(Violation(a, b), a, b)
  {
    var seen := Violation(a, b);
    assert seen[1] == Ret(0, Ack) && seen[4] == Call(3, Push(b)) && seen[6] == Call(4, Push(b));
    assert seen[8] == Ret(2, Got(b)) && seen[9] == Ret(1, Got(b));
  }

  lemma NoOrderExplains(trace: seq<Event>, log: seq<Entry>, a: Value, b: Value)
    requires a != b && OutOfOrder(trace, a, b)
    ensures !Linearization(trace, log)
  {
    if Linearization(trace, log) {
      var op0 :| Entry(0, op0, Ack) in log;
      var op1 :| Entry(1, op1, Got(b)) in log;
      var op2 :| Entry(2, op2, Got(b)) in log;
      assert Call(0, op0) in trace && Call(1, op1) in trace && Call(2, op2) in trace;
      OldestIsPopped(trace, log, 0, a);
      var e :| e in log && e.res == Got(a);
      assert Call(e.t, e.op) in trace;
      GotByPop([], log, e);
    }
  }

  /** Two consumers break the order: there is a run that is not linearizable. */
  lemma TwoConsumersBreakTheOrder(a: Value, b: Value)
    requires a != b
    ensures exists acts :: !Linearizable(After(acts, AnySwap).trace)
  {
    var s := Violate(a, b);
    var acts :| Ends(acts, s, Violation(a, b));
    assert Inside(0);
    WhatIsSeen(a, b);
    SeesAll(After(acts, AnySwap).trace);
    forall log ensures !Linearization(After(acts, AnySwap).trace, log) {
      NoOrderExplains(After(acts, AnySwap).trace, log, a, b);
    }
  }
}
