/** An operation of msque that goes on alone returns after a few instructions, with the answer the
    history of its list gives. */
module MsqueProgress {
  import opened Linearizability
  import opened NodeChains
  import opened Msque
  import opened MsqueProof

  /** t alone takes n steps, none of them a spurious failure. */
  function Own(t: OpId, n: nat): seq<Action> { seq(n, _ => Exec(t, false)) }

  // ----- How many instructions are left -----

  /** The end of list g is its last node. */
  predicate Clean(s: State, g: nat) {
    Of(s.next, ListAt(s, g).end) == Null
  }

  /** From the start of a round of a push: help once if the end of the list lags. */
  function TopRank(s: State): nat {
    if Clean(s, s.cur) then 8 else 12
  }

  function LinkRank(s: State, hp: Node): nat {
    if Of(s.next, hp) == Null then 4 else 1 + TopRank(s)
  }

  function HelpRank(s: State, g: nat, hp: Node): nat {
    if ListAt(s, g).end == hp && g == s.cur then 9 else 1 + TopRank(s)
  }

  function EndRank(s: State, g: nat, hp: Node): nat {
    if ListAt(s, g).end == hp && Of(s.next, hp) == Null then 6 else 1 + HelpRank(s, g, hp)
  }

  function Rank(s: State, t: OpId): nat
    requires t in s.threads
  {
    match s.threads[t]
    case PushTop(_) => TopRank(s)
    case PushList(_, g) => 1 + EndRank(s, g, ListAt(s, g).end)
    case PushEnd(_, g, hp) => EndRank(s, g, hp)
    case PushHelp(_, g, hp, _) => HelpRank(s, g, hp)
    case PushAgain(_, g, hp) => 1 + (if ListAt(s, g).end == hp then LinkRank(s, hp) else TopRank(s))
    case PushLink(_, _, hp) => LinkRank(s, hp)
    case PushSwing(_, _, _) => 3
    case PushCount(_) => 2
    case PopTop => 8
    case PopList(_) => 7
    case PopBegin(g, n0) => if ListAt(s, g).begin == n0 then 6 else 10
    case PopAgain(g, n0, _) => if ListAt(s, g).begin == n0 then 5 else 9
    case PopCas(g, n0, _) => if ListAt(s, g).begin == n0 then 4 else 9
    case PopTake(_, _) => 3
    case PopCount(_, _) => 2
    case ClearTop => 2
    case Exit(_) => 1
    case Done => 0
  }

  // ----- What it will answer -----

  /** The list a pop that goes on alone takes from. */
  function ListFor(s: State, l: Local): nat {
    match l
    case PopList(g) => g
    case PopBegin(g, n0) => if ListAt(s, g).begin == n0 then g else s.cur
    case PopAgain(g, n0, _) => if ListAt(s, g).begin == n0 then g else s.cur
    case PopCas(g, n0, _) => if ListAt(s, g).begin == n0 then g else s.cur
    case _ => s.cur
  }

  function First(s: State, g: nat): Res {
    var n := Of(s.next, ListAt(s, g).begin);
    if n.Elem? then Got(n.data) else Empty
  }

  function Answer(s: State, t: OpId): Res
    requires t in s.threads
  {
    var l := s.threads[t];
    if l.PopTop? || l.PopList? || l.PopBegin? || l.PopAgain? || l.PopCas? then First(s, ListFor(s, l))
    else if l.PopTake? then (if l.n1.Elem? then Got(l.n1.data) else Empty)
    else if l.PopCount? then Got(l.v)
    else if l.Exit? then l.res
    else Ack
  }

  // ----- Each instruction brings it closer -----

  predicate Closer(s: State, t: OpId)
    requires t in s.threads
  {
    var s' := Instr(s, t, false);
    Rank(s', t) < Rank(s, t) && Answer(s', t) == Answer(s, t) && s'.threads[t] != Done
  }

  lemma PushSearches(s: State, t: OpId)
    requires t in s.threads && (s.threads[t].PushTop? || s.threads[t].PushList? || s.threads[t].PushEnd?)
    ensures Closer(s, t)
  {}

  lemma PushGoesOn(s: State, t: OpId)
    requires t in s.threads && (s.threads[t].PushAgain? || s.threads[t].PushLink?)
    ensures Closer(s, t)
  {}

  /** Helping the end of a list on makes it the last node. */
  lemma EndOfClean(s: State, h: History, g: nat, hp: Node, n: Node)
    requires Shape(s.next, s.lists, h) && WasEnd(h, g, hp) && Successor(h, g, hp, n) && g < |s.lists|
    requires ListAt(s, g).end == hp
    ensures Of(s.next, n) == Null
  {
    var gen := h.gens[g];
    assert Chained(s.next, s.lists[g], gen, g);
    assert At(h, gen.chain[gen.e], g, gen.e);
    assert Following(gen.chain, h.home[n].i) == Null;
  }

  lemma HelpGoesOn(s: State, t: OpId)
    requires t in s.threads && s.threads[t].PushHelp? && s.threads[t].g < |s.lists|
    requires var l := s.threads[t]; ListAt(s, l.g).end == l.hp ==> Of(s.next, l.next) == Null
    ensures Closer(s, t)
  {}

  /** A link that was read is still that link. */
  lemma LinkStays(s: State, h: History, g: nat, n0: Node, n1: Node)
    requires Shape(s.next, s.lists, h) && Successor(h, g, n0, n1)
    ensures Of(s.next, n0) == n1 && n1.Elem?
  {
    var gen := h.gens[g];
    assert Chained(s.next, s.lists[g], gen, g);
    assert Following(gen.chain, h.home[n0].i) == n1;
  }

  /** Only the begin itself can be the last node. */
  lemma PassedHasLink(s: State, h: History, g: nat, n0: Node)
    requires Shape(s.next, s.lists, h) && WasBegin(h, g, n0) && g < |s.lists| && ListAt(s, g).begin != n0
    ensures Of(s.next, n0) != Null
  {
    var gen := h.gens[g];
    assert Chained(s.next, s.lists[g], gen, g);
    assert Following(gen.chain, h.home[n0].i).Elem?;
  }

  lemma PopGoesOn(s: State, t: OpId)
    requires t in s.threads
    requires match s.threads[t]
      case PopTop => true
      case PopList(_) => true
      case PopBegin(g, n0) =>
        (Of(s.next, n0) == Null || Of(s.next, n0).Elem?) && (ListAt(s, g).begin != n0 ==> Of(s.next, n0) != Null)
      case PopAgain(_, n0, n1) => Of(s.next, n0) == n1 && n1.Elem?
      case PopCas(g, n0, n1) => g < |s.lists| && Of(s.next, n0) == n1 && n1.Elem?
      case PopTake(_, n1) => n1.Elem?
      case _ => false
    ensures Closer(s, t)
  {}

  lemma HelpStep(s: State, trace: seq<Event>, h: History, t: OpId)
    requires Holds(s, trace, h) && t in s.threads && s.threads[t].PushHelp?
    ensures Closer(s, t)
  {
    hide Logs, Track, Balanced, Closer;
    ThreadHolds(s.next, trace, h, s.threads, t);
    hide Shape;
    var l := s.threads[t];
    if ListAt(s, l.g).end == l.hp { EndOfClean(s, h, l.g, l.hp, l.next); }
    HelpGoesOn(s, t);
  }

  lemma BeginStep(s: State, trace: seq<Event>, h: History, t: OpId)
    requires Holds(s, trace, h) && t in s.threads && s.threads[t].PopBegin?
    ensures Closer(s, t)
  {
    hide Logs, Track, Balanced, Closer;
    ThreadHolds(s.next, trace, h, s.threads, t);
    hide Shape;
    var l := s.threads[t];
    if Of(s.next, l.n0) != Null { NextIsSuccessor(s, h, l.g, l.n0); }
    if ListAt(s, l.g).begin != l.n0 { PassedHasLink(s, h, l.g, l.n0); }
    PopGoesOn(s, t);
  }

  lemma CasStep(s: State, trace: seq<Event>, h: History, t: OpId)
    requires Holds(s, trace, h) && t in s.threads
    requires s.threads[t].PopAgain? || s.threads[t].PopCas? || s.threads[t].PopTake?
    ensures Closer(s, t)
  {
    hide Logs, Track, Balanced, Closer;
    ThreadHolds(s.next, trace, h, s.threads, t);
    hide Shape;
    var l := s.threads[t];
    if !l.PopTake? { LinkStays(s, h, l.g, l.n0, l.n1); }
    PopGoesOn(s, t);
  }

  lemma CountGoesOn(s: State, t: OpId)
    requires t in s.threads
    requires var l := s.threads[t]; l.PushSwing? || l.PushCount? || l.PopCount? || l.ClearTop?
    ensures Closer(s, t)
  {}

  lemma GoesOn(s: State, trace: seq<Event>, h: History, t: OpId)
    requires Holds(s, trace, h) && t in s.threads && s.threads[t] != Done && !s.threads[t].Exit?
    ensures Closer(s, t)
  {
    hide Closer, Holds;
    var l := s.threads[t];
    if l.PushHelp? {
      HelpStep(s, trace, h, t);
    } else if l.PopBegin? {
      BeginStep(s, trace, h, t);
    } else if l.PopAgain? || l.PopCas? || l.PopTake? {
      CasStep(s, trace, h, t);
    } else if l.PopTop? || l.PopList? {
      PopGoesOn(s, t);
    } else if l.PushSwing? || l.PushCount? || l.PopCount? || l.ClearTop? {
      CountGoesOn(s, t);
    } else if l.PushAgain? || l.PushLink? {
      PushGoesOn(s, t);
    } else {
      PushSearches(s, t);
    }
  }

  /** t goes on alone and returns res with its instruction n + 1. */
  ghost predicate Finishes(acts: seq<Action>, t: OpId, n: nat, res: Res) {
    After(acts + Own(t, n + 1)).trace == After(acts).trace + Silence(n) + [Ret(t, res)]
  }

  lemma FinishesNow(acts: seq<Action>, t: OpId)
    requires t in After(acts).state.threads && After(acts).state.threads[t].Exit?
    ensures 0 < Rank(After(acts).state, t) && Finishes(acts, t, 0, Answer(After(acts).state, t))
  {
    var acts' := acts + [Exec(t, false)];
    assert acts'[..|acts'| - 1] == acts;
    assert acts + Own(t, 1) == acts';
    assert After(acts).trace + Silence(0) == After(acts).trace;
  }

  lemma FinishesLater(acts: seq<Action>, t: OpId, k: nat, res: Res)
    requires t in After(acts).state.threads && After(acts).state.threads[t] != Done
    requires !After(acts).state.threads[t].Exit? && Finishes(acts + [Exec(t, false)], t, k, res)
    ensures Finishes(acts, t, k + 1, res)
  {
    var acts' := acts + [Exec(t, false)];
    assert acts'[..|acts'| - 1] == acts;
    assert acts + Own(t, k + 2) == acts' + Own(t, k + 1);
    SilentStep(After(acts).trace, k, Ret(t, res));
  }

  lemma {:induction false} Returns(acts: seq<Action>, t: OpId) returns (n: nat)
    requires t in After(acts).state.threads && After(acts).state.threads[t] != Done
    ensures n < Rank(After(acts).state, t) && Finishes(acts, t, n, Answer(After(acts).state, t))
    decreases Rank(After(acts).state, t)
  {
    hide Rank, Answer, Finishes;
    if After(acts).state.threads[t].Exit? {
      n := 0;
      FinishesNow(acts, t);
    } else {
      var s, acts' := After(acts).state, acts + [Exec(t, false)];
      assert acts'[..|acts'| - 1] == acts;
      RunIsSimulated(acts);
      var h :| Inv(s, After(acts).trace, h);
      GoesOn(s, After(acts).trace, h, t);
      var k := Returns(acts', t);
      n := k + 1;
      FinishesLater(acts, t, k, Answer(s, t));
    }
  }

  // ----- The answer by the log -----

  lemma FirstOfList(s: State, h: History, g: nat)
    requires Shape(s.next, s.lists, h) && g < |s.lists|
    ensures First(s, g) == Effect(Content(h.gens[g]), Pop).1
  {
    var gen := h.gens[g];
    assert Chained(s.next, s.lists[g], gen, g);
    assert Following(gen.chain, gen.b) == s.next[s.lists[g].begin];
    if gen.b + 1 < |gen.chain| {
      ValuesFirst(gen.chain, gen.b + 1);
    } else {
      assert gen.chain[gen.b + 1..] == [];
    }
  }

  lemma {:induction false} FullLogSplit(gens: seq<Gen>, g: nat)
    requires g <= |gens|
    ensures FullLog(gens[..g]) <= FullLog(gens)
    ensures forall i :: |FullLog(gens[..g])| <= i < |FullLog(gens)| ==>
      exists k :: g <= k < |gens| && FullLog(gens)[i] in gens[k].log
    decreases |gens|
  {
    if g == |gens| {
      assert gens[..g] == gens;
    } else {
      var n := |gens| - 1;
      FullLogSplit(gens[..n], g);
      assert gens[..n][..g] == gens[..g];
      var older, full := FullLog(gens[..n]), FullLog(gens);
      assert full == older + gens[n].log;
      forall i | |FullLog(gens[..g])| <= i < |full| ensures exists k :: g <= k < |gens| && full[i] in gens[k].log {
        if i < |older| {
          var k :| g <= k < n && older[i] in gens[..n][k].log;
          assert full[i] in gens[k].log;
        } else {
          assert full[i] == gens[n].log[i - |older|];
        }
      }
    }
  }

  /** Where in the log a pop on list g takes effect. */
  lemma CutOf(h: History, g: nat) returns (cut: nat)
    requires Logs(h) && g < |h.gens|
    ensures cut <= |h.log| && Replay([], h.log[..cut]) == Content(h.gens[g])
    ensures g == |h.gens| - 1 ==> cut == |h.log|
    ensures forall i :: cut <= i < |h.log| ==> exists k :: g < k < |h.gens| && h.log[i] in h.gens[k].log
  {
    assert Inside(0);
    var gens := h.gens[..g + 1];
    FullLogSplit(h.gens, g + 1);
    forall k | 0 <= k < |gens| ensures Logged(gens[k], k) { assert Logged(h.gens[k], k); }
    FullLogLegal(gens);
    cut := |FullLog(gens)|;
    assert h.log[..cut] == FullLog(gens);
    if g == |h.gens| - 1 { assert gens == h.gens; }
  }

  /** A pop that has not taken effect finds the first element of its list. */
  lemma PopAnswer(s: State, trace: seq<Event>, h: History, t: OpId) returns (cut: nat)
    requires Holds(s, trace, h) && t in s.threads && PhaseOf(s.threads[t]) == Pending(Pop)
    ensures cut <= |h.log| && Answer(s, t) == Effect(Replay([], h.log[..cut]), Pop).1
    ensures ListFor(s, s.threads[t]) == s.cur ==> cut == |h.log|
    ensures forall i :: cut <= i < |h.log| ==> !Precedes(trace, h.log[i].t, t)
  {
    ThreadHolds(s.next, trace, h, s.threads, t);
    var g := ListFor(s, s.threads[t]);
    assert Current(trace, h, t, g);
    hide Chained, Homes, Track, Balanced, Thread, Logs;
    FirstOfList(s, h, g);
    cut := CutOf(h, g);
  }

  lemma AnswerFits(s: State, trace: seq<Event>, h: History, t: OpId) returns (cut: nat)
    requires Holds(s, trace, h) && t in s.threads && s.threads[t] != Done
    ensures cut <= |h.log| && Answers(trace, h.log, cut, t, Answer(s, t))
    ensures var phase := PhaseOf(s.threads[t]);
      phase.Pending? ==> Answer(s, t) == Effect(Replay([], h.log[..cut]), phase.op).1
    ensures ListFor(s, s.threads[t]) == s.cur || !PhaseOf(s.threads[t]).Pending? ==> cut == |h.log|
  {
    hide Shape, Logs, Track, Balanced, Threads;
    PhaseHolds(trace, h.log, PhasesOf(s.threads), t);
    TrackOrders(trace, h.log, PhasesOf(s.threads));
    cut := |h.log|;
    match PhaseOf(s.threads[t])
    case Effected(res) => EffectedAnswers(trace, h.log, t, res);
    case Pending(op) => if op.Pop? { cut := PopAnswer(s, trace, h, t); }
  }

  // ----- Main results -----

  lemma RankIsSmall(s: State, t: OpId)
    requires t in s.threads
    ensures Rank(s, t) <= 15
  {}

  /** From every reachable state a push, a pop or a clear, wherever it stands, returns within 15
      instructions of its own if it goes on alone.  Its answer is that of a linearization of what
      has happened so far. */
  lemma OperationsFinishAlone(acts: seq<Action>, t: OpId)
    requires t in After(acts).state.threads && After(acts).state.threads[t] != Done
    ensures exists n, res, log, cut ::
      && n < 15 && Finishes(acts, t, n, res)
      && Linearization(After(acts).trace, log) && Answers(After(acts).trace, log, cut, t, res)
  {
    RunIsSimulated(acts);
    var r := After(acts);
    var h :| Inv(r.state, r.trace, h);
    TrackOrders(r.trace, h.log, PhasesOf(r.state.threads));
    LogIsLegal(h);
    RankIsSmall(r.state, t);
    var n := Returns(acts, t);
    var cut := AnswerFits(r.state, r.trace, h, t);
    hide Inv, Finishes, Answers, Rank, Answer;
    assert Linearization(r.trace, h.log);
  }

  /** The state behind a call. */
  lemma Called(acts: seq<Action>, t: OpId, op: Op)
    requires t !in After(acts).state.threads
    ensures var s, s' := After(acts).state, After(acts + [Start(t, op)]).state;
      && t in s'.threads && s'.threads[t] != Done && PhaseOf(s'.threads[t]) == Pending(op)
      && ListFor(s', s'.threads[t]) == s'.cur
    ensures After(acts + [Start(t, op)]).trace == After(acts).trace + [Call(t, op)]
  {
    var acts' := acts + [Start(t, op)];
    assert acts'[..|acts'| - 1] == acts;
  }

  lemma FreshAnswer(trace: seq<Event>, s: State, h: History, t: OpId, op: Op)
    requires Holds(s, trace + [Call(t, op)], h) && t in s.threads && PhaseOf(s.threads[t]) == Pending(op)
    requires ListFor(s, s.threads[t]) == s.cur
    ensures Linearization(trace, h.log) && Answer(s, t) == Effect(Replay([], h.log), op).1
  {
    var trace' := trace + [Call(t, op)];
    TrackOrders(trace', h.log, PhasesOf(s.threads));
    LogIsLegal(h);
    PhaseHolds(trace', h.log, PhasesOf(s.threads), t);
    OrdersBeforeCall(trace, h.log, t, op);
    var cut := AnswerFits(s, trace', h, t);
    hide Inv, Answer, ListFor;
    assert h.log[..cut] == h.log;
  }

  /** A push, a pop or a clear that is called and then goes on alone answers what the sequential
      queue answers behind a linearization of everything so far: a pop gets the first element that
      is left, or "empty" if none is. */
  lemma CallsAreAnsweredAlone(acts: seq<Action>, t: OpId, op: Op)
    requires t !in After(acts).state.threads
    ensures exists n, log ::
      && n < 15 && Linearization(After(acts).trace, log)
      && Finishes(acts + [Start(t, op)], t, n, Effect(Replay([], log), op).1)
    ensures After(acts + [Start(t, op)]).trace == After(acts).trace + [Call(t, op)]
  {
    var acts' := acts + [Start(t, op)];
    Called(acts, t, op);
    hide After, Finishes, Rank, Answer, ListFor;
    var s' := After(acts').state;
    RankIsSmall(s', t);
    RunIsSimulated(acts');
    var h :| Inv(s', After(acts').trace, h);
    FreshAnswer(After(acts).trace, s', h, t, op);
    var n := Returns(acts', t);
  }
}
