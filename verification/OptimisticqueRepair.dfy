/** The links of optimisticque and the repair walk: the links never disagree, the walk ends
    and leaves every link stored, and what a pop that runs alone does. */
module OptimisticqueRepair {
  import opened Linearizability
  import opened NodeChains
  import opened Optimisticque
  import opened OptimisticqueProof

  // ----- Links -----

  lemma LinkIsTrue(s: State, h: History, n: Node)
    requires Shape(s.next, s.prev, s.head, s.detail, h) && Nodes(s.next, s.prev, h, s.threads) && n in s.next
    requires s.next[n] != Null
    ensures Of(s.prev, s.next[n]) == n
  {
    assert Look(TheShape) && Look(TheNodes);
    assert On(h, n);
    assert Of(s.next, n) == Following(h.chain, h.home[n]);
  }

  /** A forward link that is set is the inverse of a backward link: the stores of pushes and
      of repairs never disagree. */
  lemma LinksNeverDisagree(acts: seq<Action>, retry: bool, n: Node)
    requires retry || Intact(acts, retry)
    ensures var s := After(acts, retry).state; Of(s.next, n) != Null ==> Of(s.prev, Of(s.next, n)) == n
  {
    RunIsSimulated(acts, retry);
    var s := After(acts, retry).state;
    var h :| Inv(s, After(acts, retry).trace, h, retry);
    if Of(s.next, n) != Null { LinkIsTrue(s, h, n); }
  }

  lemma {:induction false} BackAlongChain(s: State, h: History, i: nat, k: nat)
    requires Shape(s.next, s.prev, s.head, s.detail, h) && k <= i < |h.chain|
    ensures Along(s.prev, h.chain[i], k) == h.chain[i - k]
    decreases k
  {
    if k > 0 {
      assert Of(s.prev, h.chain[i]) == h.chain[i - 1] by {
        assert Look(TheShape);
        assert Following(h.chain, i - 1) == h.chain[i];
      }
      BackAlongChain(s, h, i - 1, k - 1);
    }
  }

  /** Following the backward links from the tail leads to the head, which is never past it. */
  lemma BackwardReachesHead(acts: seq<Action>, retry: bool)
    requires retry || Intact(acts, retry)
    ensures var s := After(acts, retry).state; LeadsTo(s.prev, s.detail, s.head)
  {
    RunIsSimulated(acts, retry);
    var s := After(acts, retry).state;
    var h :| Inv(s, After(acts, retry).trace, h, retry);
    TailLeadsToHead(s, h);
  }

  lemma TailLeadsToHead(s: State, h: History)
    requires Shape(s.next, s.prev, s.head, s.detail, h)
    ensures LeadsTo(s.prev, s.detail, s.head)
  {
    Bounds(s.next, s.prev, s.head, s.detail, h);
    BackAlongChain(s, h, |h.chain| - 1, |h.chain| - 1 - h.b);
  }

  // ----- The repair walk -----

  predicate Walks(l: Local) { l.PopHead? || l.PopPrev? || l.PopStore? }

  lemma {:induction false} AlongStored(next: map<Node, Node>, h: History, lo: nat, hi: nat)
    requires Stored(next, h, lo, hi) && lo <= hi < |h.chain|
    ensures Along(next, h.chain[lo], hi - lo) == h.chain[hi]
    decreases hi - lo
  {
    if lo < hi {
      assert Of(next, h.chain[lo]) == Following(h.chain, lo);
      forall i | lo + 1 <= i < hi ensures h.chain[i] in next && next[h.chain[i]] == Following(h.chain, i) {
        assert Of(next, h.chain[i]) == Following(h.chain, i);
      }
      AlongStored(next, h, lo + 1, hi);
    }
  }

  /** All along a repair walk, whatever other threads do, the forward links from the node it
      has reached to the tail it started from are stored and the backward links lead on to
      the head it wants to pass.  So a walk that has reached that head leaves every link from
      there stored. */
  lemma RepairStoresEveryLink(acts: seq<Action>, retry: bool, t: OpId)
    requires retry || Intact(acts, retry)
    requires t in After(acts, retry).state.threads && After(acts, retry).state.threads[t].PopHead?
    ensures var s := After(acts, retry).state; var l := s.threads[t];
      exists j, k :: Along(s.next, l.tail, j) == l.top && Along(s.prev, l.tail, k) == l.n0 && (l.tail == l.n0 ==> j > 0)
  {
    RunIsSimulated(acts, retry);
    var s := After(acts, retry).state;
    var h :| Inv(s, After(acts, retry).trace, h, retry);
    ThreadHolds(s.next, s.prev, h, s.threads, t, retry);
    WalkIsLinked(s, h, s.threads[t].n0, s.threads[t].top, s.threads[t].tail);
  }

  lemma WalkIsLinked(s: State, h: History, n0: Node, top: Node, tail: Node)
    requires Shape(s.next, s.prev, s.head, s.detail, h) && Walking(s.next, h, n0, top, tail)
    ensures exists j, k :: Along(s.next, tail, j) == top && Along(s.prev, tail, k) == n0 && (tail == n0 ==> j > 0)
  {
    AlongStored(s.next, h, h.home[tail], h.home[top]);
    BackAlongChain(s, h, h.home[tail], h.home[tail] - h.home[n0]);
  }

  /** How many instructions the walk can still take. */
  function Rank(h: History, l: Local): int {
    if Walks(l) && l.tail in h.home && l.n0 in h.home then
      3 * (h.home[l.tail] as int - h.home[l.n0] as int) + (if l.PopHead? then 2 else if l.PopPrev? then 1 else 0)
    else 0
  }

  lemma RankStays(s: State, s': State, h: History, h': History, l: Local)
    requires Shape(s.next, s.prev, s.head, s.detail, h) && Shape(s'.next, s'.prev, s'.head, s'.detail, h')
    requires h.chain <= h'.chain
    requires Walks(l) && On(h, l.tail) && On(h, l.n0)
    ensures Rank(h', l) == Rank(h, l)
  {
    HomesHold(s'.next, s'.prev, s'.head, s'.detail, h');
    assert At(h', h'.chain[h.home[l.tail]], h.home[l.tail]);
    assert At(h', h'.chain[h.home[l.n0]], h.home[l.n0]);
  }

  /** An instruction of a walk ends it or brings it closer to its end. */
  lemma RankFalls(s: State, h: History, retry: bool, t: OpId, spurious: bool)
    requires Shape(s.next, s.prev, s.head, s.detail, h) && t in s.threads && Walks(s.threads[t])
    requires Fits(s.next, s.prev, h, t, s.threads[t], retry)
    ensures var l := Instr(s, t, spurious, retry).threads[t];
      !Walks(l) || (0 <= Rank(h, l) < Rank(h, s.threads[t]) && On(h, l.tail) && On(h, l.n0))
  {
    assert Thread(s.next, s.prev, h, t, s.threads[t], retry);
    if s.threads[t].PopPrev? { PrevIsAdjacent(s, h, s.threads[t].tail); }
  }

  function Execs(acts: seq<Action>, t: OpId): nat {
    if acts == [] then 0 else Execs(acts[1..], t) + (if acts[0].Exec? && acts[0].t == t then 1 else 0)
  }

  /** t has left its walk, or the head has become null. */
  predicate Left(s: State, t: OpId) {
    s.head == Null || (t in s.threads && !Walks(s.threads[t]))
  }

  lemma OthersStay(s: State, a: Action, retry: bool, t: OpId)
    requires Enabled(s, a) && t in s.threads && !(a.Exec? && a.t == t)
    ensures t in Step(s, a, retry).threads && Step(s, a, retry).threads[t] == s.threads[t]
  {}

  /** One more action: the walk of t ends, or its rank falls if the action is its own and
      stays if it is not. */
  lemma WalkGoesOn(s: State, trace: seq<Event>, h: History, retry: bool, t: OpId, a: Action) returns (h': History)
    requires Holds(s, trace, h, retry) && Enabled(s, a) && t in s.threads && Walks(s.threads[t])
    requires !Left(Step(s, a, retry), t)
    ensures Holds(Step(s, a, retry), trace + [EventOf(s, a)], h', retry)
    ensures var l := Step(s, a, retry).threads; t in l && 0 <= Rank(h', l[t]) <= Rank(h, s.threads[t])
    ensures a.Exec? && a.t == t ==> Rank(h', Step(s, a, retry).threads[t]) < Rank(h, s.threads[t])
  {
    var s' := Step(s, a, retry);
    StepIsSimulated(s, trace, h, retry, a);
    h' :| Inv(s', trace + [EventOf(s, a)], h', retry) && h.chain <= h'.chain;
    ThreadHolds(s.next, s.prev, h, s.threads, t, retry);
    if a.Exec? && a.t == t { RankFalls(s, h, retry, t, a.spurious); } else { OthersStay(s, a, retry, t); }
    RankStays(s, s', h, h', s'.threads[t]);
  }

  ghost predicate LeavesWithin(acts: seq<Action>, more: seq<Action>, retry: bool, t: OpId) {
    exists n: nat :: n <= |more| && Left(After(acts + more[..n], retry).state, t)
  }

  lemma LeavesNow(acts: seq<Action>, more: seq<Action>, retry: bool, t: OpId)
    requires more != [] && Left(After(acts + [more[0]], retry).state, t)
    ensures LeavesWithin(acts, more, retry, t)
  {
    assert more[..1] == [more[0]];
  }

  lemma LeavesLater(acts: seq<Action>, more: seq<Action>, retry: bool, t: OpId)
    requires more != [] && LeavesWithin(acts + [more[0]], more[1..], retry, t)
    ensures LeavesWithin(acts, more, retry, t)
  {
    var n: nat :| n <= |more[1..]| && Left(After(acts + [more[0]] + more[1..][..n], retry).state, t);
    assert acts + [more[0]] + more[1..][..n] == acts + more[..n + 1];
  }

  lemma {:induction false} WalkIsBounded(acts: seq<Action>, more: seq<Action>, retry: bool, t: OpId, h: History)
    requires Holds(After(acts, retry).state, After(acts, retry).trace, h, retry)
    requires t in After(acts, retry).state.threads && Walks(After(acts, retry).state.threads[t])
    requires 0 <= Rank(h, After(acts, retry).state.threads[t]) < Execs(more, t)
    ensures LeavesWithin(acts, more, retry, t)
    decreases |more|
  {
    var r, a := After(acts, retry), more[0];
    var acts' := acts + [a];
    assert acts'[..|acts'| - 1] == acts;
    if Left(After(acts', retry).state, t) {
      LeavesNow(acts, more, retry, t);
    } else {
      var h' := h;
      if Enabled(r.state, a) { h' := WalkGoesOn(r.state, r.trace, h, retry, t, a); }
      WalkIsBounded(acts', more[1..], retry, t, h');
      LeavesLater(acts, more, retry, t);
    }
  }

  /** In every continuation of the run in which t executes more than bound instructions, t
      has left its walk. */
  ghost predicate EndsWithin(acts: seq<Action>, retry: bool, t: OpId, bound: nat) {
    forall more :: Execs(more, t) > bound ==> LeavesWithin(acts, more, retry, t)
  }

  /** However other threads interfere, a repair walk ends. */
  lemma RepairEnds(acts: seq<Action>, retry: bool, t: OpId)
    requires retry || Intact(acts, retry)
    requires t in After(acts, retry).state.threads && Walks(After(acts, retry).state.threads[t])
    ensures exists bound :: EndsWithin(acts, retry, t, bound)
  {
    RunIsSimulated(acts, retry);
    var s := After(acts, retry).state;
    var h :| Inv(s, After(acts, retry).trace, h, retry);
    ThreadHolds(s.next, s.prev, h, s.threads, t, retry);
    forall more | Execs(more, t) > Rank(h, s.threads[t]) ensures LeavesWithin(acts, more, retry, t) {
      WalkIsBounded(acts, more, retry, t, h);
    }
    assert EndsWithin(acts, retry, t, Rank(h, s.threads[t]));
  }

  // ----- A pop that runs alone -----

  ghost predicate LoneReaches(s: State, t: OpId, retry: bool, s': State) {
    t in s.threads && exists n :: Lone(s, t, n, retry) == s'
  }

  lemma {:induction false} LoneSnoc(s: State, t: OpId, n: nat, retry: bool)
    requires t in s.threads
    ensures Lone(s, t, n + 1, retry) == Instr(Lone(s, t, n, retry), t, false, retry)
    decreases n
  {
    if n > 0 { LoneSnoc(Instr(s, t, false, retry), t, n - 1, retry); }
  }

  lemma Tick(s0: State, s: State, t: OpId, retry: bool, s': State)
    requires LoneReaches(s0, t, retry, s) && t in s.threads && s' == Instr(s, t, false, retry)
    ensures LoneReaches(s0, t, retry, s')
  {
    var n :| Lone(s0, t, n, retry) == s;
    LoneSnoc(s0, t, n, retry);
  }

  lemma LoneStarts(s: State, t: OpId, retry: bool)
    requires t in s.threads
    ensures LoneReaches(s, t, retry, s)
  {
    assert Lone(s, t, 0, retry) == s;
  }

  lemma {:induction false} NoWayFromNull(links: map<Node, Node>, k: nat)
    requires Null !in links
    ensures Along(links, Null, k) == Null
    decreases k
  {
    if k > 0 { NoWayFromNull(links, k - 1); }
  }

  /** One round of a walk that goes on. */
  lemma LoneRound(s0: State, s: State, t: OpId, retry: bool, before: Node)
    requires LoneReaches(s0, t, retry, s) && t in s.threads && s.threads[t].PopHead? && s.threads[t].n0 == s.head
    requires s.threads[t].tail != s.head && before == Of(s.prev, s.threads[t].tail) != Null
    ensures var l := s.threads[t];
      LoneReaches(s0, t, retry, Goto(s, t, PopHead(l.n0, l.top, before)).(next := s.next[before := l.tail]))
  {
    hide Lone;
    var l := s.threads[t];
    var s1 := Goto(s, t, PopPrev(l.n0, l.top, l.tail));
    var s2 := Goto(s1, t, PopStore(l.n0, l.top, l.tail, before));
    var s3 := Goto(s2, t, PopHead(l.n0, l.top, before)).(next := s.next[before := l.tail]);
    Tick(s0, s, t, retry, s1);
    Tick(s0, s1, t, retry, s2);
    Tick(s0, s2, t, retry, s3);
    assert s3 == Goto(s, t, PopHead(l.n0, l.top, before)).(next := s.next[before := l.tail]);
  }

  /** Alone, a walk goes back to the head and, if it had to move at all, leaves the link of
      the head stored. */
  lemma {:induction false} LoneWalk(s0: State, s: State, t: OpId, retry: bool, k: nat) returns (s': State)
    requires LoneReaches(s0, t, retry, s) && t in s.threads && s.threads[t].PopHead?
    requires s.threads[t].n0 == s.head != Null
    requires Null !in s.prev && Along(s.prev, s.threads[t].tail, k) == s.head
    ensures LoneReaches(s0, t, retry, s') && s'.head == s.head && s'.detail == s.detail && s'.prev == s.prev
    ensures t in s'.threads && s'.threads[t] == if retry then PopTop else PopCas(s.head, Null)
    ensures s.threads[t].tail != s.head ==> Of(s'.next, s.head) != Null && Of(s.prev, Of(s'.next, s.head)) == s.head
    ensures s.threads[t].tail == s.head ==> s'.next == s.next
    decreases k
  {
    hide Lone;
    var n0, top, tail := s.head, s.threads[t].top, s.threads[t].tail;
    if tail == n0 {
      s' := Goto(s, t, if retry then PopTop else PopCas(n0, Null));
      Tick(s0, s, t, retry, s');
    } else {
      var before := Of(s.prev, tail);
      if before == Null { NoWayFromNull(s.prev, k - 1); }
      var s1 := Goto(s, t, PopHead(n0, top, before)).(next := s.next[before := tail]);
      LoneRound(s0, s, t, retry, before);
      s' := LoneWalk(s0, s1, t, retry, k - 1);
    }
  }

  /** The pop of t, started in s, has gone on alone to its effect in s'.  The middle case is
      the crash: the element of the null node is read next. */
  predicate LoneOutcome(s: State, t: OpId, retry: bool, s': State) {
    t in s'.threads &&
    if s.head == s.detail then s'.threads[t] == Exit(Empty) && s'.head == s.head
    else if Of(s.next, s.head) == Null && !retry then s'.threads[t] == PopTake(Null) && s'.head == Null
    else s'.head != Null && Of(s.prev, s'.head) == s.head && s'.threads[t] == PopTake(s'.head)
  }

  ghost predicate Sound(s: State) {
    && s.head != Null && Null !in s.prev && LeadsTo(s.prev, s.detail, s.head)
    && (Of(s.next, s.head) != Null ==> Of(s.prev, Of(s.next, s.head)) == s.head)
  }

  /** From a read of a link that is set. */
  lemma LoneTakes(s0: State, s: State, t: OpId, retry: bool) returns (s': State)
    requires LoneReaches(s0, t, retry, s) && t in s.threads && s.threads[t].PopTop? && s.head != s.detail
    requires s.head != Null && Of(s.next, s.head) != Null
    ensures LoneReaches(s0, t, retry, s') && s'.head == Of(s.next, s.head) && t in s'.threads
    ensures s'.threads[t] == PopTake(s'.head)
  {
    var n0, n1 := s.head, Of(s.next, s.head);
    var s1 := Goto(s, t, PopDetail(n0));
    var s2 := Goto(s1, t, PopNext(n0));
    var s3 := Goto(s2, t, PopCas(n0, n1));
    s' := Goto(s3, t, PopTake(n1)).(head := n1);
    Tick(s0, s, t, retry, s1);
    Tick(s0, s1, t, retry, s2);
    Tick(s0, s2, t, retry, s3);
    Tick(s0, s3, t, retry, s');
  }

  lemma LoneReadsNull(s0: State, s: State, t: OpId, retry: bool) returns (s': State)
    requires LoneReaches(s0, t, retry, s) && t in s.threads && s.threads[t] == PopNext(s.head) && s.head != s.detail
    requires Sound(s) && Of(s.next, s.head) == Null
    ensures LoneReaches(s0, t, retry, s') && s'.head == s.head && s'.detail == s.detail && s'.prev == s.prev
    ensures t in s'.threads && s'.threads[t] == if retry then PopTop else PopCas(s.head, Null)
    ensures Of(s'.next, s.head) != Null && Of(s.prev, Of(s'.next, s.head)) == s.head
  {
    var n0 := s.head;
    var s1 := Goto(s, t, PopTail(n0));
    var s2 := Goto(s1, t, PopHead(n0, s.detail, s.detail));
    Tick(s0, s, t, retry, s1);
    Tick(s0, s1, t, retry, s2);
    var k :| Along(s.prev, s.detail, k) == s.head;
    s' := LoneWalk(s0, s2, t, retry, k);
  }

  /** From a read of a link that is null, through the walk. */
  lemma LoneRepairs(s0: State, s: State, t: OpId, retry: bool) returns (s': State)
    requires LoneReaches(s0, t, retry, s) && t in s.threads && s.threads[t].PopTop? && s.head != s.detail
    requires Sound(s) && Of(s.next, s.head) == Null
    ensures LoneReaches(s0, t, retry, s') && s'.head == s.head && s'.detail == s.detail && s'.prev == s.prev
    ensures t in s'.threads && s'.threads[t] == if retry then PopTop else PopCas(s.head, Null)
    ensures Of(s'.next, s.head) != Null && Of(s.prev, Of(s'.next, s.head)) == s.head
  {
    var s1 := Goto(s, t, PopDetail(s.head));
    var s2 := Goto(s1, t, PopNext(s.head));
    Tick(s0, s, t, retry, s1);
    Tick(s0, s1, t, retry, s2);
    s' := LoneReadsNull(s0, s2, t, retry);
  }

  lemma LonePop(s: State, t: OpId, retry: bool) returns (s': State)
    requires t in s.threads && s.threads[t].PopTop? && Sound(s)
    ensures LoneReaches(s, t, retry, s') && LoneOutcome(s, t, retry, s')
  {
    LoneStarts(s, t, retry);
    if s.head == s.detail {
      var s1 := Goto(s, t, PopDetail(s.head));
      s' := Goto(s1, t, Exit(Empty));
      Tick(s, s, t, retry, s1);
      Tick(s, s1, t, retry, s');
    } else if Of(s.next, s.head) != Null {
      s' := LoneTakes(s, s, t, retry);
    } else {
      var s1 := LoneRepairs(s, s, t, retry);
      if retry {
        s' := LoneTakes(s, s1, t, retry);
      } else {
        s' := Goto(s1, t, PopTake(Null)).(head := Null);
        Tick(s, s1, t, retry, s');
      }
    }
  }

  lemma ReachedIsSound(s: State, h: History)
    requires Shape(s.next, s.prev, s.head, s.detail, h) && Nodes(s.next, s.prev, h, s.threads)
    ensures Sound(s)
  {
    Bounds(s.next, s.prev, s.head, s.detail, h);
    TailLeadsToHead(s, h);
    assert Null !in s.prev by { assert Look(TheNodes); }
    if Of(s.next, s.head) != Null { LinkIsTrue(s, h, s.head); }
  }

  /** From every reachable state a pop that runs alone reports an empty queue exactly when
      head and tail are the same node.  Otherwise, with the retry, it takes the node behind
      the head; as the source has it, it does so exactly when the link of the head has been
      stored, and puts null into the head when it has not. */
  lemma LonePopOutcome(acts: seq<Action>, retry: bool, t: OpId)
    requires retry || Intact(acts, retry)
    requires t in After(acts, retry).state.threads && After(acts, retry).state.threads[t].PopTop?
    ensures var s := After(acts, retry).state; exists s' :: LoneReaches(s, t, retry, s') && LoneOutcome(s, t, retry, s')
  {
    RunIsSimulated(acts, retry);
    var s := After(acts, retry).state;
    var h :| Inv(s, After(acts, retry).trace, h, retry);
    ReachedIsSound(s, h);
    var s' := LonePop(s, t, retry);
  }

  lemma {:induction false} LoneIsARun(acts: seq<Action>, retry: bool, t: OpId, n: nat) returns (acts': seq<Action>)
    requires t in After(acts, retry).state.threads
    ensures After(acts', retry).state == Lone(After(acts, retry).state, t, n, retry)
    decreases n
  {
    acts' := acts;
    if n > 0 {
      var acts1, s := acts + [Exec(t, false)], After(acts, retry).state;
      assert acts1[..|acts1| - 1] == acts;
      assert After(acts1, retry).state == Instr(s, t, false, retry);
      acts' := LoneIsARun(acts1, retry, t, n - 1);
    }
  }

  lemma OneMore(acts: seq<Action>, s: State, a: Action, s': State)
    requires After(acts, false).state == s && Intact(acts, false)
    requires Enabled(s, a) && s' == Step(s, a, false) && s'.head != Null
    ensures After(acts + [a], false).state == s' && Intact(acts + [a], false)
  {}

  /** A pop that comes between the two halves of a push. */
  lemma HalfPushed(v: Value) returns (acts: seq<Action>)
    ensures var s := After(acts, false).state;
      && Intact(acts, false) && 1 in s.threads && s.threads[1] == PopTop
      && s.head == Dummy(0) && s.detail == Elem(0, v) && Of(s.next, Dummy(0)) == Null
  {
    var s0 := Begin(Init, 0, Push(v));
    var s1 := Goto(s0, 0, PushPrev(v, Dummy(0)));
    var s2 := Goto(s1, 0, PushCas(v, Dummy(0))).(prev := s1.prev[Elem(0, v) := Dummy(0)]);
    var s3 := Goto(s2, 0, PushLink(v, Dummy(0))).(detail := Elem(0, v));
    OneMore([], Init, Start(0, Push(v)), s0);
    OneMore([] + [Start(0, Push(v))], s0, Exec(0, false), s1);
    OneMore([] + [Start(0, Push(v))] + [Exec(0, false)], s1, Exec(0, false), s2);
    OneMore([] + [Start(0, Push(v))] + [Exec(0, false)] + [Exec(0, false)], s2, Exec(0, false), s3);
    acts := [] + [Start(0, Push(v))] + [Exec(0, false)] + [Exec(0, false)] + [Exec(0, false)];
    OneMore(acts, s3, Start(1, Pop), Goto(s3, 1, PopTop));
    acts := acts + [Start(1, Pop)];
  }

  /** As the source has it there is a run that puts null into the head. */
  lemma TheSourceCanCrash(v: Value)
    ensures exists acts :: After(acts, false).state.head == Null
  {
    var acts := HalfPushed(v);
    var s := After(acts, false).state;
    LonePopOutcome(acts, false, 1);
    var s' :| LoneReaches(s, 1, false, s') && LoneOutcome(s, 1, false, s');
    var n :| Lone(s, 1, n, false) == s';
    var acts' := LoneIsARun(acts, false, 1, n);
  }
}
