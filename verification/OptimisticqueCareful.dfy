/** When optimisticque works as the source has it: exactly when no pop reads the link of the
    head between the two halves of the push behind it. */
module OptimisticqueCareful {
  import opened Linearizability
  import opened NodeChains
  import opened Optimisticque
  import opened OptimisticqueProof
  import opened OptimisticqueRepair

  // ----- The condition -----

  /** The push of the node behind n has added its node and not yet stored the link of n. */
  ghost predicate HalfDone(threads: map<OpId, Local>, n: Node) {
    exists u :: u in threads && threads[u].PushLink? && threads[u].hp == n
  }

  /** A pop reads the link of the head while a push has yet to store it. */
  ghost predicate Hasty(s: State, a: Action) {
    a.Exec? && a.t in s.threads && s.threads[a.t] == PopNext(s.head) && HalfDone(s.threads, s.head)
  }

  ghost predicate Careful(acts: seq<Action>)
    decreases |acts|
  {
    acts == [] ||
    (Careful(acts[..|acts| - 1]) && !Hasty(After(acts[..|acts| - 1], false).state, acts[|acts| - 1]))
  }

  // ----- What careful runs keep -----

  predicate Passed(h: History, n: Node) {
    On(h, n) && h.home[n] < h.b
  }

  /** A null link is only in the hands of pops whose head has been passed, and nobody repairs. */
  predicate Harmless(h: History, l: Local) {
    match l
    case PopTail(n0) => Passed(h, n0)
    case PopHead(n0, _, _) => Passed(h, n0)
    case PopPrev(_, _, _) => false
    case PopStore(_, _, _, _) => false
    case PopCas(n0, n1) => n1 == Null ==> Passed(h, n0)
    case _ => true
  }

  ghost predicate AllHarmless(h: History, threads: map<OpId, Local>) {
    forall t :: t in threads ==> Harmless(h, threads[t])
  }

  /** The push of m has not stored the link to m. */
  predicate Awaits(threads: map<OpId, Local>, m: Node) {
    m.Elem? && m.t in threads &&
    match threads[m.t]
    case PushTop(v) => v == m.data
    case PushPrev(v, _) => v == m.data
    case PushCas(v, _) => v == m.data
    case PushLink(v, _) => v == m.data
    case _ => false
  }

  predicate Joined(next: map<Node, Node>, prev: map<Node, Node>, m: Node) {
    Of(next, Of(prev, m)) == m
  }

  /** Links are stored by pushes only: the link to a node is there when its push has stored
      it, and not before. */
  ghost predicate Linked(next: map<Node, Node>, prev: map<Node, Node>, threads: map<OpId, Local>) {
    && (forall m :: m in next && m.Elem? && !Awaits(threads, m) ==> Joined(next, prev, m))
    && (forall u :: u in threads && threads[u].PushLink? ==> Of(next, threads[u].hp) == Null)
  }

  ghost predicate Kept(s: State, h: History) {
    Linked(s.next, s.prev, s.threads) && AllHarmless(h, s.threads)
  }

  lemma PassedStays(s: State, s': State, h: History, h': History, n: Node)
    requires Shape(s.next, s.prev, s.head, s.detail, h) && Shape(s'.next, s'.prev, s'.head, s'.detail, h')
    requires h.chain <= h'.chain
    requires s'.head == s.head || Adjacent(h, s.head, s'.head)
    ensures Passed(h, n) || (n == s.head && s'.head != s.head) ==> Passed(h', n)
  {
    Bounds(s.next, s.prev, s.head, s.detail, h);
    Bounds(s'.next, s'.prev, s'.head, s'.detail, h');
    HomesHold(s'.next, s'.prev, s'.head, s'.detail, h');
    assert At(h', h'.chain[h.b], h.b);
    if s'.head != s.head { assert At(h', h'.chain[h.b + 1], h.b + 1); }
    if On(h, n) { assert At(h', h'.chain[h.home[n]], h.home[n]); }
  }

  /** Between head and tail, the link of a node is null exactly while the push of the next
      one is half done. */
  lemma NullMeansHalfDone(s: State, trace: seq<Event>, h: History, n: Node)
    requires Holds(s, trace, h, false) && Linked(s.next, s.prev, s.threads) && On(h, n) && h.home[n] + 1 < |h.chain|
    ensures Of(s.next, n) == Null <==> HalfDone(s.threads, n)
  {
    assert Look(TheShape) && Look(TheNodes);
    var i := h.home[n];
    var m := h.chain[i + 1];
    assert Following(h.chain, i) == m && At(h, m, i + 1);
    assert m in s.next && s.prev[m] == n;
    if Awaits(s.threads, m) {
      ThreadHolds(s.next, s.prev, h, s.threads, m.t, false);
      assert s.threads[m.t].PushLink?;
      assert HalfDone(s.threads, n);
    } else {
      assert Joined(s.next, s.prev, m);
    }
  }

  // ----- Every step keeps it -----

  /** The head stays or moves to the next node. */
  lemma HeadMoves(s: State, trace: seq<Event>, h: History, a: Action)
    requires Holds(s, trace, h, false) && AllHarmless(h, s.threads) && Enabled(s, a)
    ensures var s' := Step(s, a, false); s'.head != Null && (s'.head == s.head || Adjacent(h, s.head, s'.head))
  {
    Bounds(s.next, s.prev, s.head, s.detail, h);
    if a.Exec? { ThreadHolds(s.next, s.prev, h, s.threads, a.t, false); }
  }

  /** Which operation is where after a step of t: nobody gets into a repair walk. */
  lemma MoverIsHarmless(s: State, trace: seq<Event>, h: History, t: OpId, spurious: bool)
    requires Holds(s, trace, h, false) && Kept(s, h) && t in s.threads && !Hasty(s, Exec(t, spurious))
    ensures Harmless(h, Instr(s, t, spurious, false).threads[t])
  {
    hide Explained, Tally, Track;
    Bounds(s.next, s.prev, s.head, s.detail, h);
    ThreadHolds(s.next, s.prev, h, s.threads, t, false);
    assert Harmless(h, s.threads[t]);
    if s.threads[t].PopNext? {
      NullMeansHalfDone(s, trace, h, s.threads[t].n0);
    }
  }

  lemma HarmlessStep(s: State, trace: seq<Event>, h: History, a: Action, h': History)
    requires Holds(s, trace, h, false) && Kept(s, h) && Enabled(s, a) && !Hasty(s, a)
    requires Holds(Step(s, a, false), trace + [EventOf(s, a)], h', false) && h.chain <= h'.chain
    ensures AllHarmless(h', Step(s, a, false).threads)
  {
    var s' := Step(s, a, false);
    HeadMoves(s, trace, h, a);
    if a.Exec? { MoverIsHarmless(s, trace, h, a.t, a.spurious); }
    forall u | u in s'.threads ensures Harmless(h', s'.threads[u]) {
      var l := s'.threads[u];
      if u != a.t { assert Harmless(h, l) by { assert s.threads[u] == l; } }
      if l.PopTail? || l.PopHead? || l.PopCas? { PassedStays(s, s', h, h', l.n0); }
    }
  }

  lemma OtherStoresWait(s: State, trace: seq<Event>, h: History, t: OpId)
    requires Holds(s, trace, h, false) && Linked(s.next, s.prev, s.threads) && t in s.threads && s.threads[t].PushLink?
    ensures var s' := Instr(s, t, false, false);
      forall u :: u in s'.threads && s'.threads[u].PushLink? ==> Of(s'.next, s'.threads[u].hp) == Null
  {
    hide Explained, Tally, Track, Shape, Nodes;
    var s' := Instr(s, t, false, false);
    ThreadHolds(s.next, s.prev, h, s.threads, t, false);
    forall u | u in s'.threads && s'.threads[u].PushLink? ensures Of(s'.next, s'.threads[u].hp) == Null {
      ThreadHolds(s.next, s.prev, h, s.threads, u, false);
    }
  }

  lemma StoreKeepsLinked(s: State, trace: seq<Event>, h: History, t: OpId)
    requires Holds(s, trace, h, false) && Linked(s.next, s.prev, s.threads) && t in s.threads && s.threads[t].PushLink?
    ensures var s' := Instr(s, t, false, false); Linked(s'.next, s'.prev, s'.threads)
  {
    hide Explained, Tally, Track;
    var s', n, v := Instr(s, t, false, false), s.threads[t].hp, s.threads[t].v;
    var m := Elem(t, v);
    assert Look(TheShape) && Look(TheNodes);
    ThreadHolds(s.next, s.prev, h, s.threads, t, false);
    assert Following(h.chain, h.home[n]) == m && s.prev[m] == n;
    forall k | k in s'.next && k.Elem? && !Awaits(s'.threads, k) ensures Joined(s'.next, s'.prev, k) {
      if k != m {
        assert !Awaits(s.threads, k);
        assert Joined(s.next, s.prev, k);
      }
    }
    OtherStoresWait(s, trace, h, t);
  }

  lemma PrevKeepsLinked(s: State, trace: seq<Event>, h: History, t: OpId)
    requires Holds(s, trace, h, false) && Linked(s.next, s.prev, s.threads) && t in s.threads && s.threads[t].PushPrev?
    ensures var s' := Instr(s, t, false, false); Linked(s'.next, s'.prev, s'.threads)
  {
    var s' := Instr(s, t, false, false);
    forall k | k in s'.next && k.Elem? && !Awaits(s'.threads, k) ensures Joined(s'.next, s'.prev, k) {
      assert !Awaits(s.threads, k);
      assert Joined(s.next, s.prev, k);
    }
  }

  lemma AddKeepsLinked(s: State, trace: seq<Event>, h: History, t: OpId, spurious: bool)
    requires Holds(s, trace, h, false) && Linked(s.next, s.prev, s.threads) && t in s.threads && s.threads[t].PushCas?
    ensures var s' := Instr(s, t, spurious, false); Linked(s'.next, s'.prev, s'.threads)
  {
    var s' := Instr(s, t, spurious, false);
    Bounds(s.next, s.prev, s.head, s.detail, h);
    assert Of(s.next, s.detail) == Null by {
      assert Look(TheShape);
      assert Following(h.chain, |h.chain| - 1) == Null;
    }
    forall k | k in s'.next && k.Elem? && !Awaits(s'.threads, k) ensures Joined(s'.next, s'.prev, k) {
      assert !Awaits(s.threads, k);
      assert Joined(s.next, s.prev, k);
    }
  }

  lemma StartKeepsLinked(s: State, trace: seq<Event>, h: History, t: OpId, op: Op)
    requires Holds(s, trace, h, false) && Linked(s.next, s.prev, s.threads) && Enabled(s, Start(t, op))
    ensures var s' := Begin(s, t, op); Linked(s'.next, s'.prev, s'.threads)
  {
    assert Look(TheNodes);
    OthersKeepLinked(s, Begin(s, t, op));
  }

  /** t is not at an instruction that changes a link or the tail. */
  lemma QuietKeepsLinked(s: State, h: History, t: OpId, spurious: bool)
    requires Kept(s, h) && t in s.threads
    requires var l := s.threads[t]; !l.PushLink? && !l.PushPrev? && !l.PushCas?
    ensures var s' := Instr(s, t, spurious, false); Linked(s'.next, s'.prev, s'.threads)
  {
    assert Harmless(h, s.threads[t]);
    OthersKeepLinked(s, Instr(s, t, spurious, false));
  }

  /** A step that allocates a node, or changes no link and moves no push on that awaits it. */
  lemma OthersKeepLinked(s: State, s': State)
    requires Linked(s.next, s.prev, s.threads)
    requires forall n :: Of(s'.next, n) == Of(s.next, n) && Of(s'.prev, n) == Of(s.prev, n)
    requires forall m :: m in s'.next && m.Elem? && m !in s.next ==> Awaits(s'.threads, m)
    requires forall m: Node :: m.Elem? && Awaits(s.threads, m) ==> Awaits(s'.threads, m)
    requires forall u :: u in s'.threads && s'.threads[u].PushLink? ==> u in s.threads && s'.threads[u] == s.threads[u]
    ensures Linked(s'.next, s'.prev, s'.threads)
  {
    forall k | k in s'.next && k.Elem? && !Awaits(s'.threads, k) ensures Joined(s'.next, s'.prev, k) {
      assert Joined(s.next, s.prev, k);
    }
  }

  lemma LinkedStep(s: State, trace: seq<Event>, h: History, a: Action)
    requires Holds(s, trace, h, false) && Kept(s, h) && Enabled(s, a)
    ensures var s' := Step(s, a, false); Linked(s'.next, s'.prev, s'.threads)
  {
    match a
    case Start(t, op) => StartKeepsLinked(s, trace, h, t, op);
    case Exec(t, spurious) =>
      if s.threads[t].PushLink? {
        StoreKeepsLinked(s, trace, h, t);
      } else if s.threads[t].PushPrev? {
        PrevKeepsLinked(s, trace, h, t);
      } else if s.threads[t].PushCas? {
        AddKeepsLinked(s, trace, h, t, spurious);
      } else {
        QuietKeepsLinked(s, h, t, spurious);
      }
  }

  // ----- Main results -----

  /** Some history explains the state and the trace and shows nothing that can do harm. */
  ghost predicate Unharmed(r: Run) {
    exists h :: Holds(r.state, r.trace, h, false) && Kept(r.state, h)
  }

  lemma InitIsUnharmed()
    ensures Unharmed(Run(Init, []))
  {
    InitIsSimulated(false);
    var h :| Inv(Init, [], h, false);
    assert Holds(Init, [], h, false) && Kept(Init, h);
  }

  lemma {:induction false} CarefulIsUnharmed(acts: seq<Action>)
    requires Careful(acts)
    ensures Intact(acts, false) && Unharmed(After(acts, false))
    decreases |acts|
  {
    if acts == [] {
      InitIsUnharmed();
    } else {
      var r, a := After(acts[..|acts| - 1], false), acts[|acts| - 1];
      CarefulIsUnharmed(acts[..|acts| - 1]);
      if Enabled(r.state, a) {
        var h :| Holds(r.state, r.trace, h, false) && Kept(r.state, h);
        UnharmedStep(r.state, r.trace, h, a);
      }
    }
  }

  lemma UnharmedStep(s: State, trace: seq<Event>, h: History, a: Action)
    requires Holds(s, trace, h, false) && Kept(s, h) && Enabled(s, a) && !Hasty(s, a)
    ensures Step(s, a, false).head != Null && Unharmed(Run(Step(s, a, false), trace + [EventOf(s, a)]))
  {
    HeadMoves(s, trace, h, a);
    StepIsSimulated(s, trace, h, false, a);
    var s', trace' := Step(s, a, false), trace + [EventOf(s, a)];
    var h' :| Inv(s', trace', h', false) && h.chain <= h'.chain;
    HarmlessStep(s, trace, h, a, h');
    LinkedStep(s, trace, h, a);
    assert Holds(s', trace', h', false) && Kept(s', h');
  }

  /** The source's queue is linearizable for any number of pushes and pops if no pop reads the
      link of the head while the push behind the head is half done. */
  lemma CarefulIsLinearizable(acts: seq<Action>)
    requires Careful(acts)
    ensures Intact(acts, false) && WellFormed(After(acts, false).trace) && Linearizable(After(acts, false).trace)
  {
    CarefulIsUnharmed(acts);
    LinearizableWhileIntact(acts);
  }

  predicate InPush(l: Local) { l.PushTop? || l.PushPrev? || l.PushCas? || l.PushLink? || l.PushCount? }

  predicate InPop(l: Local) { !InPush(l) && !l.Exit? && !l.Done? && !l.Crashed? }

  /** No push overlaps a pop. */
  ghost predicate Apart(acts: seq<Action>)
    decreases |acts|
  {
    var threads := After(acts, false).state.threads;
    && (forall t, u :: t in threads && u in threads && InPush(threads[t]) ==> !InPop(threads[u]))
    && (acts != [] ==> Apart(acts[..|acts| - 1]))
  }

  /** So a caller that keeps pushes and pops apart is safe, with any number of either at once. */
  lemma {:induction false} ApartIsCareful(acts: seq<Action>)
    requires Apart(acts)
    ensures Careful(acts)
    decreases |acts|
  {
    if acts != [] { ApartIsCareful(acts[..|acts| - 1]); }
  }

  // ----- The condition is needed -----

  /** t goes on to take the node behind the head. */
  predicate Takes(s: State, t: OpId) {
    t in s.threads && s.head != Null &&
    match s.threads[t]
    case PopNext(n0) => n0 == s.head && Of(s.next, n0).Elem?
    case PopCas(n0, n1) => n0 == s.head && n1.Elem?
    case PopTake(n1) => n1.Elem?
    case PopCount(_) => true
    case Exit(_) => true
    case Done => true
    case _ => false
  }

  lemma {:induction false} LoneKeepsHead(s: State, t: OpId, n: nat)
    requires Takes(s, t)
    ensures Lone(s, t, n, false).head != Null
    decreases n
  {
    if n > 0 { LoneKeepsHead(Instr(s, t, false, false), t, n - 1); }
  }

  lemma StoresNull(s: State, s1: State, t: OpId)
    requires LoneReaches(s, t, false, s1) && t in s1.threads && s1.threads[t] == PopCas(s1.head, Null)
    ensures exists n :: Lone(s, t, n, false).head == Null
  {
    hide Lone;
    var s2 := Goto(s1, t, PopTake(Null)).(head := Null);
    Tick(s, s1, t, false, s2);
    var n :| Lone(s, t, n, false) == s2;
  }

  lemma NullLinkCrashes(s: State, t: OpId)
    requires t in s.threads && s.threads[t] == PopNext(s.head) && s.head != s.detail && Sound(s)
    requires Of(s.next, s.head) == Null
    ensures exists n :: Lone(s, t, n, false).head == Null
  {
    hide Lone, Sound, Instr, LoneReaches;
    LoneStarts(s, t, false);
    var s1 := LoneReadsNull(s, s, t, false);
    StoresNull(s, s1, t);
  }

  /** When a pop of a careful run is about to read the link of the head, the read is hasty if
      and only if the pop, going on alone, puts null into the head. */
  lemma HastyIffCrash(acts: seq<Action>, t: OpId)
    requires Careful(acts)
    requires var s := After(acts, false).state; t in s.threads && s.threads[t] == PopNext(s.head)
    ensures var s := After(acts, false).state;
      Hasty(s, Exec(t, false)) <==> exists n :: Lone(s, t, n, false).head == Null
  {
    CarefulIsUnharmed(acts);
    var r := After(acts, false);
    var h :| Holds(r.state, r.trace, h, false) && Kept(r.state, h);
    Bounds(r.state.next, r.state.prev, r.state.head, r.state.detail, h);
    ThreadHolds(r.state.next, r.state.prev, h, r.state.threads, t, false);
    NullMeansHalfDone(r.state, r.trace, h, r.state.head);
    if Of(r.state.next, r.state.head) == Null {
      ReachedIsSound(r.state, h);
      NullLinkCrashes(r.state, t);
    } else {
      NextIsAdjacent(r.state, h, r.state.head);
      forall n ensures Lone(r.state, t, n, false).head != Null { LoneKeepsHead(r.state, t, n); }
    }
  }
}
