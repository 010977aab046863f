/** What ringque does when pushes or pops overlap: which flaws break the order, and a run for
    each of them that has no other flaw. */
module RingqueLimits {
  import opened Linearizability
  import opened Counting
  import opened Ringque
  import opened RingqueResize
  import opened RingqueFlaws
  import opened RingqueRuns
  import RingqueProof
  import Progress = RingqueProgress

  /** Nothing is in the ring and no push is under way to fill a slot. */
  ghost predicate Drained(s: State) {
    && s.size == 0 && (forall i :: 0 <= i < |s.que| ==> s.que[i] == Free)
    && forall t :: t in s.threads ==> !s.threads[t].PushFill?
  }

  // ----- FullClaim: a claim in a full ring loses what is in it -----

  function InAndOutSeen(v: Value, a: Value): seq<Event> {
    [Call(0, Push(v)), Call(1, Push(a)), Ret(1, Ack), Call(2, Pop), Ret(2, Got(a))]
  }

  /** Push 0 of v is at l, its test for a full ring of two slots or its claim; push 1 puts a into
      the ring and pop 2 takes it out again. */
  lemma InAndOut(flaw: Flaw, v: Value, a: Value, l: Local) returns (s: State)
    requires Reached(Kind(2, flaw), State(Empties(2), 0, 2, 0, {0}, false, map[0 := l]), InAndOutSeen(v, a)[..1])
    requires l == PushCheck(v, 0, 1) || l == PushClaim(v, 0, 1)
    ensures Reached(Kind(2, flaw), s, InAndOutSeen(v, a))
    ensures s == State(Empties(2), 1, 1, 0, {0}, false, map[0 := l, 1 := Done, 2 := Done])
  {
    hide Reached, Permits;
    var k, seen := Kind(2, flaw), InAndOutSeen(v, a);
    var s1 := State(Empties(2), 0, 2, 0, {0}, false, map[0 := l]);
    var s2 := State(Empties(2)[0 := Full(a)], 1, 2, 1, {0}, false, map[0 := l, 1 := Done]);
    PushesAlone(k, s1, seen, 1, 1, a, s2);
    assert s2.que[0 := Free] == Empties(2);
    s := State(Empties(2), 1, 1, 0, {0}, false, map[0 := l, 1 := Done, 2 := Done]);
    PopsAlone(k, s2, seen, 3, 2, a, s);
    assert seen[..|seen|] == seen;
  }

  function LostSeen(v: Value, a: Value, b: Value): seq<Event> {
    [Call(0, Push(v)), Call(1, Push(a)), Ret(1, Ack), Call(2, Pop), Ret(2, Got(a)), Call(3, Push(b)), Ret(3, Ack),
     Ret(0, Ack), Call(4, Pop), Ret(4, Empty)]
  }

  lemma LostBegins(v: Value, a: Value, b: Value)
    ensures LostSeen(v, a, b)[..5] == InAndOutSeen(v, a)
  {}

  /** Push 0 has passed its test when a goes in and out. */
  lemma PassEarly(v: Value, a: Value) returns (s: State)
    ensures Reached(Kind(2, FullClaim), s, InAndOutSeen(v, a))
    ensures s == State(Empties(2), 1, 1, 0, {0}, false, map[0 := PushClaim(v, 0, 1), 1 := Done, 2 := Done])
  {
    hide Reached, Permits;
    var k, seen := Kind(2, FullClaim), InAndOutSeen(v, a);
    Begins(k, seen);
    var s0 := State(Empties(2), 0, 2, 0, {0}, false, map[0 := PushClaim(v, 0, 1)]);
    PushPasses(k, Init(2), seen, 0, 0, v, s0);
    s := InAndOut(FullClaim, v, a, PushClaim(v, 0, 1));
  }

  /** Push 3 of b fills the ring, and the exchange of push 0 still finds the slide it read. */
  lemma Overwrite(v: Value, a: Value, b: Value) returns (s: State)
    ensures Reached(Kind(2, FullClaim), s, LostSeen(v, a, b)[..7])
    ensures s == State([Free, Full(b)], 1, 1, 1, {0}, false, map[0 := PushFill(v, 0), 1 := Done, 2 := Done, 3 := Done])
  {
    hide Reached;
    var k, seen := Kind(2, FullClaim), LostSeen(v, a, b);
    LostBegins(v, a, b);
    var s1 := PassEarly(v, a);
    var s2 := State([Free, Full(b)], 0, 1, 1, {0}, false, s1.threads[3 := Done]);
    assert s1.que[1 := Full(b)] == s2.que;
    PushesAlone(k, s1, seen, 5, 3, b, s2);
    s := State([Free, Full(b)], 1, 1, 1, {0}, false, s2.threads[0 := PushFill(v, 0)]);
    PushClaims(k, s2, seen[..7], 0, v, s);
  }

  /** Pop 4 finds both slots full and the ring empty. */
  lemma Lose(v: Value, a: Value, b: Value) returns (s: State)
    ensures Reached(Kind(2, FullClaim), s, LostSeen(v, a, b))
    ensures s.que == [Full(v), Full(b)] && Count(s.push, s.pop, 2) == 0
  {
    hide Reached;
    var k, seen := Kind(2, FullClaim), LostSeen(v, a, b);
    var s1 := Overwrite(v, a, b);
    var s2 := State([Full(v), Full(b)], 1, 1, 2, {}, false, map[0 := Done, 1 := Done, 2 := Done, 3 := Done]);
    assert s1.que[0 := Full(v)] == s2.que;
    PushFills(k, s1, seen, 7, 0, v, 0, s2);
    var s3 := State(s2.que, 1, 1, 2, {4}, false, s2.threads[4 := PopCheck(1, 1)]);
    PopComes(k, s2, seen, 8, 4, s3);
    s := State(s2.que, 1, 1, 2, {}, false, s2.threads[4 := Done]);
    PopFails(k, s3, seen, 9, 4, s);
    assert seen[..|seen|] == seen;
  }

  lemma LostIsMissed(v: Value, a: Value, b: Value)
    requires a != b
    ensures Missed(LostSeen(v, a, b), 3, b, 4)
  {
    var seen := LostSeen(v, a, b);
    assert seen[4] == Ret(2, Got(a)) && seen[6] == Ret(3, Ack) && seen[8] == Call(4, Pop) && seen[9] == Ret(4, Empty);
  }

  /** Two pushes that overlap, with one consumer and no resize: there is a run in which an
      element is lost, and which is not linearizable. */
  lemma OverlappingPushesLoseElements(v: Value, a: Value, b: Value)
    requires a != b
    ensures Unexplained(Kind(2, FullClaim), LostSeen(v, a, b))
  {
    hide Reached, Permits;
    var s := Lose(v, a, b);
    LostIsMissed(v, a, b);
    MissIsUnexplained(Kind(2, FullClaim), s, LostSeen(v, a, b), 3, b, 4);
  }

  // ----- HeldPush: two pushes fill one slot -----

  function FilledTwiceSeen(x: Value, y: Value, z: Value): seq<Event> {
    [Call(0, Push(z)), Call(1, Pop), Call(2, Push(z)), Ret(2, Ack), Call(3, Push(x)), Ret(3, Ack), Call(4, Pop),
     Ret(4, Got(z)), Call(5, Push(y)), Ret(5, Ack), Ret(1, Got(y)), Call(6, Pop), Ret(6, Got(x))]
  }

  /** Push 0 claims slot 0 of three and waits, and pop 1 with it. */
  lemma HoldSlot(x: Value, y: Value, z: Value) returns (s: State)
    ensures Reached(Kind(3, HeldPush), s, FilledTwiceSeen(x, y, z)[..2])
    ensures s == State([Free, Free, Free], 1, 1, 0, {0, 1}, false, map[0 := PushFill(z, 0), 1 := PopTake(0)])
  {
    hide Reached, Permits;
    var k, seen := Kind(3, HeldPush), FilledTwiceSeen(x, y, z);
    Begins(k, seen);
    assert Empties(3) == [Free, Free, Free];
    var s1 := State([Free, Free, Free], 1, 3, 0, {0}, false, map[0 := PushFill(z, 0)]);
    PushWaits(k, Init(3), seen, 0, 0, z, s1);
    s := State([Free, Free, Free], 1, 1, 0, {0, 1}, false, map[0 := PushFill(z, 0), 1 := PopTake(0)]);
    PopWaits(k, s1, seen, 1, 1, s);
  }

  /** The other slots fill up. */
  lemma FillOthers(x: Value, y: Value, z: Value) returns (s: State)
    ensures Reached(Kind(3, HeldPush), s, FilledTwiceSeen(x, y, z)[..6])
    ensures s == State([Free, Full(z), Full(x)], 0, 1, 2, {0, 1}, false, map[0 := PushFill(z, 0), 1 := PopTake(0),
      2 := Done, 3 := Done])
  {
    hide Reached, Permits;
    var k, seen := Kind(3, HeldPush), FilledTwiceSeen(x, y, z);
    var s1 := HoldSlot(x, y, z);
    var s2 := State([Free, Full(z), Free], 2, 1, 1, {0, 1}, false, s1.threads[2 := Done]);
    PushesAlone(k, s1, seen, 2, 2, z, s2);
    s := State([Free, Full(z), Full(x)], 0, 1, 2, {0, 1}, false, s2.threads[3 := Done]);
    PushesAlone(k, s2, seen, 4, 3, x, s);
  }

  /** Push 5 claims slot 0 again and fills it first. */
  lemma FillTwice(x: Value, y: Value, z: Value) returns (s: State)
    ensures Reached(Kind(3, HeldPush), s, FilledTwiceSeen(x, y, z)[..10])
    ensures s == State([Full(y), Free, Full(x)], 1, 2, 2, {0, 1}, false, map[0 := PushFill(z, 0), 1 := PopTake(0),
      2 := Done, 3 := Done, 4 := Done, 5 := Done])
  {
    hide Reached, Permits;
    var k, seen := Kind(3, HeldPush), FilledTwiceSeen(x, y, z);
    var s1 := FillOthers(x, y, z);
    var s2 := State([Free, Free, Full(x)], 0, 2, 1, {0, 1}, false, s1.threads[4 := Done]);
    PopsAlone(k, s1, seen, 6, 4, z, s2);
    s := State([Full(y), Free, Full(x)], 1, 2, 2, {0, 1}, false, s2.threads[5 := Done]);
    PushesAlone(k, s2, seen, 8, 5, y, s);
  }

  /** Pop 1 takes what it finds, ahead of x. */
  lemma TakeAhead(x: Value, y: Value, z: Value) returns (s: State)
    ensures Reached(Kind(3, HeldPush), s, FilledTwiceSeen(x, y, z))
  {
    hide Reached, Permits;
    var k, seen := Kind(3, HeldPush), FilledTwiceSeen(x, y, z);
    var s1 := FillTwice(x, y, z);
    var s2 := State([Free, Free, Full(x)], 1, 2, 1, {0}, false, s1.threads[1 := Done]);
    PopTakes(k, s1, seen, 10, 1, 0, y, s2);
    s := State([Free, Free, Free], 1, 3, 0, {0}, false, s2.threads[6 := Done]);
    PopsAlone(k, s2, seen, 11, 6, x, s);
    assert seen[..|seen|] == seen;
  }

  /** A push that claims a slot which another push has yet to fill. */
  lemma HeldPushSwaps(x: Value, y: Value, z: Value)
    requires x != y && x != z && y != z
    ensures Unexplained(Kind(3, HeldPush), FilledTwiceSeen(x, y, z))
  {
    var s := TakeAhead(x, y, z);
    FilledTwiceIsSwapped(x, y, z);
    SwapIsUnexplained(Kind(3, HeldPush), s, FilledTwiceSeen(x, y, z), 3, x, 5, y, 6, 1);
  }

  lemma FilledTwiceIsSwapped(x: Value, y: Value, z: Value)
    requires x != y && x != z && y != z
    ensures Swapped(FilledTwiceSeen(x, y, z), 3, x, 5, y, 6, 1)
  {
    var seen := FilledTwiceSeen(x, y, z);
    assert seen[5] == Ret(3, Ack) && seen[8] == Call(5, Push(y)) && seen[9] == Ret(5, Ack);
    assert seen[10] == Ret(1, Got(y)) && seen[11] == Call(6, Pop) && seen[12] == Ret(6, Got(x));
  }

  // ----- HeldPop: two pops take from one slot -----

  function TakenTwiceSeen(x: Value, y: Value, z: Value): seq<Event> {
    [Call(0, Push(x)), Ret(0, Ack), Call(1, Pop), Call(2, Push(y)), Ret(2, Ack), Call(3, Pop), Ret(3, Got(y)),
     Call(4, Push(z)), Call(5, Pop), Ret(5, Got(x))]
  }

  /** Pop 1 claims x in slot 0 of two and waits. */
  lemma HoldElement(x: Value, y: Value, z: Value) returns (s: State)
    ensures Reached(Kind(2, HeldPop), s, TakenTwiceSeen(x, y, z)[..3])
    ensures s == State([Full(x), Free], 1, 1, 1, {1}, false, map[0 := Done, 1 := PopTake(0)])
  {
    hide Reached, Permits;
    var k, seen := Kind(2, HeldPop), TakenTwiceSeen(x, y, z);
    Begins(k, seen);
    var s1 := State([Full(x), Free], 1, 2, 1, {}, false, map[0 := Done]);
    assert Empties(2)[0 := Full(x)] == s1.que;
    PushesAlone(k, Init(2), seen, 0, 0, x, s1);
    s := State([Full(x), Free], 1, 1, 1, {1}, false, map[0 := Done, 1 := PopTake(0)]);
    PopWaits(k, s1, seen, 2, 1, s);
  }

  /** Meanwhile y goes in and out of slot 1. */
  lemma PassBy(x: Value, y: Value, z: Value) returns (s: State)
    ensures Reached(Kind(2, HeldPop), s, TakenTwiceSeen(x, y, z)[..7])
    ensures s == State([Full(x), Free], 0, 2, 1, {1}, false, map[0 := Done, 1 := PopTake(0), 2 := Done, 3 := Done])
  {
    hide Reached, Permits;
    var k, seen := Kind(2, HeldPop), TakenTwiceSeen(x, y, z);
    var s1 := HoldElement(x, y, z);
    var s2 := State([Full(x), Full(y)], 0, 1, 2, {1}, false, s1.threads[2 := Done]);
    PushesAlone(k, s1, seen, 3, 2, y, s2);
    s := State([Full(x), Free], 0, 2, 1, {1}, false, s2.threads[3 := Done]);
    PopsAlone(k, s2, seen, 5, 3, y, s);
  }

  /** Push 4 claims slot 0, so that the ring is not empty, and pop 5 claims it too and takes x. */
  lemma HeldPopSwaps(x: Value, y: Value, z: Value)
    requires x != y && x != z && y != z
    ensures Unexplained(Kind(2, HeldPop), TakenTwiceSeen(x, y, z))
  {
    hide Reached, Permits;
    var k, seen := Kind(2, HeldPop), TakenTwiceSeen(x, y, z);
    var s1 := PassBy(x, y, z);
    var s2 := State([Full(x), Free], 1, 2, 1, {1, 4}, false, s1.threads[4 := PushFill(z, 0)]);
    PushWaits(k, s1, seen, 7, 4, z, s2);
    var s3 := State([Free, Free], 1, 1, 0, {1, 4}, false, s2.threads[5 := Done]);
    PopsAlone(k, s2, seen, 8, 5, x, s3);
    assert seen[..|seen|] == seen;
    TakenTwiceIsSwapped(x, y, z);
    SwapIsUnexplained(k, s3, seen, 0, x, 2, y, 5, 3);
  }

  lemma TakenTwiceIsSwapped(x: Value, y: Value, z: Value)
    requires x != y && x != z && y != z
    ensures Swapped(TakenTwiceSeen(x, y, z), 0, x, 2, y, 5, 3)
  {
    var seen := TakenTwiceSeen(x, y, z);
    assert seen[1] == Ret(0, Ack) && seen[3] == Call(2, Push(y)) && seen[4] == Ret(2, Ack);
    assert seen[6] == Ret(3, Got(y)) && seen[8] == Call(5, Pop) && seen[9] == Ret(5, Got(x));
  }

  // ----- StaleEmpty: a pop finds nothing behind its old tail -----

  /** Pop 2 comes to its claim of slot 0 of three, and pop 3 takes what is there. */
  lemma LeaveBehind(flaw: Flaw, a: Value, b: Value, seen: seq<Event>) returns (s: State)
    requires seen == [Call(0, Push(a)), Ret(0, Ack), Call(1, Push(b)), Ret(1, Ack), Call(2, Pop), Call(3, Pop),
      Ret(3, Got(a))]
    ensures Reached(Kind(3, flaw), s, seen)
    ensures s == State([Free, Full(b), Free], 2, 1, 1, {2}, false, map[0 := Done, 1 := Done, 2 := PopCheck(1, 0),
      3 := Done])
  {
    hide Reached, Permits;
    var k := Kind(3, flaw);
    Begins(k, seen);
    var s1 := State([Full(a), Free, Free], 1, 3, 1, {}, false, map[0 := Done]);
    assert Empties(3)[0 := Full(a)] == s1.que;
    PushesAlone(k, Init(3), seen, 0, 0, a, s1);
    var s2 := State([Full(a), Full(b), Free], 2, 3, 2, {}, false, map[0 := Done, 1 := Done]);
    PushesAlone(k, s1, seen, 2, 1, b, s2);
    var s3 := State(s2.que, 2, 3, 2, {2}, false, map[0 := Done, 1 := Done, 2 := PopClaim(3, 0)]);
    PopPasses(k, s2, seen, 4, 2, s3);
    var s4 := State([Free, Full(b), Free], 2, 1, 1, {2}, false, s3.threads[3 := Done]);
    PopsAlone(k, s3, seen, 5, 3, a, s4);
    assert seen[..|seen|] == seen;
    s := State(s4.que, 2, 1, 1, {2}, false, s4.threads[2 := PopCheck(1, 0)]);
    PopRetries(k, s4, seen, 2, s);
  }

  function FoundEmptySeen(x: Value, z: Value): seq<Event> {
    [Call(0, Push(z)), Ret(0, Ack), Call(1, Push(x)), Ret(1, Ack), Call(2, Pop), Call(3, Pop), Ret(3, Got(z)),
     Call(4, Push(z)), Ret(4, Ack), Ret(2, Empty)]
  }

  /** Push 4 brings push round to slot 0, and pop 2 finds its old tail there. */
  lemma StaleEmptyMisses(x: Value, z: Value)
    requires x != z
    ensures Unexplained(Kind(3, StaleEmpty), FoundEmptySeen(x, z))
  {
    hide Reached;
    var k, seen := Kind(3, StaleEmpty), FoundEmptySeen(x, z);
    var s1 := LeaveBehind(StaleEmpty, z, x, seen[..7]);
    var s2 := State([Free, Full(x), Full(z)], 0, 1, 2, {2}, false, s1.threads[4 := Done]);
    PushesAlone(k, s1, seen, 7, 4, z, s2);
    var s3 := State(s2.que, 0, 1, 2, {}, false, s2.threads[2 := Done]);
    PopFails(k, s2, seen, 9, 2, s3);
    assert seen[..|seen|] == seen;
    FoundEmptyIsMissed(x, z);
    MissIsUnexplained(k, s3, seen, 1, x, 2);
  }

  lemma FoundEmptyIsMissed(x: Value, z: Value)
    requires x != z
    ensures Missed(FoundEmptySeen(x, z), 1, x, 2)
  {
    var seen := FoundEmptySeen(x, z);
    assert seen[3] == Ret(1, Ack) && seen[4] == Call(2, Pop) && seen[6] == Ret(3, Got(z)) && seen[9] == Ret(2, Empty);
  }

  // ----- StaleClaim: a pop claims the slot of its old tail -----

  function WentBackSeen(x: Value, y: Value, z: Value): seq<Event> {
    [Call(0, Push(z)), Ret(0, Ack), Call(1, Push(z)), Ret(1, Ack), Call(2, Pop), Call(3, Pop), Ret(3, Got(z)),
     Call(4, Push(x)), Ret(4, Ack), Call(5, Pop), Ret(5, Got(z)), Call(6, Push(y)), Ret(6, Ack), Ret(2, Got(y)),
     Call(7, Pop), Ret(7, Got(x))]
  }

  /** Pop 2 claims slot 0 once more and waits. */
  lemma GoBack(x: Value, y: Value, z: Value) returns (s: State)
    ensures Reached(Kind(3, StaleClaim), s, WentBackSeen(x, y, z)[..7])
    ensures s == State([Free, Full(z), Free], 2, 1, 1, {2}, false, map[0 := Done, 1 := Done, 2 := PopTake(0),
      3 := Done])
  {
    hide Reached, Permits;
    var k, seen := Kind(3, StaleClaim), WentBackSeen(x, y, z);
    var s1 := LeaveBehind(StaleClaim, z, z, seen[..7]);
    s := State(s1.que, 2, 1, 1, {2}, false, s1.threads[2 := PopTake(0)]);
    ClaimsBehind(k, s1, seen[..7], 2, 0, s);
  }

  /** x goes in, and pop 5 takes what is in front of it. */
  lemma BecomeFirst(x: Value, y: Value, z: Value) returns (s: State)
    ensures Reached(Kind(3, StaleClaim), s, WentBackSeen(x, y, z)[..11])
    ensures s == State([Free, Free, Full(x)], 0, 2, 1, {2}, false, map[0 := Done, 1 := Done, 2 := PopTake(0),
      3 := Done, 4 := Done, 5 := Done])
  {
    hide Reached, Permits;
    var k, seen := Kind(3, StaleClaim), WentBackSeen(x, y, z);
    var s1 := GoBack(x, y, z);
    var s2 := State([Free, Full(z), Full(x)], 0, 1, 2, {2}, false, s1.threads[4 := Done]);
    PushesAlone(k, s1, seen, 7, 4, x, s2);
    s := State([Free, Free, Full(x)], 0, 2, 1, {2}, false, s2.threads[5 := Done]);
    PopsAlone(k, s2, seen, 9, 5, z, s);
  }

  /** Push 6 brings the next element to slot 0, and pop 2 takes it ahead of x. */
  lemma GetAhead(x: Value, y: Value, z: Value) returns (s: State)
    ensures Reached(Kind(3, StaleClaim), s, WentBackSeen(x, y, z)[..14])
    ensures s == State([Free, Free, Full(x)], 1, 2, 1, {}, false, map[0 := Done, 1 := Done, 2 := Done, 3 := Done,
      4 := Done, 5 := Done, 6 := Done])
  {
    hide Reached, Permits;
    var k, seen := Kind(3, StaleClaim), WentBackSeen(x, y, z);
    var s1 := BecomeFirst(x, y, z);
    var s2 := State([Full(y), Free, Full(x)], 1, 2, 2, {2}, false, s1.threads[6 := Done]);
    PushesAlone(k, s1, seen, 11, 6, y, s2);
    s := State([Free, Free, Full(x)], 1, 2, 1, {}, false, s2.threads[2 := Done]);
    PopTakes(k, s2, seen, 13, 2, 0, y, s);
  }

  /** A pop that claims the slot of a tail which is not the tail any more. */
  lemma StaleClaimSwaps(x: Value, y: Value, z: Value)
    requires x != y && x != z && y != z
    ensures Unexplained(Kind(3, StaleClaim), WentBackSeen(x, y, z))
  {
    hide Reached, Permits;
    var k, seen := Kind(3, StaleClaim), WentBackSeen(x, y, z);
    var s1 := GetAhead(x, y, z);
    var s2 := State([Free, Free, Free], 1, 3, 0, {}, false, s1.threads[7 := Done]);
    PopsAlone(k, s1, seen, 14, 7, x, s2);
    assert seen[..|seen|] == seen;
    WentBackIsSwapped(x, y, z);
    SwapIsUnexplained(k, s2, seen, 4, x, 6, y, 7, 2);
  }

  lemma WentBackIsSwapped(x: Value, y: Value, z: Value)
    requires x != y && x != z && y != z
    ensures Swapped(WentBackSeen(x, y, z), 4, x, 6, y, 7, 2)
  {
    var seen := WentBackSeen(x, y, z);
    assert seen[8] == Ret(4, Ack) && seen[11] == Call(6, Push(y)) && seen[12] == Ret(6, Ack);
    assert seen[13] == Ret(2, Got(y)) && seen[14] == Call(7, Pop) && seen[15] == Ret(7, Got(x));
  }

  // ----- A pop that waits at an empty slot -----

  /** What a push can be doing while pop is right behind slot w and the mutex is shared: its
      test for a full ring keeps it from claiming w. */
  predicate Barred(l: Local, w: nat) {
    match l
    case PushCheck(_, slide, newslide) => newslide == slide + 1
    case PushUnlock(_, slide, newslide) => newslide == slide + 1
    case PushTry(_, slide, newslide) => newslide == slide + 1
    case PushRelock(_, slide, newslide) => newslide == slide + 1
    case PushClaim(_, slide, newslide) => newslide == slide + 1 && slide != w
    case PushFill(_, slide) => slide != w
    case PushRecheck(_, _, _) => false
    case PushResize(_, _, _) => false
    case PushRelease(_, _, _) => false
    case _ => !Popping(l)
  }

  /** Pop t waits at the null slot w, no other pop is under way and no push will fill w. */
  ghost predicate Stuck(s: State, t: OpId, w: nat) {
    && t in s.threads && s.threads[t] == PopTake(w) && t in s.readers
    && SlotAt(s.que, w) == Free && s.pop == w + 1 && w < |s.que| && !s.writer
    && forall u :: u in s.threads && u != t ==> Barred(s.threads[u], w)
  }

  lemma BarredStep(s: State, t: OpId, w: nat, u: OpId, miss: bool)
    requires Stuck(s, t, w) && u in s.threads && u != t && s.threads[u] != Done
    ensures Stuck(Instr(s, u, miss), t, w)
  {
    assert Barred(s.threads[u], w);
  }

  lemma StuckStep(s: State, t: OpId, w: nat, a: Action)
    requires Stuck(s, t, w) && Enabled(s, a, false) && !(a.Start? && a.op.Pop?)
    ensures Stuck(Step(s, a), t, w)
  {
    if a.Exec? {
      if a.t == t { assert Instr(s, t, a.miss) == s; } else { BarredStep(s, t, w, a.t, a.miss); }
    }
  }

  predicate NoPopIsCalled(acts: seq<Action>) {
    forall i :: 0 <= i < |acts| ==> !(acts[i].Start? && acts[i].op.Pop?)
  }

  /** Pop t of the run never gets its element unless another pop is called. */
  ghost predicate NeverReturns(max: nat, acts: seq<Action>, t: OpId, w: nat) {
    forall more :: NoPopIsCalled(more) ==> Stuck(After(max, acts + more, false).state, t, w)
  }

  lemma {:induction false} StuckForever(max: nat, acts: seq<Action>, more: seq<Action>, t: OpId, w: nat)
    requires Stuck(After(max, acts, false).state, t, w) && NoPopIsCalled(more)
    ensures Stuck(After(max, acts + more, false).state, t, w)
    decreases |more|
  {
    hide Step;
    if more == [] {
      assert acts + more == acts;
    } else {
      var before, a := more[..|more| - 1], more[|more| - 1];
      StuckForever(max, acts, before, t, w);
      assert (acts + more)[..|acts + more| - 1] == acts + before;
      var s := After(max, acts + before, false).state;
      if Enabled(s, a, false) { StuckStep(s, t, w, a); }
    }
  }

  /** Some run of this kind shows clients the events seen and leaves pop t at slot w for ever,
      unless another pop is called. */
  ghost predicate Blocked(k: Kind, seen: seq<Event>, s: State, t: OpId, w: nat) {
    exists acts :: OnlyFlaw(k.max, acts, false, k.flaw) && Visible(After(k.max, acts, false).trace) == seen &&
      After(k.max, acts, false).state == s && NeverReturns(k.max, acts, t, w)
  }

  lemma StuckIsBlocked(k: Kind, s: State, seen: seq<Event>, t: OpId, w: nat)
    requires Reached(k, s, seen) && Stuck(s, t, w)
    ensures Blocked(k, seen, s, t, w)
  {
    hide Stuck;
    var acts :| Ends(k, acts, s, seen);
    assert Inside(0);
    forall more | NoPopIsCalled(more) ensures Stuck(After(k.max, acts + more, false).state, t, w) {
      StuckForever(k.max, acts, more, t, w);
    }
  }

  // ----- StaleClaim in a ring of two slots: one element is claimed twice -----

  function TwiceSeen(v: Value): seq<Event> {
    [Call(0, Push(v)), Ret(0, Ack), Call(1, Pop), Call(2, Pop), Ret(2, Got(v))]
  }

  /** Pop 1 comes to its claim of slot 0, and pop 2 takes the element. */
  lemma ClaimOnce(flaw: Flaw, v: Value) returns (s: State)
    ensures Reached(Kind(2, flaw), s, TwiceSeen(v))
    ensures s == State([Free, Free], 1, 1, 0, {1}, false, map[0 := Done, 1 := PopClaim(2, 0), 2 := Done])
  {
    hide Reached, Permits;
    var k, seen := Kind(2, flaw), TwiceSeen(v);
    Begins(k, seen);
    var s1 := State([Full(v), Free], 1, 2, 1, {}, false, map[0 := Done]);
    assert Empties(2)[0 := Full(v)] == s1.que;
    PushesAlone(k, Init(2), seen, 0, 0, v, s1);
    var s2 := State([Full(v), Free], 1, 2, 1, {1}, false, map[0 := Done, 1 := PopClaim(2, 0)]);
    PopPasses(k, s1, seen, 2, 1, s2);
    s := State([Free, Free], 1, 1, 0, {1}, false, map[0 := Done, 1 := PopClaim(2, 0), 2 := Done]);
    PopsAlone(k, s2, seen, 3, 2, v, s);
    assert seen[..|seen|] == seen;
  }

  /** Pop 1, whose exchange fails, reads the new slide, keeps its old tail and claims slot 0. */
  lemma ClaimTwice(v: Value) returns (s: State)
    ensures Reached(Kind(2, StaleClaim), s, TwiceSeen(v))
    ensures s == State([Free, Free], 1, 1, 0, {1}, false, map[0 := Done, 1 := PopTake(0), 2 := Done])
  {
    hide Reached, Permits;
    var k, seen := Kind(2, StaleClaim), TwiceSeen(v);
    var s1 := ClaimOnce(StaleClaim, v);
    var s2 := State([Free, Free], 1, 1, 0, {1}, false, map[0 := Done, 1 := PopCheck(1, 0), 2 := Done]);
    PopRetries(k, s1, seen, 1, s2);
    s := State([Free, Free], 1, 1, 0, {1}, false, map[0 := Done, 1 := PopTake(0), 2 := Done]);
    ClaimsBehind(k, s2, seen, 1, 0, s);
  }

  /** A pop that finds its old tail apart from push and claims the slot. */
  lemma ClaimsBehind(k: Kind, s: State, seen: seq<Event>, t: OpId, slidetail: nat, s': State)
    requires Reached(k, s, seen) && t in s.threads && s.threads[t] == PopCheck(s.pop, slidetail) && slidetail != s.push
    requires slidetail != Tail(s.pop, |s.que|) && k.flaw == StaleClaim
    requires s' == Goto(s, t, PopTake(slidetail)).(pop := slidetail + 1)
    ensures Reached(k, s', seen)
  {
    hide Reached;
    var s1 := Goto(s, t, PopClaim(s.pop, slidetail));
    Tick(k, s, seen, t, s1);
    assert s' == Goto(s1, t, PopTake(slidetail)).(pop := slidetail + 1);
    PopClaims(k, s1, seen, t, slidetail, s');
  }

  /** Two pops that overlap: both claim slot 0 for the one element there is.  One takes it and
      leaves the ring empty, and the other never returns, whatever is pushed, unless another pop
      is called. */
  lemma OverlappingPopsBlockOne(v: Value)
    ensures exists s ::
      Blocked(Kind(2, StaleClaim), TwiceSeen(v), s, 1, 0) && Drained(s) && Count(s.push, s.pop, |s.que|) == 0
  {
    hide Reached, Permits;
    var s := ClaimTwice(v);
    assert Drained(s);
    StuckIsBlocked(Kind(2, StaleClaim), s, TwiceSeen(v), 1, 0);
  }

  // ----- EmptyClaim: a pop claims a slot of an empty ring -----

  function RoundSeen(v: Value, w: Value): seq<Event> {
    [Call(0, Push(v)), Ret(0, Ack), Call(1, Pop), Call(2, Pop), Ret(2, Got(v)), Call(3, Push(w)), Ret(3, Ack),
     Call(4, Pop), Ret(4, Got(w))]
  }

  /** w goes in and out, and the slides are back where they were. */
  lemma GoRound(v: Value, w: Value) returns (s: State)
    ensures Reached(Kind(2, EmptyClaim), s, RoundSeen(v, w))
    ensures s == State([Free, Free], 0, 2, 0, {1}, false, map[0 := Done, 1 := PopClaim(2, 0), 2 := Done, 3 := Done,
      4 := Done])
  {
    hide Reached, Permits;
    var k, seen := Kind(2, EmptyClaim), RoundSeen(v, w);
    var s1 := ClaimOnce(EmptyClaim, v);
    assert TwiceSeen(v) == seen[..5];
    var s2 := State([Free, Full(w)], 0, 1, 1, {1}, false, s1.threads[3 := Done]);
    PushesAlone(k, s1, seen, 5, 3, w, s2);
    s := State([Free, Free], 0, 2, 0, {1}, false, s2.threads[4 := Done]);
    PopsAlone(k, s2, seen, 7, 4, w, s);
    assert seen[..|seen|] == seen;
  }

  /** The exchange of pop 1 finds the slide it read, and the ring is empty. */
  lemma ClaimEmpty(v: Value, w: Value) returns (s: State)
    ensures Reached(Kind(2, EmptyClaim), s, RoundSeen(v, w))
    ensures s == State([Free, Free], 0, 1, 0, {1}, false, map[0 := Done, 1 := PopTake(0), 2 := Done, 3 := Done,
      4 := Done])
  {
    hide Reached;
    var s1 := GoRound(v, w);
    s := State([Free, Free], 0, 1, 0, {1}, false, s1.threads[1 := PopTake(0)]);
    PopClaims(Kind(2, EmptyClaim), s1, RoundSeen(v, w), 1, 0, s);
  }

  /** The ring is empty, pop 1 never returns, whatever is pushed, unless another pop is called,
      and the other slot counts as claimed although no push is filling it. */
  lemma EmptyClaimBlocksAPop(v: Value, w: Value)
    ensures exists s ::
      Blocked(Kind(2, EmptyClaim), RoundSeen(v, w), s, 1, 0) && Drained(s) && Count(s.push, s.pop, |s.que|) == 1
  {
    hide Reached, Permits;
    var s := ClaimEmpty(v, w);
    assert Drained(s);
    StuckIsBlocked(Kind(2, EmptyClaim), s, RoundSeen(v, w), 1, 0);
  }

  // ----- EmptyResize: doubling an empty ring makes phantoms -----

  /** Push 0 comes to its test before a goes in and out. */
  lemma TestEarly(v: Value, a: Value) returns (s: State)
    ensures Reached(Kind(2, EmptyResize), s, InAndOutSeen(v, a))
    ensures s == State(Empties(2), 1, 1, 0, {0}, false, map[0 := PushCheck(v, 0, 1), 1 := Done, 2 := Done])
  {
    hide Reached, Permits;
    var k, seen := Kind(2, EmptyResize), InAndOutSeen(v, a);
    Begins(k, seen);
    var s0 := State(Empties(2), 0, 2, 0, {0}, false, map[0 := PushCheck(v, 0, 1)]);
    PushComes(k, Init(2), seen, 0, 0, v, s0);
    s := InAndOut(EmptyResize, v, a, PushCheck(v, 0, 1));
  }

  /** It finds its stale newslide equal to pop and doubles the ring. */
  lemma MakePhantoms(v: Value, a: Value) returns (s: State)
    ensures Reached(Kind(2, EmptyResize), s, InAndOutSeen(v, a))
    ensures s == State(Empties(4), 1, 3, 0, {}, false, map[0 := PushRelock(v, 0, 1), 1 := Done, 2 := Done])
  {
    hide Reached, Permits;
    var k, seen := Kind(2, EmptyResize), InAndOutSeen(v, a);
    var s1 := TestEarly(v, a);
    var s2 := State(Empties(2), 1, 1, 0, {}, false, map[0 := PushTry(v, 0, 1), 1 := Done, 2 := Done]);
    PushGivesUp(k, s1, seen, 0, v, 0, s2);
    s := State(Empties(4), 1, 3, 0, {}, false, map[0 := PushRelock(v, 0, 1), 1 := Done, 2 := Done]);
    assert Resized(Empties(2), 1, 1) == Empties(4);
    PushDoubles(k, s2, seen, 0, v, 0, s);
  }

  /** Two pushes that overlap: the ring of two slots, empty again, is doubled with pop equal to
      push, and two slots count as claimed that no push is filling. */
  lemma OverlappingPushesMakePhantoms(v: Value, a: Value)
    ensures exists acts :: var s := After(2, acts, false).state;
      OnlyFlaw(2, acts, false, EmptyResize) && Drained(s) && Count(s.push, s.pop, |s.que|) == 2
  {
    var s := MakePhantoms(v, a);
    var acts :| Ends(Kind(2, EmptyResize), acts, s, InAndOutSeen(v, a));
    assert Inside(0);
    assert Drained(s);
  }

  function PhantomSeen(v: Value, a: Value): seq<Event> {
    [Call(0, Push(v)), Call(1, Push(a)), Ret(1, Ack), Call(2, Pop), Ret(2, Got(a)), Ret(0, Ack), Call(3, Pop)]
  }

  lemma PhantomBegins(v: Value, a: Value)
    ensures PhantomSeen(v, a)[..5] == InAndOutSeen(v, a)
  {}

  /** The push goes on in the doubled ring: its exchange fails and it starts over. */
  lemma StartOver(v: Value, a: Value) returns (s: State)
    ensures Reached(Kind(2, EmptyResize), s, PhantomSeen(v, a)[..5])
    ensures s == State(Empties(4), 1, 3, 0, {0}, false, map[0 := PushClaim(v, 1, 2), 1 := Done, 2 := Done])
  {
    hide Reached, Permits, InAndOutSeen;
    var k, seen := Kind(2, EmptyResize), InAndOutSeen(v, a);
    PhantomBegins(v, a);
    var s1 := MakePhantoms(v, a);
    var s2 := State(Empties(4), 1, 3, 0, {0}, false, map[0 := PushClaim(v, 0, 1), 1 := Done, 2 := Done]);
    PushComesBack(k, s1, seen, 0, v, 0, 1, s2);
    s := State(Empties(4), 1, 3, 0, {0}, false, map[0 := PushClaim(v, 1, 2), 1 := Done, 2 := Done]);
    PushRetries(k, s2, seen, 0, v, s);
  }

  /** It fills slot 1. */
  lemma FillDoubled(v: Value, a: Value) returns (s: State)
    ensures Reached(Kind(2, EmptyResize), s, PhantomSeen(v, a)[..6])
    ensures s == State([Free, Full(v), Free, Free], 2, 3, 1, {}, false, map[0 := Done, 1 := Done, 2 := Done])
  {
    hide Reached;
    var k, seen := Kind(2, EmptyResize), PhantomSeen(v, a);
    var s1 := StartOver(v, a);
    var s2 := State(Empties(4), 2, 3, 0, {0}, false, map[0 := PushFill(v, 1), 1 := Done, 2 := Done]);
    PushClaims(k, s1, seen[..5], 0, v, s2);
    s := State([Free, Full(v), Free, Free], 2, 3, 1, {}, false, map[0 := Done, 1 := Done, 2 := Done]);
    assert Empties(4)[1 := Full(v)] == s.que;
    PushFills(k, s2, seen, 5, 0, v, 1, s);
  }

  /** Pop 3 claims the first phantom, slot 3. */
  lemma WaitForPhantom(v: Value, a: Value) returns (s: State)
    ensures Reached(Kind(2, EmptyResize), s, PhantomSeen(v, a))
    ensures s == State([Free, Full(v), Free, Free], 2, 4, 1, {3}, false, map[0 := Done, 1 := Done, 2 := Done,
      3 := PopTake(3)])
  {
    hide Reached, Permits;
    var s1 := FillDoubled(v, a);
    s := State(s1.que, 2, 4, 1, {3}, false, s1.threads[3 := PopTake(3)]);
    PopWaits(Kind(2, EmptyResize), s1, PhantomSeen(v, a), 6, 3, s);
    assert PhantomSeen(v, a)[..7] == PhantomSeen(v, a);
  }

  /** After that v is pushed, a pop is called, and it waits at a phantom slot; v stays in the ring
      and the pop never returns, whatever is pushed, unless another pop is called. */
  lemma OverlappingPushesBlockAPop(v: Value, a: Value)
    ensures exists s ::
      Blocked(Kind(2, EmptyResize), PhantomSeen(v, a), s, 3, 3) && s.que == [Free, Full(v), Free, Free]
  {
    hide Reached, Permits;
    var s := WaitForPhantom(v, a);
    StuckIsBlocked(Kind(2, EmptyResize), s, PhantomSeen(v, a), 3, 3);
  }

  function ComeBackSeen(x: Value, y: Value, z: Value): seq<Event> {
    [Call(0, Push(z)), Call(1, Push(z)), Ret(1, Ack), Call(2, Pop), Ret(2, Got(z)), Ret(0, Ack), Call(3, Pop),
     Call(4, Pop), Call(5, Pop), Ret(5, Got(z)), Call(6, Push(x)), Ret(6, Ack), Call(7, Push(y)), Ret(7, Ack),
     Ret(3, Got(y)), Call(8, Pop), Ret(8, Got(x))]
  }

  lemma ComeBackBegins(x: Value, y: Value, z: Value)
    ensures ComeBackSeen(x, y, z)[..7] == PhantomSeen(z, z)
  {}

  /** Pop 4 claims the second phantom, and pop 5 takes what push 0 left. */
  lemma ClaimPhantoms(x: Value, y: Value, z: Value) returns (s: State)
    ensures Reached(Kind(2, EmptyResize), s, ComeBackSeen(x, y, z)[..10])
    ensures s == State([Free, Free, Free, Free], 2, 2, 0, {3, 4}, false, map[0 := Done, 1 := Done, 2 := Done,
      3 := PopTake(3), 4 := PopTake(0), 5 := Done])
  {
    hide Reached, Permits, PhantomSeen;
    var k, seen := Kind(2, EmptyResize), ComeBackSeen(x, y, z);
    var s1 := WaitForPhantom(z, z);
    ComeBackBegins(x, y, z);
    var s2 := State([Free, Full(z), Free, Free], 2, 1, 1, {3, 4}, false, s1.threads[4 := PopTake(0)]);
    PopWaits(k, s1, seen, 7, 4, s2);
    s := State([Free, Free, Free, Free], 2, 2, 0, {3, 4}, false, s2.threads[5 := Done]);
    PopsAlone(k, s2, seen, 8, 5, z, s);
  }

  /** Pushes come to the slot pop 3 waits for. */
  lemma FillPhantoms(x: Value, y: Value, z: Value) returns (s: State)
    ensures Reached(Kind(2, EmptyResize), s, ComeBackSeen(x, y, z)[..14])
    ensures s == State([Free, Free, Full(x), Full(y)], 0, 2, 2, {3, 4}, false, map[0 := Done, 1 := Done, 2 := Done,
      3 := PopTake(3), 4 := PopTake(0), 5 := Done, 6 := Done, 7 := Done])
  {
    hide Reached, Permits;
    var k, seen := Kind(2, EmptyResize), ComeBackSeen(x, y, z);
    var s1 := ClaimPhantoms(x, y, z);
    var s2 := State([Free, Free, Full(x), Free], 3, 2, 1, {3, 4}, false, s1.threads[6 := Done]);
    PushesAlone(k, s1, seen, 10, 6, x, s2);
    s := State([Free, Free, Full(x), Full(y)], 0, 2, 2, {3, 4}, false, s2.threads[7 := Done]);
    PushesAlone(k, s2, seen, 12, 7, y, s);
  }

  /** It takes y ahead of x. */
  lemma ComeBack(x: Value, y: Value, z: Value) returns (s: State)
    ensures Reached(Kind(2, EmptyResize), s, ComeBackSeen(x, y, z))
  {
    hide Reached, Permits;
    var k, seen := Kind(2, EmptyResize), ComeBackSeen(x, y, z);
    var s1 := FillPhantoms(x, y, z);
    var s2 := State([Free, Free, Full(x), Free], 0, 2, 1, {4}, false, s1.threads[3 := Done]);
    PopTakes(k, s1, seen, 14, 3, 3, y, s2);
    s := State([Free, Free, Free, Free], 0, 3, 0, {4}, false, s2.threads[8 := Done]);
    PopsAlone(k, s2, seen, 15, 8, x, s);
    assert seen[..|seen|] == seen;
  }

  /** A resize with push equal to pop. */
  lemma EmptyResizeSwaps(x: Value, y: Value, z: Value)
    requires x != y && x != z && y != z
    ensures Unexplained(Kind(2, EmptyResize), ComeBackSeen(x, y, z))
  {
    hide Reached, Permits;
    var s := ComeBack(x, y, z);
    ComeBackIsSwapped(x, y, z);
    SwapIsUnexplained(Kind(2, EmptyResize), s, ComeBackSeen(x, y, z), 6, x, 7, y, 8, 3);
  }

  lemma ComeBackIsSwapped(x: Value, y: Value, z: Value)
    requires x != y && x != z && y != z
    ensures Swapped(ComeBackSeen(x, y, z), 6, x, 7, y, 8, 3)
  {
    var seen := ComeBackSeen(x, y, z);
    assert seen[11] == Ret(6, Ack) && seen[12] == Call(7, Push(y)) && seen[13] == Ret(7, Ack);
    assert seen[14] == Ret(3, Got(y)) && seen[15] == Call(8, Pop) && seen[16] == Ret(8, Got(x));
  }

  // ----- No flaw: a push doubles the array without end -----

  function LaggingSeen(v: Value, a: Value, b: Value): seq<Event> {
    [Call(0, Push(v)), Call(1, Push(a)), Ret(1, Ack), Call(2, Push(b)), Ret(2, Ack), Call(3, Pop), Ret(3, Got(a))]
  }

  /** Push 0 has read slide 0 of three when two pushes and a pop go by. */
  lemma Lag(v: Value, a: Value, b: Value) returns (s: State)
    ensures Reached(Kind(3, NoFlaw), s, LaggingSeen(v, a, b))
    ensures s == State([Free, Full(b), Free], 2, 1, 1, {0}, false, map[0 := PushCheck(v, 0, 1), 1 := Done, 2 := Done,
      3 := Done])
  {
    hide Reached, Permits;
    var k, seen := Kind(3, NoFlaw), LaggingSeen(v, a, b);
    Begins(k, seen);
    assert Empties(3) == [Free, Free, Free];
    var s1 := State([Free, Free, Free], 0, 3, 0, {0}, false, map[0 := PushCheck(v, 0, 1)]);
    PushComes(k, Init(3), seen, 0, 0, v, s1);
    var s2 := State([Full(a), Free, Free], 1, 3, 1, {0}, false, s1.threads[1 := Done]);
    PushesAlone(k, s1, seen, 1, 1, a, s2);
    var s3 := State([Full(a), Full(b), Free], 2, 3, 2, {0}, false, s2.threads[2 := Done]);
    PushesAlone(k, s2, seen, 3, 2, b, s3);
    s := State([Free, Full(b), Free], 2, 1, 1, {0}, false, s3.threads[3 := Done]);
    PopsAlone(k, s3, seen, 5, 3, a, s);
    assert seen[..|seen|] == seen;
  }

  /** There is a run without a flaw in which a push, going on alone, doubles the array without end:
      from the moment its slide looks full it never returns. */
  lemma APushDoublesForever(v: Value, a: Value, b: Value)
    ensures exists acts ::
      && Clean(3, acts, false) && Visible(After(3, acts, false).trace) == LaggingSeen(v, a, b)
      && forall n, res, size :: !Progress.Finishes(3, acts, 0, n, res, size)
  {
    var s := Lag(v, a, b);
    var acts :| Ends(Kind(3, NoFlaw), acts, s, LaggingSeen(v, a, b));
    assert Inside(0);
    Progress.TestEndsIff(3, acts, 0, v, 0);
  }

  // ----- Which flaws break the order -----

  /** Every run with no other flaw is linearizable. */
  ghost predicate KeepsOrder(flaw: Flaw) {
    forall max: nat, acts :: max > 0 && OnlyFlaw(max, acts, false, flaw) ==> Linearizable(After(max, acts, false).trace)
  }

  lemma BreaksOrder(k: Kind, seen: seq<Event>)
    requires k.max > 0 && Unexplained(k, seen)
    ensures !KeepsOrder(k.flaw)
  {}

  /** The order is kept in every run whose only flaws are early claims of pops.  Each other flaw
      on its own is enough to break it. */
  lemma OrderIsKeptIff(flaw: Flaw, x: Value, y: Value, z: Value)
    requires x != y && x != z && y != z
    ensures KeepsOrder(flaw) <==> flaw == NoFlaw || flaw == EmptyClaim
  {
    hide Unexplained, KeepsOrder;
    match flaw
    case FullClaim =>
      OverlappingPushesLoseElements(z, y, x);
      BreaksOrder(Kind(2, FullClaim), LostSeen(z, y, x));
    case HeldPush =>
      HeldPushSwaps(x, y, z);
      BreaksOrder(Kind(3, HeldPush), FilledTwiceSeen(x, y, z));
    case EmptyResize =>
      EmptyResizeSwaps(x, y, z);
      BreaksOrder(Kind(2, EmptyResize), ComeBackSeen(x, y, z));
    case StaleEmpty =>
      StaleEmptyMisses(x, z);
      BreaksOrder(Kind(3, StaleEmpty), FoundEmptySeen(x, z));
    case StaleClaim =>
      StaleClaimSwaps(x, y, z);
      BreaksOrder(Kind(3, StaleClaim), WentBackSeen(x, y, z));
    case HeldPop =>
      HeldPopSwaps(x, y, z);
      BreaksOrder(Kind(2, HeldPop), TakenTwiceSeen(x, y, z));
    case _ => OrderIsKept(flaw);
  }

  lemma OrderIsKept(flaw: Flaw)
    requires flaw == NoFlaw || flaw == EmptyClaim
    ensures KeepsOrder(flaw)
  {
    forall max: nat, acts | max > 0 && OnlyFlaw(max, acts, false, flaw)
      ensures Linearizable(After(max, acts, false).trace)
    {
      if flaw == NoFlaw { CleanAllows(max, acts, false, EmptyClaim); }
      RingqueProof.OrderlyIsFifo(max, acts, false);
    }
  }
}
