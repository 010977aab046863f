/** The row of claimed slots of a ringque, and exactly when a claim by a push, a claim by a pop
    and a doubling of the array do to it what they should. */
module RingqueResize {
  import opened Ringque

  /** How many slots are claimed. */
  function Count(push: nat, pop: nat, max: nat): nat {
    var tail := Tail(pop, max);
    if tail <= push then push - tail else if tail <= push + max then push + max - tail else 0
  }

  /** The slot i places behind the tail. */
  function Wrap(pop: nat, max: nat, i: nat): nat {
    var k := Tail(pop, max) + i;
    if k < max then k else k - max
  }

  /** How far slot i lies behind the tail. */
  function Behind(pop: nat, max: nat, i: nat): nat {
    var tail := Tail(pop, max);
    if tail <= i then i - tail else if tail <= i + max then i + max - tail else 0
  }

  /** push and pop are in their ranges. */
  predicate InRange(push: nat, pop: nat, max: nat) {
    push < max && 1 <= pop <= max
  }

  /** The claimed slots in the order in which they are popped. */
  function Row(que: seq<Slot>, push: nat, pop: nat): (row: seq<Slot>)
    ensures |row| == Count(push, pop, |que|)
  {
    seq(Count(push, pop, |que|), i requires 0 <= i => SlotAt(que, Wrap(pop, |que|, i)))
  }

  /** push runs into pop from behind exactly when all slots but one are claimed. */
  lemma FullIff(push: nat, pop: nat, max: nat)
    requires InRange(push, pop, max)
    ensures push + 1 == pop <==> Count(push, pop, max) == max - 1
    ensures Count(push, pop, max) < max
    ensures Tail(pop, max) == push <==> Count(push, pop, max) == 0
  {}

  /** The slot behind the last one a push can claim. */
  function NextPush(push: nat, max: nat): nat {
    if push + 1 == max then 0 else push + 1
  }

  /** The exchange of a push adds the claimed slot to the row, and nothing else, if and only if
      the ring is not full when it happens; if it is full, the row is gone. */
  lemma ClaimExtendsRowIff(que: seq<Slot>, push: nat, pop: nat)
    requires InRange(push, pop, |que|)
    ensures var push' := NextPush(push, |que|);
      && InRange(push', pop, |que|)
      && (Row(que, push', pop) == Row(que, push, pop) + [SlotAt(que, push)] <==> push + 1 != pop)
      && (push + 1 == pop ==> Row(que, push', pop) == [])
  {
    var push' := NextPush(push, |que|);
    if push + 1 != pop {
      assert Count(push', pop, |que|) == Count(push, pop, |que|) + 1;
      assert Wrap(pop, |que|, Count(push, pop, |que|)) == push;
    }
  }

  /** The exchange of a pop takes one slot from the row if and only if the ring is not empty
      and the tail it goes by belongs to the pop slide it replaces. */
  lemma TakeShortensIff(push: nat, pop: nat, slidetail: nat, max: nat)
    requires InRange(push, pop, max) && slidetail < max
    ensures InRange(push, slidetail + 1, max)
    ensures Count(push, slidetail + 1, max) == Count(push, pop, max) - 1 <==>
      slidetail == Tail(pop, max) && slidetail != push
  {}

  /** And then it is the first. */
  lemma TakeDropsFirst(que: seq<Slot>, push: nat, pop: nat)
    requires InRange(push, pop, |que|) && Tail(pop, |que|) != push
    ensures var tail := Tail(pop, |que|); Row(que, push, pop) == [que[tail]] + Row(que, push, tail + 1)
  {
    var tail := Tail(pop, |que|);
    var row, rest := Row(que, push, pop), Row(que, push, tail + 1);
    TakeShortensIff(push, pop, tail, |que|);
    forall i | 0 <= i < |row| ensures row[i] == ([que[tail]] + rest)[i] {
      if i > 0 { assert Wrap(pop, |que|, i) == Wrap(tail + 1, |que|, i - 1); }
    }
  }

  lemma TakeDropsFirstIff(que: seq<Slot>, push: nat, pop: nat, slidetail: nat)
    requires InRange(push, pop, |que|) && slidetail < |que|
    ensures var row, rest := Row(que, push, pop), Row(que, push, slidetail + 1);
      && (|rest| == |row| - 1 <==> slidetail == Tail(pop, |que|) && slidetail != push)
      && (|rest| == |row| - 1 ==> row == [que[slidetail]] + rest)
  {
    TakeShortensIff(push, pop, slidetail, |que|);
    if slidetail == Tail(pop, |que|) && slidetail != push { TakeDropsFirst(que, push, pop); }
  }

  lemma RowMoves(que: seq<Slot>, push: nat, pop: nat, i: nat)
    requires InRange(push, pop, |que|) && push != pop && i < Count(push, pop, |que|)
    ensures Resized(que, push, pop)[Wrap(ResizedPop(push, pop, |que|), 2 * |que|, i)] ==
      SlotAt(que, Wrap(pop, |que|, i))
    ensures Count(push, ResizedPop(push, pop, |que|), 2 * |que|) == Count(push, pop, |que|)
  {}

  /** The doubled ring is in range.  It holds the same row if and only if push and pop differ,
      and then every other slot of it is null. */
  lemma ResizeKeepsRowIff(que: seq<Slot>, push: nat, pop: nat)
    requires InRange(push, pop, |que|)
    ensures var que', pop' := Resized(que, push, pop), ResizedPop(push, pop, |que|);
      && |que'| == 2 * |que| && InRange(push, pop', |que'|)
      && (Row(que', push, pop') == Row(que, push, pop) <==> push != pop)
      && (push != pop ==> forall i ::
          0 <= i < |que'| && Behind(pop', |que'|, i) >= Count(push, pop', |que'|) ==> que'[i] == Free)
  {
    var que', pop' := Resized(que, push, pop), ResizedPop(push, pop, |que|);
    if push != pop {
      forall i | 0 <= i < |Row(que, push, pop)|
        ensures |Row(que', push, pop')| == |Row(que, push, pop)| && Row(que', push, pop')[i] == Row(que, push, pop)[i]
      {
        RowMoves(que, push, pop, i);
      }
      if Row(que, push, pop) == [] { assert Row(que', push, pop') == []; }
    } else {
      assert |Row(que, push, pop)| == 0 && |Row(que', push, pop')| == |que|;
    }
  }

  /** The fields a resize changes, while nobody else holds the mutex. */
  class Ring {
    var que: array<Slot>
    var push: nat
    var pop: nat

    ghost predicate Valid()
      reads this, que
    {
      InRange(push, pop, que.Length)
    }

    /** An array of null slots. */
    static method GetQue(size: nat) returns (que: array<Slot>)
      ensures fresh(que) && que[..] == Empties(size)
    {
      que := new Slot[size](_ => Free);
      var i := 0;
      while i < size
        invariant i <= size && forall k :: 0 <= k < i ==> que[k] == Free
      {
        que[i] := Free;
        i := i + 1;
      }
    }

    constructor (max: nat)
      requires max > 0
      ensures Valid() && fresh(que) && que[..] == Empties(max) && push == 0 && pop == max
    {
      que := new Slot[max](_ => Free);
      push := 0;
      pop := max;
    }

    /** The copy loops of a resize: slots lo to hi, shift places further on. */
    static method Copy(que: array<Slot>, tmp: array<Slot>, lo: nat, hi: nat, shift: nat)
      requires que != tmp && lo <= hi <= que.Length && hi + shift <= tmp.Length
      modifies tmp
      ensures forall k ::
        0 <= k < tmp.Length ==> tmp[k] == if lo + shift <= k < hi + shift then que[k - shift] else old(tmp[k])
    {
      var i := lo;
      while i < hi
        invariant lo <= i <= hi
        invariant forall k :: lo + shift <= k < i + shift ==> tmp[k] == que[k - shift]
        invariant forall k :: 0 <= k < lo + shift && k < tmp.Length ==> tmp[k] == old(tmp[k])
        invariant forall k :: i + shift <= k < tmp.Length ==> tmp[k] == old(tmp[k])
      {
        tmp[i + shift] := que[i];
        i := i + 1;
      }
    }

    method Resize()
      requires Valid()
      modifies this`que, this`pop
      ensures fresh(que) && que[..] == Resized(old(que[..]), push, old(pop))
      ensures pop == ResizedPop(push, old(pop), old(que.Length))
      ensures Valid()
    {
      var max, pushslide, popslide := que.Length, push, pop;
      var size := 2 * max;
      ghost var slots := que[..];
      var tmp := GetQue(size);
      if popslide >= pushslide {
        Copy(que, tmp, 0, pushslide, 0);
        Copy(que, tmp, popslide, max, max);
        pop := pop + max;
      } else {
        Copy(que, tmp, popslide, pushslide, 0);
      }
      assert forall k :: 0 <= k < size ==> tmp[k] == Moved(slots, pushslide, popslide, k);
      que := tmp;
    }
  }
}
