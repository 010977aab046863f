/** A shared counter that operations change some time after they take effect. */
module Counting {
  import opened Linearizability

  /** The counters are 32-bit unsigned integers. */
  const WORD: nat := 0x1_0000_0000

  function Increment(size: nat): (r: nat)
    ensures size < WORD ==> r == if size + 1 == WORD then 0 else size + 1
  {
    (size + 1) % WORD
  }

  function Decrement(size: nat): (r: nat)
    ensures size < WORD ==> r == if size == 0 then WORD - 1 else size - 1
  {
    (size + WORD - 1) % WORD
  }

  function Laps(k: int): int { WORD * k }

  /** Equal up to a whole number of times the counter has gone round. */
  ghost predicate Agree(a: int, b: int) {
    exists k :: a - b == Laps(k)
  }

  /** Both change alike, except that the counter may go round once. */
  predicate Together(d: int) {
    d == 0 || d == WORD || d + WORD == 0
  }

  lemma AgreeStill(a: int, b: int, a': int, b': int)
    requires Agree(a, b) && Together((a' - b') - (a - b))
    ensures Agree(a', b')
  {
    var k :| a - b == Laps(k);
    var d := (a' - b') - (a - b);
    assert a' - b' == Laps(if d == 0 then k else if d == WORD then k + 1 else k - 1);
  }

  lemma Settles(size: nat, length: nat)
    requires size < WORD && Agree(size, length)
    ensures size == length % WORD
  {}

  /** The operations that owe d to the counter. */
  function Owing<L>(threads: map<OpId, L>, debt: L -> int, d: int): set<OpId> {
    set t | t in threads && debt(threads[t]) == d
  }

  /** What is still to be added to the counter, when each operation owes 1, 0 or -1. */
  function Balance<L>(threads: map<OpId, L>, debt: L -> int): int {
    |Owing(threads, debt, 1)| - |Owing(threads, debt, -1)|
  }

  lemma OwingMoves<L>(threads: map<OpId, L>, debt: L -> int, t: OpId, l: L, d: int)
    ensures |Owing(threads[t := l], debt, d)| ==
      |Owing(threads, debt, d)| + (if debt(l) == d then 1 else 0)
      - (if t in threads && debt(threads[t]) == d then 1 else 0)
  {
    var before, after := Owing(threads, debt, d), Owing(threads[t := l], debt, d);
    assert before - {t} == after - {t};
    assert t in before ==> before == before - {t} + {t};
    assert t in after ==> after == after - {t} + {t};
    assert t !in before ==> before == before - {t};
    assert t !in after ==> after == after - {t};
  }

  lemma BalanceMoves<L>(threads: map<OpId, L>, debt: L -> int, t: OpId, l: L)
    requires -1 <= debt(l) <= 1 && (t in threads ==> -1 <= debt(threads[t]) <= 1)
    ensures Balance(threads[t := l], debt) ==
      Balance(threads, debt) + debt(l) - (if t in threads then debt(threads[t]) else 0)
  {
    OwingMoves(threads, debt, t, l, 1);
    OwingMoves(threads, debt, t, l, -1);
  }

  lemma BalanceAtRest<L>(threads: map<OpId, L>, debt: L -> int)
    requires forall t :: t in threads ==> debt(threads[t]) == 0
    ensures Balance(threads, debt) == 0
  {}
}
