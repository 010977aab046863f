/** What it means for clients that swapque is a bag: nothing is lost, nothing is duplicated and
    nothing comes from nowhere. */
module SwapqueBag {
  import opened Linearizability
  import opened SwapqueProof

  function PushesOf(log: seq<Entry>, v: Value): nat {
    if log == [] then 0 else PushesOf(log[..|log| - 1], v) + (if log[|log| - 1].op == Push(v) then 1 else 0)
  }

  function GotsOf(log: seq<Entry>, v: Value): nat {
    if log == [] then 0 else GotsOf(log[..|log| - 1], v) + (if log[|log| - 1].res == Got(v) then 1 else 0)
  }

  lemma {:induction false} InBagCounts(log: seq<Entry>, v: Value)
    requires BagLegal(log)
    ensures InBag(log, v) == PushesOf(log, v) - GotsOf(log, v) >= 0
    decreases |log|
  {
    if log != [] { InBagCounts(log[..|log| - 1], v); }
  }

  lemma {:induction false} BagPrefix(log: seq<Entry>, n: nat)
    requires BagLegal(log) && n <= |log|
    ensures BagLegal(log[..n])
    decreases |log|
  {
    if n < |log| {
      BagPrefix(log[..|log| - 1], n);
      assert log[..|log| - 1][..n] == log[..n];
    } else {
      assert log[..n] == log;
    }
  }

  lemma {:induction false} PushedOnce(log: seq<Entry>, v: Value, i: nat)
    requires forall j :: 0 <= j < |log| && log[j].op == Push(v) ==> j == i
    ensures PushesOf(log, v) <= 1 && (PushesOf(log, v) == 1 <==> i < |log| && log[i].op == Push(v))
    decreases |log|
  {
    if log != [] { PushedOnce(log[..|log| - 1], v, i); }
  }

  lemma {:induction false} GotsAre(log: seq<Entry>, v: Value, k: nat)
    requires k < |log| && log[k].res == Got(v)
    ensures GotsOf(log, v) >= 1 && (forall l :: k < l < |log| && log[l].res == Got(v) ==> GotsOf(log, v) >= 2)
    decreases |log|
  {
    if k < |log| - 1 {
      GotsAre(log[..|log| - 1], v, k);
      forall l | k < l < |log| && log[l].res == Got(v) ensures GotsOf(log, v) >= 2 {
        if l < |log| - 1 { assert log[..|log| - 1][l] == log[l]; }
      }
    }
  }

  lemma {:induction false} SomeGot(log: seq<Entry>, v: Value) returns (k: nat)
    requires GotsOf(log, v) > 0
    ensures k < |log| && log[k].res == Got(v)
    decreases |log|
  {
    if log[|log| - 1].res == Got(v) { k := |log| - 1; } else { k := SomeGot(log[..|log| - 1], v); }
  }

  /** Nothing is duplicated: an element that is pushed once is popped once. */
  lemma PoppedOnce(trace: seq<Event>, p: OpId, v: Value, c: OpId, d: OpId)
    requires BagLinearizable(trace) && OnlyPusher(trace, p, v)
    requires Ret(c, Got(v)) in trace && Ret(d, Got(v)) in trace
    ensures c == d
  {
    var log: seq<Entry> :| Orders(trace, log) && BagLegal(log);
    var i := EntryOfPusher(trace, log, p, v);
    var opc :| Entry(c, opc, Got(v)) in log;
    var opd :| Entry(d, opd, Got(v)) in log;
    var k :| 0 <= k < |log| && log[k] == Entry(c, opc, Got(v));
    var l :| 0 <= l < |log| && log[l] == Entry(d, opd, Got(v));
    InBagCounts(log, v);
    PushedOnce(log, v, i);
    GotsAre(log, v, if k <= l then k else l);
  }

  /** Nothing comes from nowhere: an element that is popped was pushed. */
  lemma PoppedWasPushed(trace: seq<Event>, v: Value, c: OpId)
    requires BagLinearizable(trace) && Ret(c, Got(v)) in trace
    ensures exists p :: Call(p, Push(v)) in trace
  {
    var log: seq<Entry> :| Orders(trace, log) && BagLegal(log);
    var op :| Entry(c, op, Got(v)) in log;
    var k :| 0 <= k < |log| && log[k] == Entry(c, op, Got(v));
    InBagCounts(log, v);
    GotsAre(log, v, k);
    var i := SomePush(log, v);
    assert log[i] in log && Call(log[i].t, Push(v)) in trace;
  }

  lemma {:induction false} SomePush(log: seq<Entry>, v: Value) returns (i: nat)
    requires PushesOf(log, v) > 0
    ensures i < |log| && log[i].op == Push(v)
    decreases |log|
  {
    if log[|log| - 1].op == Push(v) { i := |log| - 1; } else { i := SomePush(log[..|log| - 1], v); }
  }

  lemma TakenBefore(log: seq<Entry>, i: nat, l: nat, v: Value) returns (k: nat)
    requires BagLegal(log) && i < l < |log| && log[i].op == Push(v) && log[l].res == Empty
    requires forall j :: 0 <= j < |log| && log[j].op == Push(v) ==> j == i
    ensures k < l && log[k].res == Got(v)
  {
    var before := log[..l];
    BagPrefix(log, l + 1);
    assert log[..l + 1][..l] == before;
    BagPrefix(log, l);
    InBagCounts(before, v);
    assert before[i] == log[i];
    PushedOnce(before, v, i);
    k := SomeGot(before, v);
  }

  /** Nothing is lost: when a pop finds nothing, every element whose push was over before that
      pop was called has been taken by a pop that was called before that pop was over. */
  lemma EmptyMeansTaken(trace: seq<Event>, p: OpId, v: Value, d: OpId)
    requires BagLinearizable(trace) && OnlyPusher(trace, p, v) && Precedes(trace, p, d) && p != d
    requires Ret(d, Empty) in trace
    ensures exists c ::
      Call(c, Pop) in trace && !Precedes(trace, d, c) && forall res :: Ret(c, res) in trace ==> res == Got(v)
  {
    var log: seq<Entry> :| Orders(trace, log) && BagLegal(log);
    var i := EntryOfPusher(trace, log, p, v);
    var op :| Entry(d, op, Empty) in log;
    var l: nat :| l < |log| && log[l] == Entry(d, op, Empty);
    assert i < l by { assert log[l].t == d && log[i].t == p; }
    var k := TakenBefore(log, i, l, v);
    TakerIs(trace, log, k, l, v);
  }

  lemma TakerIs(trace: seq<Event>, log: seq<Entry>, k: nat, l: nat, v: Value)
    requires Orders(trace, log) && BagLegal(log) && k < l < |log| && log[k].res == Got(v)
    ensures Call(log[k].t, Pop) in trace && !Precedes(trace, log[l].t, log[k].t)
    ensures forall res :: Ret(log[k].t, res) in trace ==> res == Got(v)
  {
    var c := log[k].t;
    BagPrefix(log, k + 1);
    assert log[..k + 1][..k] == log[..k];
    assert log[k] in log;
    forall res | Ret(c, res) in trace ensures res == Got(v) {
      var op :| Entry(c, op, res) in log;
      var j :| 0 <= j < |log| && log[j] == Entry(c, op, res);
      assert log[j].t == log[k].t;
    }
  }
}
