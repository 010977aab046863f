/** What it means for a concurrent first-in-first-out queue to be correct.

    A trace is the sequence of calls and returns seen by the clients of a queue.  It is
    linearizable (Herlihy and Wing) when there is a log of operations that is a legal run
    of a plain sequential queue, contains every returned operation with its result, and
    keeps the order of any two operations that did not overlap.

    Every operation instance has its own identifier.  A thread that performs several
    operations one after the other is a succession of such instances. */
module Linearizability {

  /** The elements of the queues. */
  type Value(==,!new)

  type OpId = nat

  datatype Op = Push(v: Value) | Pop | Clear

  datatype Res = Ack | Got(v: Value) | Empty

  datatype Event = Call(t: OpId, op: Op) | Ret(t: OpId, res: Res) | Tau

  datatype Entry = Entry(t: OpId, op: Op, res: Res)

  // ----- The sequential queue -----

  function Effect(q: seq<Value>, op: Op): (seq<Value>, Res) {
    match op
    case Push(v) => (q + [v], Ack)
    case Pop => if q == [] then (q, Empty) else (q[1..], Got(q[0]))
    case Clear => ([], Ack)
  }

  /** The content of the queue after the logged operations. */
  ghost function Replay(q: seq<Value>, log: seq<Entry>): seq<Value>
    decreases |log|
  {
    if log == [] then q else Replay(Effect(q, log[0].op).0, log[1..])
  }

  /** Every logged operation has the result the sequential queue gives. */
  ghost predicate Legal(q: seq<Value>, log: seq<Entry>)
    decreases |log|
  {
    log == [] ||
    (log[0].res == Effect(q, log[0].op).1 && Legal(Effect(q, log[0].op).0, log[1..]))
  }

  lemma {:induction false} ReplayConcat(q: seq<Value>, a: seq<Entry>, b: seq<Entry>)
    ensures Replay(q, a + b) == Replay(Replay(q, a), b)
    ensures Legal(q, a + b) <==> Legal(q, a) && Legal(Replay(q, a), b)
    decreases |a|
  {
    if a == [] {
      assert a + b == b;
    } else {
      assert (a + b)[1..] == a[1..] + b;
      ReplayConcat(Effect(q, a[0].op).0, a[1..], b);
    }
  }

  lemma ReplaySnoc(q: seq<Value>, log: seq<Entry>, e: Entry)
    ensures Replay(q, log + [e]) == Effect(Replay(q, log), e.op).0
    ensures Legal(q, log + [e]) <==> Legal(q, log) && e.res == Effect(Replay(q, log), e.op).1
  {
    ReplayConcat(q, log, [e]);
    assert [e][1..] == [];
  }

  // ----- Linearizability -----

  /** Operation a returned before operation b was called. */
  ghost predicate Precedes(trace: seq<Event>, a: OpId, b: OpId) {
    exists r, c :: 0 <= r < c < |trace| && trace[r].Ret? && trace[r].t == a && trace[c].Call? && trace[c].t == b
  }

  ghost predicate Called(trace: seq<Event>, t: OpId) {
    exists op :: Call(t, op) in trace
  }

  ghost predicate CalledBefore(trace: seq<Event>, t: OpId, j: nat) {
    exists i :: 0 <= i < j && i < |trace| && trace[i].Call? && trace[i].t == t
  }

  ghost predicate Returned(trace: seq<Event>, t: OpId) {
    exists res :: Ret(t, res) in trace
  }

  ghost predicate InLog(log: seq<Entry>, t: OpId) {
    exists i :: 0 <= i < |log| && log[i].t == t
  }

  ghost predicate Distinct(log: seq<Entry>) {
    forall i, j :: 0 <= i < j < |log| ==> log[i].t != log[j].t
  }

  ghost predicate RealTime(trace: seq<Event>, log: seq<Entry>) {
    forall i, j {:trigger Precedes(trace, log[j].t, log[i].t)} ::
      0 <= i < j < |log| ==> !Precedes(trace, log[j].t, log[i].t)
  }

  /** log puts the operations of trace in a total order that agrees with real time: every
      returned operation is there with its result, and every other entry was called. */
  ghost predicate Orders(trace: seq<Event>, log: seq<Entry>) {
    && Distinct(log)
    && (forall e {:trigger e in log} :: e in log ==> Call(e.t, e.op) in trace)
    && (forall t, res :: Ret(t, res) in trace ==> exists op :: Entry(t, op, res) in log)
    && RealTime(trace, log)
  }

  /** log is a linearization of trace. */
  ghost predicate Linearization(trace: seq<Event>, log: seq<Entry>) {
    Orders(trace, log) && Legal([], log)
  }

  ghost predicate Linearizable(trace: seq<Event>) {
    exists log :: Linearization(trace, log)
  }

  /** Identifiers are used once, and an operation returns at most once and after its call. */
  ghost predicate WellFormed(trace: seq<Event>) {
    && (forall i, j :: 0 <= i < j < |trace| && trace[i].Call? && trace[j].Call? ==> trace[i].t != trace[j].t)
    && (forall i, j :: 0 <= i < j < |trace| && trace[i].Ret? && trace[j].Ret? ==> trace[i].t != trace[j].t)
    && (forall j {:trigger CalledBefore(trace, trace[j].t, j)} ::
        0 <= j < |trace| && trace[j].Ret? ==> CalledBefore(trace, trace[j].t, j))
  }

  // ----- First in, first out -----

  function Pushed(log: seq<Entry>): seq<Value> {
    if log == [] then [] else (if log[0].op.Push? then [log[0].op.v] else []) + Pushed(log[1..])
  }

  function Popped(log: seq<Entry>): seq<Value> {
    if log == [] then [] else (if log[0].res.Got? then [log[0].res.v] else []) + Popped(log[1..])
  }

  /** Without clears, what was pushed is, in the same order, what was popped and then what
      is still in the queue. */
  lemma {:induction false} PoppedInOrder(q: seq<Value>, log: seq<Entry>)
    requires Legal(q, log) && forall e :: e in log ==> !e.op.Clear?
    ensures q + Pushed(log) == Popped(log) + Replay(q, log)
    decreases |log|
  {
    if log == [] {
      assert q + Pushed(log) == q;
    } else {
      var e, q1 := log[0], Effect(q, log[0].op).0;
      assert e in log;
      PoppedInOrder(q1, log[1..]);
      PopOne(q, e, Pushed(log[1..]), Popped(log[1..]) + Replay(q1, log[1..]));
      assert Popped(log) + Replay(q, log) == (if e.res.Got? then [e.res.v] else []) +
        (Popped(log[1..]) + Replay(q1, log[1..]));
    }
  }

  lemma PopOne(q: seq<Value>, e: Entry, pushed: seq<Value>, rest: seq<Value>)
    requires e.res == Effect(q, e.op).1 && !e.op.Clear? && Effect(q, e.op).0 + pushed == rest
    ensures q + ((if e.op.Push? then [e.op.v] else []) + pushed) == (if e.res.Got? then [e.res.v] else []) + rest
  {}

  lemma {:induction false} FirstPush(log: seq<Entry>, i: nat)
    requires i < |log| && log[i].op.Push? && forall j :: 0 <= j < i ==> !log[j].op.Push?
    ensures Pushed(log) != [] && Pushed(log)[0] == log[i].op.v
  {
    if i > 0 { FirstPush(log[1..], i - 1); }
  }

  lemma {:induction false} PoppedBySome(log: seq<Entry>, v: Value)
    ensures v in Popped(log) <==> exists e :: e in log && e.res == Got(v)
  {
    if log != [] { PoppedBySome(log[1..], v); }
  }

  lemma {:induction false} GotByPop(q: seq<Value>, log: seq<Entry>, e: Entry)
    requires Legal(q, log) && e in log && e.res.Got?
    ensures e.op.Pop?
    decreases |log|
  {
    if e != log[0] { GotByPop(Effect(q, log[0].op).0, log[1..], e); }
  }

  /** When one push was over before any other was called and some element was popped, then
      the element of that push was popped. */
  lemma OldestIsPopped(trace: seq<Event>, log: seq<Entry>, t: OpId, v: Value)
    requires Linearization(trace, log) && Entry(t, Push(v), Ack) in log
    requires forall u, op :: Call(u, op) in trace ==> !op.Clear? && (op.Push? && u != t ==> Precedes(trace, t, u))
    requires exists u, w :: Ret(u, Got(w)) in trace
    ensures exists e :: e in log && e.res == Got(v)
  {
    var i :| 0 <= i < |log| && log[i] == Entry(t, Push(v), Ack);
    forall j | 0 <= j < i ensures !log[j].op.Push? {
      assert log[j] in log;
      assert !Precedes(trace, log[i].t, log[j].t);
    }
    FirstPush(log, i);
    PoppedInOrder([], log);
    var u, w :| Ret(u, Got(w)) in trace;
    var op :| Entry(u, op, Got(w)) in log;
    PoppedBySome(log, w);
    assert Pushed(log) == Popped(log) + Replay([], log);
    PoppedBySome(log, v);
  }

  /** When a pop finds nothing, every element pushed before it was called has been popped. */
  lemma EmptyAfterPush(trace: seq<Event>, log: seq<Entry>, t: OpId, v: Value, u: OpId)
    requires Linearization(trace, log) && Entry(t, Push(v), Ack) in log && Entry(u, Pop, Empty) in log
    requires Precedes(trace, t, u) && forall x, op :: Call(x, op) in trace ==> !op.Clear?
    ensures exists e :: e in log && e.res == Got(v)
  {
    var i :| 0 <= i < |log| && log[i] == Entry(t, Push(v), Ack);
    var j :| 0 <= j < |log| && log[j] == Entry(u, Pop, Empty);
    assert i < j by { assert !(j < i); }
    var before := log[..j];
    assert log == before + log[j..];
    ReplayConcat([], before, log[j..]);
    forall k | 0 <= k < j ensures !before[k].op.Clear? { assert log[k] in log; }
    PoppedInOrder([], before);
    assert before[..i] == log[..i];
    PushRank(before, i);
    PoppedBySome(before, v);
    assert Replay([], before) == [] by { assert log[j..][0] == log[j]; }
    assert Pushed(before) == [] + Pushed(before) == Popped(before);
  }

  lemma {:induction false} PushRank(log: seq<Entry>, i: nat)
    requires i < |log| && log[i].op.Push?
    ensures |Pushed(log[..i])| < |Pushed(log)| && Pushed(log)[|Pushed(log[..i])|] == log[i].op.v
  {
    if i > 0 {
      assert log[..i][1..] == log[1..][..i - 1];
      PushRank(log[1..], i - 1);
    }
  }

  lemma {:induction false} PopRank(log: seq<Entry>, i: nat)
    requires i < |log| && log[i].res.Got?
    ensures |Popped(log[..i])| < |Popped(log)| && Popped(log)[|Popped(log[..i])|] == log[i].res.v
  {
    if i > 0 {
      assert log[..i][1..] == log[1..][..i - 1];
      PopRank(log[1..], i - 1);
    }
  }

  lemma {:induction false} RankOfPush(log: seq<Entry>, a: nat) returns (i: nat)
    requires a < |Pushed(log)|
    ensures i < |log| && log[i].op == Push(Pushed(log)[a]) && |Pushed(log[..i])| == a
    decreases |log|
  {
    var here := if log[0].op.Push? then 1 else 0;
    if a < here {
      i := 0;
    } else {
      var k := RankOfPush(log[1..], a - here);
      i := k + 1;
      assert log[..i][1..] == log[1..][..k];
    }
  }

  lemma {:induction false} RanksGrow(log: seq<Entry>, i: nat, j: nat)
    requires i <= j <= |log|
    ensures |Pushed(log[..i])| <= |Pushed(log[..j])| && |Popped(log[..i])| <= |Popped(log[..j])|
    ensures i < j && log[i].op.Push? ==> |Pushed(log[..i])| < |Pushed(log[..j])|
    decreases |log|
  {
    if i > 0 {
      assert log[..i][1..] == log[1..][..i - 1] && log[..j][1..] == log[1..][..j - 1];
      RanksGrow(log[1..], i - 1, j - 1);
    }
  }

  /** An element that is pushed once has one rank among the pushed and the popped elements. */
  lemma SameRank(log: seq<Entry>, i: nat, k: nat, v: Value)
    requires Legal([], log) && forall e :: e in log ==> !e.op.Clear?
    requires i < |log| && k < |log| && log[i].op == Push(v) && log[k].res == Got(v)
    requires forall j :: 0 <= j < |log| && log[j].op == Push(v) ==> j == i
    ensures |Pushed(log[..i])| == |Popped(log[..k])|
  {
    PoppedInOrder([], log);
    PopRank(log, k);
    var a := |Popped(log[..k])|;
    assert [] + Pushed(log) == Pushed(log);
    assert Pushed(log)[a] == Popped(log)[a];
    var j := RankOfPush(log, a);
  }

  /** t does nothing but push v, and no other operation does that. */
  ghost predicate OnlyPusher(trace: seq<Event>, t: OpId, v: Value) {
    && Returned(trace, t) && (forall op :: Call(t, op) in trace ==> op == Push(v))
    && forall u :: Call(u, Push(v)) in trace <==> u == t
  }

  lemma EntryOfPusher(trace: seq<Event>, log: seq<Entry>, t: OpId, v: Value) returns (i: nat)
    requires Orders(trace, log) && OnlyPusher(trace, t, v)
    ensures i < |log| && log[i].t == t && log[i].op == Push(v)
    ensures forall j :: 0 <= j < |log| && log[j].op == Push(v) ==> j == i
  {
    var res :| Ret(t, res) in trace;
    var op :| Entry(t, op, res) in log;
    i :| 0 <= i < |log| && log[i] == Entry(t, op, res);
    assert Call(t, op) in trace && Call(t, Push(v)) in trace;
    forall j | 0 <= j < |log| && log[j].op == Push(v) ensures j == i {
      assert log[j] in log && Call(log[j].t, Push(v)) in trace;
    }
  }

  /** First in, first out for clients: of two elements of which one was in before the other was
      pushed, the first is not popped by a pop called only after the second was out. */
  lemma ElementsKeepTheirOrder(trace: seq<Event>, p: OpId, v: Value, q: OpId, w: Value, c: OpId, d: OpId)
    requires Linearizable(trace) && forall u, op :: Call(u, op) in trace ==> !op.Clear?
    requires OnlyPusher(trace, p, v) && OnlyPusher(trace, q, w) && Precedes(trace, p, q) && p != q && c != d
    requires Ret(c, Got(v)) in trace && Ret(d, Got(w)) in trace
    ensures !Precedes(trace, d, c)
  {
    var log: seq<Entry> :| Linearization(trace, log);
    var i := EntryOfPusher(trace, log, p, v);
    var j := EntryOfPusher(trace, log, q, w);
    var opc :| Entry(c, opc, Got(v)) in log;
    var opd :| Entry(d, opd, Got(w)) in log;
    var k :| 0 <= k < |log| && log[k] == Entry(c, opc, Got(v));
    var l :| 0 <= l < |log| && log[l] == Entry(d, opd, Got(w));
    SameRank(log, i, k, v);
    SameRank(log, j, l, w);
    assert i <= j by { assert log[j].t == q && log[i].t == p; }
    RanksGrow(log, i, j);
    if l <= k { RanksGrow(log, l, k); }
    assert k < l && !Precedes(trace, log[l].t, log[k].t);
  }

  // ----- What clients see when an order is broken -----

  /** Push p of v was over before pop u was called, which found nothing, and no pop has got or
      will get v. */
  ghost predicate Missed(seen: seq<Event>, p: OpId, v: Value, u: OpId) {
    && Precedes(seen, p, u) && Ret(p, Ack) in seen && Ret(u, Empty) in seen
    && forall t, op :: Call(t, op) in seen ==>
      !op.Clear? && (t == p ==> op == Push(v)) && (t == u ==> op == Pop) &&
      (op.Pop? ==> exists res :: res != Got(v) && Ret(t, res) in seen)
  }

  lemma MissedIsNoOrder(trace: seq<Event>, log: seq<Entry>, p: OpId, v: Value, u: OpId)
    requires Missed(trace, p, v, u)
    ensures !Linearization(trace, log)
  {
    if Linearization(trace, log) {
      var op1 :| Entry(p, op1, Ack) in log;
      var op2 :| Entry(u, op2, Empty) in log;
      assert Call(p, op1) in trace && Call(u, op2) in trace;
      EmptyAfterPush(trace, log, p, v, u);
      var e :| e in log && e.res == Got(v);
      assert Call(e.t, e.op) in trace;
      GotByPop([], log, e);
    }
  }

  /** Push p of v was over before push q of w was called, and pop d of w before pop c of v. */
  ghost predicate Swapped(seen: seq<Event>, p: OpId, v: Value, q: OpId, w: Value, c: OpId, d: OpId) {
    && Precedes(seen, p, q) && Precedes(seen, d, c) && p != q && c != d
    && Ret(p, Ack) in seen && Ret(q, Ack) in seen && Ret(c, Got(v)) in seen && Ret(d, Got(w)) in seen
    && Call(p, Push(v)) in seen && Call(q, Push(w)) in seen
    && forall t, op :: Call(t, op) in seen ==>
      !op.Clear? && (op == Push(v) <==> t == p) && (op == Push(w) <==> t == q)
  }

  lemma SwappedIsNoOrder(trace: seq<Event>, p: OpId, v: Value, q: OpId, w: Value, c: OpId, d: OpId)
    requires Swapped(trace, p, v, q, w, c, d)
    ensures !Linearizable(trace)
  {
    assert Returned(trace, p) && Returned(trace, q);
    if Linearizable(trace) { ElementsKeepTheirOrder(trace, p, v, q, w, c, d); }
  }

  // ----- What clients see of a trace -----

  function Visible(trace: seq<Event>): seq<Event>
    decreases |trace|
  {
    if trace == [] then []
    else
      var x := trace[|trace| - 1];
      Visible(trace[..|trace| - 1]) + (if x.Tau? then [] else [x])
  }

  lemma VisibleSnoc(trace: seq<Event>, x: Event)
    ensures Visible(trace + [x]) == Visible(trace) + (if x.Tau? then [] else [x])
  {}

  lemma {:induction false} SeesAll(trace: seq<Event>)
    ensures forall e :: e in Visible(trace) <==> e in trace && !e.Tau?
    ensures forall a, b :: Precedes(Visible(trace), a, b) ==> Precedes(trace, a, b)
    decreases |trace|
  {
    if trace != [] {
      var before, x := trace[..|trace| - 1], trace[|trace| - 1];
      assert trace == before + [x];
      SeesAll(before);
      Extend(before, x);
      Extend(Visible(before), x);
      forall a, b | Precedes(Visible(trace), a, b) ensures Precedes(trace, a, b) {
        if Precedes(Visible(before), a, b) {
          PrecedesStays(before, x, a, b);
        } else {
          var r, c :| 0 <= r < c < |Visible(trace)| && Visible(trace)[r].Ret? && Visible(trace)[r].t == a &&
            Visible(trace)[c].Call? && Visible(trace)[c].t == b;
          assert c == |Visible(before)| && Visible(before)[r] in before;
          var i :| 0 <= i < |before| && before[i] == Visible(before)[r];
          assert trace[i].Ret? && trace[|before|].Call?;
        }
      }
    }
  }

  lemma PrecedesStays(trace: seq<Event>, x: Event, a: OpId, b: OpId)
    requires Precedes(trace, a, b)
    ensures Precedes(trace + [x], a, b)
  {
    var r, c :| 0 <= r < c < |trace| && trace[r].Ret? && trace[r].t == a && trace[c].Call? && trace[c].t == b;
    assert (trace + [x])[r] == trace[r] && (trace + [x])[c] == trace[c];
  }

  /** A trace shows clients that an order is broken. */
  lemma SeenToMiss(trace: seq<Event>, p: OpId, v: Value, u: OpId)
    requires Missed(Visible(trace), p, v, u)
    ensures !Linearizable(trace)
  {
    SeesAll(trace);
    assert Missed(trace, p, v, u);
    forall log ensures !Linearization(trace, log) { MissedIsNoOrder(trace, log, p, v, u); }
  }

  lemma SeenToSwap(trace: seq<Event>, p: OpId, v: Value, q: OpId, w: Value, c: OpId, d: OpId)
    requires Swapped(Visible(trace), p, v, q, w, c, d)
    ensures !Linearizable(trace)
  {
    SeesAll(trace);
    SwappedIsNoOrder(trace, p, v, q, w, c, d);
  }

  // ----- Building a linearization step by step -----

  /** t has been called with op and has not taken effect. */
  ghost predicate Open(trace: seq<Event>, log: seq<Entry>, t: OpId, op: Op) {
    Call(t, op) in trace && !Returned(trace, t) && !InLog(log, t)
  }

  /** t has taken effect with result res and has not returned. */
  ghost predicate Closed(trace: seq<Event>, log: seq<Entry>, t: OpId, res: Res) {
    Called(trace, t) && !Returned(trace, t) && exists op :: Entry(t, op, res) in log
  }

  /** What one more event adds to a trace. */
  lemma Extend(trace: seq<Event>, x: Event)
    ensures forall e :: e in trace + [x] <==> e in trace || e == x
    ensures forall t :: Called(trace + [x], t) <==> Called(trace, t) || (x.Call? && x.t == t)
    ensures forall t :: Returned(trace + [x], t) <==> Returned(trace, t) || (x.Ret? && x.t == t)
    ensures forall a, b :: !(x.Call? && x.t == b) ==> (Precedes(trace + [x], a, b) <==> Precedes(trace, a, b))
  {
    var trace' := trace + [x];
    forall t ensures Called(trace', t) <==> Called(trace, t) || (x.Call? && x.t == t) {
      if Called(trace, t) { var op :| Call(t, op) in trace; assert Call(t, op) in trace'; }
      if x.Call? && x.t == t { assert Call(t, x.op) in trace'; }
    }
    forall t ensures Returned(trace', t) <==> Returned(trace, t) || (x.Ret? && x.t == t) {
      if Returned(trace, t) { var res :| Ret(t, res) in trace; assert Ret(t, res) in trace'; }
      if x.Ret? && x.t == t { assert Ret(t, x.res) in trace'; }
    }
    forall a, b | !(x.Call? && x.t == b) ensures Precedes(trace', a, b) <==> Precedes(trace, a, b) {
      if Precedes(trace, a, b) {
        var r, c :| 0 <= r < c < |trace| && trace[r].Ret? && trace[r].t == a && trace[c].Call? && trace[c].t == b;
        assert trace'[r].Ret? && trace'[c].Call?;
      }
    }
  }

  lemma WellFormedExtend(trace: seq<Event>, x: Event)
    requires WellFormed(trace)
    requires x.Call? ==> !Called(trace, x.t)
    requires x.Ret? ==> Called(trace, x.t) && !Returned(trace, x.t)
    ensures WellFormed(trace + [x])
  {
    var trace' := trace + [x];
    forall j | 0 <= j < |trace'| && trace'[j].Ret? ensures CalledBefore(trace', trace'[j].t, j) {
      if j < |trace| {
        assert CalledBefore(trace, trace[j].t, j);
        var i :| 0 <= i < j && trace[i].Call? && trace[i].t == trace[j].t;
        assert trace'[i] == trace[i];
      } else {
        var op :| Call(x.t, op) in trace;
        var i :| 0 <= i < |trace| && trace[i] == Call(x.t, op);
        assert trace'[i] == trace[i];
      }
    }
    forall i | 0 <= i < |trace| && trace[i].Call? ensures Called(trace, trace[i].t) {
      assert Call(trace[i].t, trace[i].op) in trace;
    }
    forall i | 0 <= i < |trace| && trace[i].Ret? ensures Returned(trace, trace[i].t) {
      assert Ret(trace[i].t, trace[i].res) in trace;
    }
  }

  lemma InsertMembers(log: seq<Entry>, p: nat, e: Entry)
    requires p <= |log|
    ensures var log' := log[..p] + [e] + log[p..];
      && (forall t :: InLog(log', t) <==> InLog(log, t) || t == e.t)
      && (forall x :: x in log' <==> x in log || x == e)
  {
    var log' := log[..p] + [e] + log[p..];
    forall t ensures InLog(log', t) <==> InLog(log, t) || t == e.t {
      if InLog(log, t) {
        var i :| 0 <= i < |log| && log[i].t == t;
        assert log'[if i < p then i else i + 1] == log[i];
      }
      if InLog(log', t) {
        var i :| 0 <= i < |log'| && log'[i].t == t;
        assert i == p || log'[i] == log[if i < p then i else i - 1];
      }
      assert log'[p] == e;
    }
    forall x ensures x in log' <==> x in log || x == e {
      assert log == log[..p] + log[p..];
    }
  }

  lemma InsertOrder(trace: seq<Event>, log: seq<Entry>, p: nat, e: Entry)
    requires Distinct(log) && RealTime(trace, log) && p <= |log|
    requires !Returned(trace, e.t) && !InLog(log, e.t)
    requires forall i :: p <= i < |log| ==> !Precedes(trace, log[i].t, e.t)
    ensures Distinct(log[..p] + [e] + log[p..]) && RealTime(trace, log[..p] + [e] + log[p..])
  {}

  /** An operation that has been called takes effect, at position p of the log. */
  lemma InsertStep(trace: seq<Event>, log: seq<Entry>, p: nat, e: Entry)
    requires Orders(trace, log) && p <= |log|
    requires Open(trace, log, e.t, e.op)
    requires forall i :: p <= i < |log| ==> !Precedes(trace, log[i].t, e.t)
    ensures var log' := log[..p] + [e] + log[p..];
      && Orders(trace, log') && Closed(trace, log', e.t, e.res)
      && (forall t :: InLog(log', t) <==> InLog(log, t) || t == e.t)
      && (forall x :: x in log' <==> x in log || x == e)
  {
    var log' := log[..p] + [e] + log[p..];
    InsertMembers(log, p, e);
    InsertOrder(trace, log, p, e);
    assert Entry(e.t, e.op, e.res) in log';
    forall t, res | Ret(t, res) in trace ensures exists op :: Entry(t, op, res) in log' {
      var op :| Entry(t, op, res) in log;
      assert Entry(t, op, res) in log';
    }
    assert Called(trace, e.t);
  }

  // ----- Following every operation through its phases -----

  datatype Phase = Fresh | Pending(op: Op) | Effected(res: Res) | Over

  type Phases = map<OpId, Phase>

  function PhaseIn(m: Phases, t: OpId): Phase {
    if t in m then m[t] else Fresh
  }

  ghost predicate Tracks(trace: seq<Event>, log: seq<Entry>, t: OpId, phase: Phase) {
    match phase
    case Fresh => !Called(trace, t) && !Returned(trace, t) && !InLog(log, t)
    case Pending(op) => Open(trace, log, t, op)
    case Effected(res) => Closed(trace, log, t, res)
    case Over => Called(trace, t)
  }

  /** Guards a definition: the verifier looks inside only where a proof mentions Inside. */
  predicate Inside(k: nat) { true }

  /** log orders the operations of trace, and every operation is in the phase m says. */
  ghost predicate Track(trace: seq<Event>, log: seq<Entry>, m: Phases) {
    forall k {:trigger Inside(k)} :: Inside(k) ==> Tracked(trace, log, m)
  }

  ghost predicate Tracked(trace: seq<Event>, log: seq<Entry>, m: Phases) {
    && WellFormed(trace)
    && Orders(trace, log)
    && forall t :: Tracks(trace, log, t, PhaseIn(m, t))
  }

  lemma TrackOrders(trace: seq<Event>, log: seq<Entry>, m: Phases)
    requires Track(trace, log, m)
    ensures WellFormed(trace) && Orders(trace, log)
  {
    assert Inside(0);
  }

  lemma TrackInit()
    ensures Track([], [], map[])
  {}

  lemma TrackTau(trace: seq<Event>, log: seq<Entry>, m: Phases)
    requires Track(trace, log, m)
    ensures Track(trace + [Tau], log, m)
  {
    assert Inside(0);
    Extend(trace, Tau);
    WellFormedExtend(trace, Tau);
    forall t ensures Tracks(trace + [Tau], log, t, PhaseIn(m, t)) {
      assert Tracks(trace, log, t, PhaseIn(m, t));
    }
  }

  lemma TrackCall(trace: seq<Event>, log: seq<Entry>, m: Phases, m': Phases, t: OpId, op: Op)
    requires Track(trace, log, m) && t !in m && m' == m[t := Pending(op)]
    ensures Track(trace + [Call(t, op)], log, m')
  {
    assert Inside(0);
    assert Tracks(trace, log, t, PhaseIn(m, t));
    Extend(trace, Call(t, op));
    WellFormedExtend(trace, Call(t, op));
    forall u ensures Tracks(trace + [Call(t, op)], log, u, PhaseIn(m', u)) {
      assert Tracks(trace, log, u, PhaseIn(m, u));
    }
  }

  lemma TrackRet(trace: seq<Event>, log: seq<Entry>, m: Phases, m': Phases, t: OpId, res: Res)
    requires Track(trace, log, m) && t in m && m[t] == Effected(res) && m' == m[t := Over]
    ensures Track(trace + [Ret(t, res)], log, m')
  {
    assert Inside(0);
    assert Tracks(trace, log, t, PhaseIn(m, t));
    Extend(trace, Ret(t, res));
    WellFormedExtend(trace, Ret(t, res));
    forall u ensures Tracks(trace + [Ret(t, res)], log, u, PhaseIn(m', u)) {
      assert Tracks(trace, log, u, PhaseIn(m, u));
    }
  }

  /** An internal step at which operation e.t takes effect, at position p of the log. */
  lemma TrackInsert(trace: seq<Event>, log: seq<Entry>, log': seq<Entry>, m: Phases, m': Phases, p: nat, e: Entry)
    requires Track(trace, log, m) && e.t in m && m[e.t] == Pending(e.op) && m' == m[e.t := Effected(e.res)]
    requires p <= |log| && log' == log[..p] + [e] + log[p..]
    requires forall i :: p <= i < |log| ==> !Precedes(trace, log[i].t, e.t)
    ensures Track(trace, log', m')
  {
    assert Inside(0);
    assert Tracks(trace, log, e.t, PhaseIn(m, e.t));
    InsertStep(trace, log, p, e);
    forall u ensures Tracks(trace, log', u, PhaseIn(m', u)) {
      assert Tracks(trace, log, u, PhaseIn(m, u));
    }
  }

  lemma TrackAppend(trace: seq<Event>, log: seq<Entry>, m: Phases, m': Phases, e: Entry)
    requires Track(trace, log, m) && e.t in m && m[e.t] == Pending(e.op) && m' == m[e.t := Effected(e.res)]
    ensures Track(trace, log + [e], m')
  {
    TrackInsert(trace, log, log + [e], m, m', |log|, e);
  }

  /** A call, a return or an internal step moves t on to phase; nothing takes effect. */
  lemma TrackEvent(trace: seq<Event>, x: Event, log: seq<Entry>, m: Phases, m': Phases, t: OpId, phase: Phase)
    requires Track(trace, log, m) && m' == m[t := phase]
    requires match x
      case Call(u, op) => u == t && t !in m && phase == Pending(op)
      case Ret(u, res) => u == t && t in m && m[t] == Effected(res) && phase == Over
      case Tau => t in m && phase == m[t]
    ensures Track(trace + [x], log, m')
  {
    match x
    case Call(_, op) => TrackCall(trace, log, m, m', t, op);
    case Ret(_, res) => TrackRet(trace, log, m, m', t, res);
    case Tau =>
      assert m' == m;
      TrackTau(trace, log, m);
  }

  /** An internal step at which operation e.t takes effect, at the end of the log. */
  lemma TrackEffect(trace: seq<Event>, log: seq<Entry>, m: Phases, m': Phases, e: Entry)
    requires Track(trace, log, m) && e.t in m && m[e.t] == Pending(e.op) && m' == m[e.t := Effected(e.res)]
    ensures Track(trace + [Tau], log + [e], m')
  {
    TrackAppend(trace, log, m, m', e);
    TrackTau(trace, log + [e], m');
  }

  // ----- What an operation that goes on alone answers -----

  /** Steps that clients do not see. */
  function Silence(n: nat): seq<Event> { seq(n, _ => Tau) }

  /** res is the answer of t by a log of the operations so far: what the log says if t is in it, and
      otherwise what the sequential queue answers behind the first cut entries, when none of the
      others was over before t was called. */
  ghost predicate Answers(trace: seq<Event>, log: seq<Entry>, cut: nat, t: OpId, res: Res) {
    exists op :: Call(t, op) in trace &&
      (if InLog(log, t) then Entry(t, op, res) in log
       else
         cut <= |log| && res == Effect(Replay([], log[..cut]), op).1 &&
         forall i :: cut <= i < |log| ==> !Precedes(trace, log[i].t, t))
  }

  lemma SilentStep(trace: seq<Event>, n: nat, x: Event)
    ensures trace + [Tau] + Silence(n) + [x] == trace + Silence(n + 1) + [x]
  {
    assert [Tau] + Silence(n) == Silence(n + 1);
  }

  lemma PhaseHolds(trace: seq<Event>, log: seq<Entry>, m: Phases, t: OpId)
    requires Track(trace, log, m) && t in m
    ensures match m[t]
      case Pending(op) => Open(trace, log, t, op)
      case Effected(res) => Closed(trace, log, t, res)
      case _ => true
  {
    assert Inside(0);
    assert Tracks(trace, log, t, PhaseIn(m, t));
  }

  lemma EffectedAnswers(trace: seq<Event>, log: seq<Entry>, t: OpId, res: Res)
    requires Closed(trace, log, t, res) && Orders(trace, log)
    ensures Answers(trace, log, |log|, t, res)
  {
    var op :| Entry(t, op, res) in log;
    var i :| 0 <= i < |log| && log[i] == Entry(t, op, res);
    assert InLog(log, t) && Call(t, op) in trace;
  }

  /** A call adds nothing to be explained. */
  lemma OrdersBeforeCall(trace: seq<Event>, log: seq<Entry>, t: OpId, op: Op)
    requires Orders(trace + [Call(t, op)], log) && !InLog(log, t)
    ensures Orders(trace, log)
  {
    var trace' := trace + [Call(t, op)];
    Extend(trace, Call(t, op));
    forall e {:trigger e in log} | e in log ensures Call(e.t, e.op) in trace {
      var i :| 0 <= i < |log| && log[i] == e;
      assert Call(e.t, e.op) in trace' && e.t != t;
    }
    forall i, j | 0 <= i < j < |log| ensures !Precedes(trace, log[j].t, log[i].t) {
      assert !Precedes(trace', log[j].t, log[i].t) && log[i].t != t;
    }
  }
}
