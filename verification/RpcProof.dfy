/** Every callback gets the reply to its own call, once, and in the order of the calls. */
module RpcProof {
  import opened Rpc

  datatype Stage = Calling | Asked | Serving | Answered | Finished | Refused

  /** The history of a call made at end e.  called, sent, handled and delivered are positions
      in the trace, req and rep positions among all messages ever pushed to the end where
      the request and the reply arrive. */
  datatype Rec = Rec(
    e: End, name: string, value: Object, callback: Callback, stage: Stage,
    called: nat, sent: nat, handled: nat, delivered: nat, req: nat, rep: nat, ret: string)

  datatype History = History(recs: map<string, Rec>, inbox: map<End, seq<Object>>)

  function InboxOf(h: History, e: End): seq<Object> {
    if e in h.inbox then h.inbox[e] else []
  }

  /** How many messages have been popped at e. */
  function PoppedAt(s: State, h: History, e: End): int {
    |InboxOf(h, e)| - |QueueOf(s, e)|
  }

  function CommandOf(r: Rec, suuid: string): Object {
    Request(r.value, r.name, suuid)
  }

  predicate HasAsked(r: Rec) { r.stage != Calling }

  predicate HasHandled(r: Rec) { r.stage.Serving? || r.stage.Answered? || r.stage.Finished? }

  predicate HasAnswered(r: Rec) { r.stage.Answered? || r.stage.Finished? }

  // ----- The invariant -----

  datatype Part = TheQueues | TheCalls | TheCall | TheMessages | TheOrder | TheTrace

  /** The verifier looks inside a part of the invariant only where a proof mentions Look. */
  predicate Look(part: Part) { true }

  predicate IsTail(q: seq<Object>, all: seq<Object>) {
    |q| <= |all| && forall i {:trigger q[i]} :: 0 <= i < |q| ==> q[i] == all[|all| - |q| + i]
  }

  /** What can be popped at an end is the last of what was ever pushed to it. */
  ghost predicate Queued(s: State, h: History) {
    forall e {:trigger QueueOf(s, e)} :: IsTail(QueueOf(s, e), InboxOf(h, e))
  }

  ghost predicate Queues(s: State, h: History) {
    forall part {:trigger Look(part)} :: Look(part) && part == TheQueues ==> Queued(s, h)
  }

  /** The token of a call: where it is at each stage, and nowhere else. */
  predicate Tracked(s: State, trace: seq<Event>, h: History, suuid: string, r: Rec) {
    var cmd := CommandOf(r, suuid);
    && r.e in s.owner
    && suuid in CallbacksOf(s, s.owner[r.e]) && CallbacksOf(s, s.owner[r.e])[suuid] == r.callback
    && r.called < |trace| && trace[r.called] == Called(r.e, suuid, r.name, r.value, r.callback)
    && (r.stage.Calling? ==> suuid in s.sending && s.sending[suuid] == Outgoing(r.e, cmd))
    && (HasAsked(r) ==>
          && r.called < r.sent < |trace| && trace[r.sent] == Sent(r.e, suuid)
          && r.req < |InboxOf(h, Other(r.e))| && InboxOf(h, Other(r.e))[r.req] == cmd
          && (r.stage.Asked? <==> r.req >= PoppedAt(s, h, Other(r.e))))
    && (HasHandled(r) ==> r.sent < r.handled < |trace| && trace[r.handled] == Handled(Other(r.e), cmd, r.ret))
    && (r.stage.Serving? ==>
          Other(r.e) in s.owner && BusyOf(s, s.owner[Other(r.e)]) == Replying(Other(r.e), Reply(cmd, r.ret)))
    && (HasAnswered(r) ==>
          && r.rep < |InboxOf(h, r.e)| && InboxOf(h, r.e)[r.rep] == Reply(cmd, r.ret)
          && (r.stage.Answered? <==> r.rep >= PoppedAt(s, h, r.e)))
    && (r.stage.Refused? ==> r.handled < |trace| && trace[r.handled] == Ignored(Other(r.e), cmd))
    && (r.stage.Finished? ==>
          && r.handled < r.delivered < |trace|
          && trace[r.delivered] == Delivered(r.e, suuid, r.callback, Reply(cmd, r.ret)))
  }

  ghost predicate Call(s: State, trace: seq<Event>, h: History, suuid: string, r: Rec) {
    forall part {:trigger Look(part)} :: Look(part) && part == TheCall ==> Tracked(s, trace, h, suuid, r)
  }

  ghost predicate AllTracked(s: State, trace: seq<Event>, h: History) {
    forall suuid {:trigger Call(s, trace, h, suuid, h.recs[suuid])} ::
        suuid in h.recs ==> Call(s, trace, h, suuid, h.recs[suuid])
  }

  ghost predicate Registered(s: State, h: History) {
    forall n, suuid :: suuid in CallbacksOf(s, n) ==> suuid in h.recs
  }

  ghost predicate Calls(s: State, trace: seq<Event>, h: History) {
    forall part {:trigger Look(part)} ::
        Look(part) && part == TheCalls ==> AllTracked(s, trace, h) && h.recs.Keys == s.used && Registered(s, h)
  }

  /** Message k that was ever pushed to e belongs to a call. */
  predicate Belongs(h: History, e: End, k: nat, o: Object) {
    var suuid := Field(o, "suuid");
    suuid in h.recs &&
    var r := h.recs[suuid];
    if Field(o, "rpcevent") == CALL then r.e == Other(e) && HasAsked(r) && r.req == k
    else Field(o, "rpcevent") == REPLY && r.e == e && HasAnswered(r) && r.rep == k
  }

  predicate BusyBelongs(s: State, h: History, n: Service) {
    var b := BusyOf(s, n);
    b.Replying? &&
    var suuid := Field(b.reply, "suuid");
    suuid in h.recs && h.recs[suuid].stage.Serving? && h.recs[suuid].e == Other(b.e) && b.e in s.owner &&
      s.owner[b.e] == n
  }

  ghost predicate AllBelong(s: State, h: History) {
    && (forall e, k {:trigger Belongs(h, e, k, InboxOf(h, e)[k])} ::
        0 <= k < |InboxOf(h, e)| ==> Belongs(h, e, k, InboxOf(h, e)[k]))
    && (forall suuid :: suuid in s.sending ==> suuid in h.recs && h.recs[suuid].stage.Calling?)
    && (forall n {:trigger BusyOf(s, n)} :: BusyOf(s, n).Replying? ==> BusyBelongs(s, h, n))
  }

  ghost predicate Messages(s: State, h: History) {
    forall part {:trigger Look(part)} :: Look(part) && part == TheMessages ==> AllBelong(s, h)
  }

  /** The first of two calls at one end is never behind the second. */
  predicate Ahead(r1: Rec, r2: Rec) {
    r1.e == r2.e && HasAsked(r1) && HasAsked(r2) && r1.req < r2.req ==>
      && r1.sent < r2.sent
      && (HasHandled(r2) ==> HasAnswered(r1) || r1.stage.Refused?)
      && (HasAnswered(r1) && HasAnswered(r2) ==> r1.rep < r2.rep)
      && (HasAnswered(r1) && r2.stage.Finished? ==> r1.stage.Finished? && r1.delivered < r2.delivered)
  }

  ghost predicate AllAhead(h: History) {
    forall a, b {:trigger Ahead(h.recs[a], h.recs[b])} :: a in h.recs && b in h.recs ==> Ahead(h.recs[a], h.recs[b])
  }

  ghost predicate Order(h: History) {
    forall part {:trigger Look(part)} :: Look(part) && part == TheOrder ==> AllAhead(h)
  }

  /** Every event is the one event of its kind of some call. */
  predicate Accounted(h: History, i: nat, x: Event) {
    match x
    case Called(e, suuid, _, _, _) => suuid in h.recs && h.recs[suuid].called == i
    case Sent(e, suuid) => suuid in h.recs && HasAsked(h.recs[suuid]) && h.recs[suuid].sent == i
    case Handled(e, cmd, _) =>
      var suuid := Field(cmd, "suuid");
      suuid in h.recs && HasHandled(h.recs[suuid]) && h.recs[suuid].handled == i
    case Delivered(e, suuid, _, _) => suuid in h.recs && h.recs[suuid].stage.Finished? && h.recs[suuid].delivered == i
    case Ignored(e, cmd) =>
      var suuid := Field(cmd, "suuid");
      Field(cmd, "rpcevent") == CALL && suuid in h.recs && h.recs[suuid].stage.Refused? && h.recs[suuid].handled == i
  }

  ghost predicate AllAccounted(h: History, trace: seq<Event>) {
    forall i {:trigger Accounted(h, i, trace[i])} :: 0 <= i < |trace| ==> Accounted(h, i, trace[i])
  }

  ghost predicate Story(h: History, trace: seq<Event>) {
    forall part {:trigger Look(part)} :: Look(part) && part == TheTrace ==> AllAccounted(h, trace)
  }

  ghost predicate Inv(s: State, trace: seq<Event>, h: History) {
    Queues(s, h) && Calls(s, trace, h) && Messages(s, h) && Order(h) && Story(h, trace)
  }

  /** The same, not taken apart at every use. */
  ghost predicate Holds(s: State, trace: seq<Event>, h: History) {
    exists h' :: h' == h && Inv(s, trace, h')
  }

  ghost predicate Explained(s: State, trace: seq<Event>) {
    exists h :: Inv(s, trace, h)
  }

  // ----- How the parts of the invariant change when one call moves on -----

  /** What a call has gone through stays as it was. */
  predicate Progress(r: Rec, r': Rec) {
    && r'.e == r.e && r'.name == r.name && r'.value == r.value && r'.callback == r.callback && r'.called == r.called
    && (HasAsked(r) ==> HasAsked(r') && r'.sent == r.sent && r'.req == r.req)
    && (HasHandled(r) ==> HasHandled(r') && r'.handled == r.handled && r'.ret == r.ret)
    && (HasAnswered(r) ==> HasAnswered(r') && r'.rep == r.rep)
    && (r.stage.Finished? ==> r' == r)
    && (r.stage.Refused? ==> r' == r)
  }

  ghost predicate Advances(h: History, h': History, suuid: string, r': Rec) {
    && h'.recs == h.recs[suuid := r']
    && (suuid in h.recs ==> Progress(h.recs[suuid], r'))
    && (forall e {:trigger InboxOf(h', e)} :: InboxOf(h, e) <= InboxOf(h', e))
  }

  lemma StoryGoesOn(h: History, h': History, trace: seq<Event>, suuid: string, r': Rec, xs: seq<Event>)
    requires Story(h, trace) && Advances(h, h', suuid, r')
    requires forall i :: 0 <= i < |xs| ==> Accounted(h', |trace| + i, xs[i])
    ensures Story(h', trace + xs)
  {
    assert Look(TheTrace);
    forall i | 0 <= i < |trace + xs| ensures Accounted(h', i, (trace + xs)[i]) {
      if i < |trace| { assert Accounted(h, i, trace[i]); }
    }
  }

  lemma OrderGoesOn(h: History, h': History, suuid: string, r': Rec)
    requires Order(h) && h'.recs == h.recs[suuid := r']
    requires forall a :: a in h.recs && a != suuid ==> Ahead(h.recs[a], r') && Ahead(r', h.recs[a])
    ensures Order(h')
  {
    assert Look(TheOrder);
    forall a, b | a in h'.recs && b in h'.recs ensures Ahead(h'.recs[a], h'.recs[b]) {
      if a != suuid && b != suuid { assert Ahead(h.recs[a], h.recs[b]); }
    }
  }

  /** The messages that were there before still belong to their calls. */
  lemma BelongStays(h: History, h': History, suuid: string, r': Rec, e: End, k: nat)
    requires Advances(h, h', suuid, r') && k < |InboxOf(h, e)| && Belongs(h, e, k, InboxOf(h, e)[k])
    ensures k < |InboxOf(h', e)| && Belongs(h', e, k, InboxOf(h', e)[k])
  {
    assert InboxOf(h, e) <= InboxOf(h', e);
  }

  lemma MessageBelongs(s: State, h: History, e: End, k: nat)
    requires Messages(s, h) && k < |InboxOf(h, e)|
    ensures Belongs(h, e, k, InboxOf(h, e)[k])
  {
    assert Look(TheMessages);
  }

  /** No message is pushed. */
  lemma MessagesQuiet(s: State, s': State, h: History, h': History, suuid: string, r': Rec)
    requires Messages(s, h) && Advances(h, h', suuid, r') && h'.inbox == h.inbox
    requires forall a :: a in s'.sending ==> a in h'.recs && h'.recs[a].stage.Calling?
    requires forall n {:trigger BusyOf(s', n)} :: BusyOf(s', n).Replying? ==> BusyBelongs(s', h', n)
    ensures Messages(s', h')
  {
    forall e, k | 0 <= k < |InboxOf(h', e)| ensures Belongs(h', e, k, InboxOf(h', e)[k]) {
      MessageBelongs(s, h, e, k);
      BelongStays(h, h', suuid, r', e, k);
    }
  }

  /** One message is pushed to end e. */
  lemma MessagesPush(s: State, s': State, h: History, h': History, suuid: string, r': Rec, e: End, o: Object)
    requires Messages(s, h) && Advances(h, h', suuid, r') && h'.inbox == h.inbox[e := InboxOf(h, e) + [o]]
    requires Belongs(h', e, |InboxOf(h, e)|, o)
    requires forall a :: a in s'.sending ==> a in h'.recs && h'.recs[a].stage.Calling?
    requires forall n {:trigger BusyOf(s', n)} :: BusyOf(s', n).Replying? ==> BusyBelongs(s', h', n)
    ensures Messages(s', h')
  {
    forall d, k | 0 <= k < |InboxOf(h', d)| ensures Belongs(h', d, k, InboxOf(h', d)[k]) {
      if k < |InboxOf(h, d)| {
        MessageBelongs(s, h, d, k);
        BelongStays(h, h', suuid, r', d, k);
      }
    }
  }

  lemma TailSnoc(q: seq<Object>, all: seq<Object>, o: Object)
    requires IsTail(q, all)
    ensures IsTail(q + [o], all + [o])
  {}

  lemma TailRest(q: seq<Object>, all: seq<Object>)
    requires IsTail(q, all) && q != []
    ensures IsTail(q[1..], all) && q[0] == all[|all| - |q|]
  {}

  lemma QueuesPush(s: State, s': State, h: History, h': History, e: End, o: Object)
    requires Queues(s, h) && s'.queues == s.queues[e := QueueOf(s, e) + [o]]
    requires h'.inbox == h.inbox[e := InboxOf(h, e) + [o]]
    ensures Queues(s', h') && forall d {:trigger PoppedAt(s', h', d)} :: PoppedAt(s', h', d) == PoppedAt(s, h, d) >= 0
  {
    assert Look(TheQueues);
    forall d ensures IsTail(QueueOf(s', d), InboxOf(h', d)) && PoppedAt(s', h', d) == PoppedAt(s, h, d) >= 0 {
      assert IsTail(QueueOf(s, d), InboxOf(h, d));
      if d == e { TailSnoc(QueueOf(s, e), InboxOf(h, e), o); }
    }
  }

  lemma QueuesPop(s: State, s': State, h: History, h': History, e: End)
    requires Queues(s, h) && QueueOf(s, e) != [] && s'.queues == s.queues[e := QueueOf(s, e)[1..]]
    requires h'.inbox == h.inbox
    ensures Queues(s', h') && 0 <= PoppedAt(s, h, e) < |InboxOf(h, e)|
    ensures QueueOf(s, e)[0] == InboxOf(h, e)[PoppedAt(s, h, e)]
    ensures forall d {:trigger PoppedAt(s', h', d)} ::
      PoppedAt(s', h', d) == PoppedAt(s, h, d) + (if d == e then 1 else 0)
  {
    assert Look(TheQueues);
    TailRest(QueueOf(s, e), InboxOf(h, e));
    forall d ensures IsTail(QueueOf(s', d), InboxOf(h', d)) {
      assert IsTail(QueueOf(s, d), InboxOf(h, d));
    }
  }

  lemma QueuesSame(s: State, s': State, h: History, h': History)
    requires Queues(s, h) && s'.queues == s.queues && h'.inbox == h.inbox
    ensures Queues(s', h') && forall d {:trigger PoppedAt(s', h', d)} :: PoppedAt(s', h', d) == PoppedAt(s, h, d)
  {
    assert Look(TheQueues);
    forall d ensures IsTail(QueueOf(s', d), InboxOf(h', d)) {
      assert IsTail(QueueOf(s, d), InboxOf(h, d));
    }
  }

  lemma CallHolds(s: State, trace: seq<Event>, h: History, suuid: string)
    requires Calls(s, trace, h) && suuid in h.recs
    ensures Call(s, trace, h, suuid, h.recs[suuid])
  {
    assert Look(TheCalls);
  }

  lemma CallIsTracked(s: State, trace: seq<Event>, h: History, suuid: string)
    requires Calls(s, trace, h) && suuid in h.recs
    ensures Tracked(s, trace, h, suuid, h.recs[suuid])
  {
    CallHolds(s, trace, h, suuid);
    assert Look(TheCall);
  }

  lemma CallsGoOn(s: State, s': State, trace: seq<Event>, trace': seq<Event>, h: History, h': History, suuid: string,
                  r': Rec)
    requires Calls(s, trace, h) && h'.recs == h.recs[suuid := r'] && s'.used == s.used + {suuid}
    requires Call(s', trace', h', suuid, r')
    requires forall a :: a in h.recs && a != suuid ==> Call(s', trace', h', a, h.recs[a])
    requires forall n, a :: a in CallbacksOf(s', n) ==> a in CallbacksOf(s, n) || a == suuid
    ensures Calls(s', trace', h')
  {
    assert Look(TheCalls);
  }

  lemma RecsAreUsed(s: State, trace: seq<Event>, h: History)
    requires Calls(s, trace, h)
    ensures h.recs.Keys == s.used && Registered(s, h)
  {
    assert Look(TheCalls);
  }

  /** A call that does not move when another is registered or a message is pushed. */
  lemma CallStays(s: State, s': State, trace: seq<Event>, xs: seq<Event>, h: History, h': History, suuid: string,
                  r: Rec)
    requires Call(s, trace, h, suuid, r) && s'.owner == s.owner
    requires forall n ::
      suuid in CallbacksOf(s, n) ==>
        suuid in CallbacksOf(s', n) && CallbacksOf(s', n)[suuid] == CallbacksOf(s, n)[suuid]
    requires r.stage.Calling? ==> suuid in s'.sending && suuid in s.sending && s'.sending[suuid] == s.sending[suuid]
    requires forall e {:trigger InboxOf(h', e)} :: InboxOf(h, e) <= InboxOf(h', e)
    requires forall e {:trigger PoppedAt(s', h', e)} :: PoppedAt(s', h', e) == PoppedAt(s, h, e)
    requires forall n {:trigger BusyOf(s', n)} ::
      r.stage.Serving? && BusyOf(s, n).Replying? && Field(BusyOf(s, n).reply, "suuid") == suuid ==>
        BusyOf(s', n) == BusyOf(s, n)
    ensures Call(s', trace + xs, h', suuid, r)
  {
    assert Look(TheCall);
  }

  // ----- A call is registered -----

  lemma RegisterTracked(s: State, s': State, trace: seq<Event>, h': History, a: Action, r': Rec)
    requires Enabled(s, a) && a.Register? && a.suuid !in CallbacksOf(s, s.owner[a.e]) && s' == Step(s, a)
    requires r' == Rec(a.e, a.name, a.value, a.callback, Calling, |trace|, 0, 0, 0, 0, 0, "")
    ensures Call(s', trace + Rpc.Events(s, a), h', a.suuid, r')
  {}

  lemma RegisterCalls(s: State, s': State, trace: seq<Event>, x: Event, h: History, h': History, n: Service,
                      suuid: string, callback: Callback, r': Rec)
    requires Calls(s, trace, h) && Queues(s, h) && suuid !in s.used && h' == h.(recs := h.recs[suuid := r'])
    requires s' == s.(callbacks := s.callbacks[n := InsertNew(CallbacksOf(s, n), suuid, callback)],
                      sending := s'.sending, used := s.used + {suuid})
    requires forall b :: b in s.sending && b != suuid ==> b in s'.sending && s'.sending[b] == s.sending[b]
    requires Call(s', trace + [x], h', suuid, r')
    ensures Calls(s', trace + [x], h')
  {
    RecsAreUsed(s, trace, h);
    QueuesSame(s, s', h, h');
    forall b | b in h.recs && b != suuid ensures Call(s', trace + [x], h', b, h.recs[b]) {
      CallHolds(s, trace, h, b);
      if h.recs[b].stage.Calling? { CallIsTracked(s, trace, h, b); }
      CallStays(s, s', trace, [x], h, h', b, h.recs[b]);
    }
    CallsGoOn(s, s', trace, trace + [x], h, h', suuid, r');
  }

  lemma RegisterMessages(s: State, h: History, h': History, a: Action, r': Rec)
    requires Messages(s, h) && Enabled(s, a) && a.Register? && a.suuid !in h.recs
    requires r' == Rec(a.e, a.name, a.value, a.callback, Calling, r'.called, 0, 0, 0, 0, 0, "")
    requires h' == h.(recs := h.recs[a.suuid := r'])
    ensures Messages(Step(s, a), h')
  {
    var s' := Step(s, a);
    forall n {:trigger BusyOf(s', n)} | BusyOf(s', n).Replying? ensures BusyBelongs(s', h', n) {
      BusyDoes(s, h, n);
    }
    forall b | b in s'.sending ensures b in h'.recs && h'.recs[b].stage.Calling? {
      if b != a.suuid { SendingIsCalling(s, h, b); }
    }
    MessagesQuiet(s, s', h, h', a.suuid, r');
  }

  lemma BusyDoes(s: State, h: History, n: Service)
    requires Messages(s, h) && BusyOf(s, n).Replying?
    ensures BusyBelongs(s, h, n)
  {
    assert Look(TheMessages);
  }

  lemma SendingIsCalling(s: State, h: History, suuid: string)
    requires Messages(s, h) && suuid in s.sending
    ensures suuid in h.recs && h.recs[suuid].stage.Calling?
  {
    assert Look(TheMessages);
  }

  lemma Registers(s: State, trace: seq<Event>, h: History, a: Action)
    requires Holds(s, trace, h) && Enabled(s, a) && a.Register?
    ensures Explained(Step(s, a), trace + Rpc.Events(s, a))
  {
    var s', trace' := Step(s, a), trace + Rpc.Events(s, a);
    var r' := Rec(a.e, a.name, a.value, a.callback, Calling, |trace|, 0, 0, 0, 0, 0, "");
    var h' := h.(recs := h.recs[a.suuid := r']);
    RecsAreUsed(s, trace, h);
    RegisterTracked(s, s', trace, h', a, r');
    RegisterCalls(s, s', trace, Rpc.Events(s, a)[0], h, h', s.owner[a.e], a.suuid, a.callback, r');
    QueuesSame(s, s', h, h');
    RegisterMessages(s, h, h', a, r');
    OrderGoesOn(h, h', a.suuid, r');
    StoryGoesOn(h, h', trace, a.suuid, r', Rpc.Events(s, a));
    var _ := Inv(s', trace', h');
  }

  // ----- A registered call is pushed -----

  function Pushed(s: State, trace: seq<Event>, h: History, suuid: string): Rec
    requires suuid in h.recs
  {
    var r := h.recs[suuid];
    r.(stage := Asked, sent := |trace|, req := |InboxOf(h, Other(r.e))|)
  }

  /** An object is pushed to an end. */
  function Arrived(h: History, suuid: string, r': Rec, e: End, o: Object): History {
    History(h.recs[suuid := r'], h.inbox[e := InboxOf(h, e) + [o]])
  }

  lemma PushOthers(s: State, trace: seq<Event>, h: History, suuid: string, s': State, h': History, b: string)
    requires Calls(s, trace, h) && Queues(s, h) && suuid in h.recs && h.recs[suuid].stage.Calling?
    requires var r' := Pushed(s, trace, h, suuid);
      && s' == PushAt(s.(sending := s.sending - {suuid}), r'.e, CommandOf(r', suuid))
      && h' == Arrived(h, suuid, r', Other(r'.e), CommandOf(r', suuid))
    requires b in h.recs && b != suuid
    ensures Call(s', trace + [Sent(h.recs[suuid].e, suuid)], h', b, h.recs[b])
  {
    hide Call, Calls, Queues;
    var r' := Pushed(s, trace, h, suuid);
    QueuesPush(s, s', h, h', Other(r'.e), CommandOf(r', suuid));
    CallHolds(s, trace, h, b);
    if h.recs[b].stage.Calling? { CallIsTracked(s, trace, h, b); }
    CallStays(s, s', trace, [Sent(r'.e, suuid)], h, h', b, h.recs[b]);
  }

  lemma PushCalls(s: State, trace: seq<Event>, h: History, suuid: string, s': State, h': History)
    requires Calls(s, trace, h) && Queues(s, h) && suuid in h.recs && h.recs[suuid].stage.Calling?
    requires var r' := Pushed(s, trace, h, suuid);
      && s' == PushAt(s.(sending := s.sending - {suuid}), r'.e, CommandOf(r', suuid))
      && h' == Arrived(h, suuid, r', Other(r'.e), CommandOf(r', suuid))
    ensures Calls(s', trace + [Sent(h.recs[suuid].e, suuid)], h')
  {
    hide Call, Calls, Queues;
    var r' := Pushed(s, trace, h, suuid);
    var xs := [Sent(r'.e, suuid)];
    QueuesPush(s, s', h, h', Other(r'.e), CommandOf(r', suuid));
    RecsAreUsed(s, trace, h);
    forall b | b in h.recs && b != suuid ensures Call(s', trace + xs, h', b, h.recs[b]) {
      PushOthers(s, trace, h, suuid, s', h', b);
    }
    CallHolds(s, trace, h, suuid);
    PushTracked(s, s', trace, h, h', suuid);
    assert s.used + {suuid} == s.used;
    CallsGoOn(s, s', trace, trace + xs, h, h', suuid, r');
  }

  lemma PushTracked(s: State, s': State, trace: seq<Event>, h: History, h': History, suuid: string)
    requires suuid in h.recs && Call(s, trace, h, suuid, h.recs[suuid]) && h.recs[suuid].stage.Calling?
    requires var r' := Pushed(s, trace, h, suuid); h' == Arrived(h, suuid, r', Other(r'.e), CommandOf(r', suuid))
    requires s'.owner == s.owner && s'.callbacks == s.callbacks
    requires PoppedAt(s', h', Other(h.recs[suuid].e)) ==
      PoppedAt(s, h, Other(h.recs[suuid].e)) <= |InboxOf(h, Other(h.recs[suuid].e))|
    ensures var r' := Pushed(s, trace, h, suuid); Call(s', trace + [Sent(r'.e, suuid)], h', suuid, r')
  {
    assert Look(TheCall);
  }

  lemma AskedBefore(s: State, trace: seq<Event>, h: History, b: string)
    requires Calls(s, trace, h) && b in h.recs && HasAsked(h.recs[b])
    ensures h.recs[b].req < |InboxOf(h, Other(h.recs[b].e))| && h.recs[b].sent < |trace|
  {
    CallIsTracked(s, trace, h, b);
  }

  lemma PushMessages(s: State, h: History, suuid: string, r': Rec)
    requires Messages(s, h) && Enabled(s, Push(suuid)) && suuid in h.recs && h.recs[suuid].stage.Calling?
    requires r' == h.recs[suuid].(stage := Asked, sent := r'.sent, req := |InboxOf(h, Other(r'.e))|)
    ensures Messages(Step(s, Push(suuid)), Arrived(h, suuid, r', Other(r'.e), CommandOf(r', suuid)))
  {
    var s', e, o := Step(s, Push(suuid)), Other(r'.e), CommandOf(r', suuid);
    var h' := Arrived(h, suuid, r', e, o);
    forall n {:trigger BusyOf(s', n)} | BusyOf(s', n).Replying? ensures BusyBelongs(s', h', n) {
      BusyDoes(s, h, n);
    }
    forall b | b in s'.sending ensures b in h'.recs && h'.recs[b].stage.Calling? {
      SendingIsCalling(s, h, b);
    }
    MessagesPush(s, s', h, h', suuid, r', e, o);
  }

  lemma Pushes(s: State, trace: seq<Event>, h: History, suuid: string)
    requires Holds(s, trace, h) && suuid in s.sending
    ensures Explained(Step(s, Push(suuid)), trace + Rpc.Events(s, Push(suuid)))
  {
    SendingIsCalling(s, h, suuid);
    CallIsTracked(s, trace, h, suuid);
    var r', s' := Pushed(s, trace, h, suuid), Step(s, Push(suuid));
    var e, o := Other(r'.e), CommandOf(r', suuid);
    var h' := Arrived(h, suuid, r', e, o);
    PushCalls(s, trace, h, suuid, s', h');
    QueuesPush(s, s', h, h', e, o);
    PushMessages(s, h, suuid, r');
    forall b | b in h.recs && b != suuid && HasAsked(h.recs[b]) ensures Ahead(h.recs[b], r') && Ahead(r', h.recs[b]) {
      AskedBefore(s, trace, h, b);
    }
    OrderGoesOn(h, h', suuid, r');
    StoryGoesOn(h, h', trace, suuid, r', [Sent(r'.e, suuid)]);
    var _ := Inv(s', trace + [Sent(r'.e, suuid)], h');
  }

  // ----- A command is taken -----

  /** The call a command belongs to. */
  lemma HeadBelongs(s: State, trace: seq<Event>, h: History, e: End)
    requires Messages(s, h) && Queues(s, h) && Calls(s, trace, h) && e in s.owner && QueueOf(s, e) != []
    ensures var o := QueueOf(s, e)[0];
      var suuid := Field(o, "suuid");
      && suuid in h.recs && PoppedAt(s, h, e) >= 0
      && var r := h.recs[suuid];
        if Field(o, "rpcevent") == CALL then
          r.e == Other(e) && r.stage.Asked? && r.req == PoppedAt(s, h, e) && o == CommandOf(r, suuid)
        else
          && Field(o, "rpcevent") == REPLY && r.e == e && r.stage.Answered? && r.rep == PoppedAt(s, h, e)
          && o == Reply(CommandOf(r, suuid), r.ret) && DecisionAt(s, e) == Invoke(r.callback)
  {
    var o, k := QueueOf(s, e)[0], PoppedAt(s, h, e);
    QueuesPop(s, s.(queues := s.queues[e := QueueOf(s, e)[1..]]), h, h, e);
    MessageBelongs(s, h, e, k);
    CallIsTracked(s, trace, h, Field(o, "suuid"));
  }

  function Changed(h: History, suuid: string, r': Rec): History {
    h.(recs := h.recs[suuid := r'])
  }

  /** s' is s after the first command at e has been popped and dispatched. */
  predicate Popped(s: State, s': State, e: End) {
    && e in s.owner && QueueOf(s, e) != [] && BusyOf(s, s.owner[e]) == Idle
    && s' == s.(queues := s.queues[e := QueueOf(s, e)[1..]], busy := s'.busy)
    && (s'.busy == s.busy || (s.owner[e] in s'.busy && s'.busy == s.busy[s.owner[e] := s'.busy[s.owner[e]]]))
  }

  /** A message that is popped belongs to no other call, and a service that is serving does
      not pop. */
  lemma NotPopped(s: State, trace: seq<Event>, h: History, e: End, b: string)
    requires Queues(s, h) && e in s.owner && QueueOf(s, e) != [] && BusyOf(s, s.owner[e]) == Idle
    requires b in h.recs && Tracked(s, trace, h, b, h.recs[b]) && b != Field(QueueOf(s, e)[0], "suuid")
    ensures var r := h.recs[b];
      && (HasAsked(r) && Other(r.e) == e ==> r.req != PoppedAt(s, h, e))
      && (HasAnswered(r) && r.e == e ==> r.rep != PoppedAt(s, h, e))
      && (r.stage.Serving? ==> s.owner[Other(r.e)] != s.owner[e])
  {
    QueuesPop(s, s.(queues := s.queues[e := QueueOf(s, e)[1..]]), h, h, e);
  }

  /** Calls other than the one whose message is popped. */
  lemma OthersStay(s: State, s': State, trace: seq<Event>, xs: seq<Event>, h: History, h': History, e: End, b: string)
    requires Queues(s, h) && Popped(s, s', e) && b in h.recs && Call(s, trace, h, b, h.recs[b]) && h'.inbox == h.inbox
    requires b != Field(QueueOf(s, e)[0], "suuid")
    requires forall d {:trigger PoppedAt(s', h', d)} ::
      PoppedAt(s', h', d) == PoppedAt(s, h, d) + (if d == e then 1 else 0)
    ensures Call(s', trace + xs, h', b, h.recs[b])
  {
    hide Queues;
    assert Look(TheCall);
    NotPopped(s, trace, h, e, b);
  }

  lemma TakeCalls(s: State, s': State, trace: seq<Event>, x: Event, h: History, e: End, suuid: string, r': Rec)
    requires Queues(s, h) && Calls(s, trace, h) && Popped(s, s', e) && suuid == Field(QueueOf(s, e)[0], "suuid")
    requires suuid in h.recs
    requires Call(s', trace + [x], Changed(h, suuid, r'), suuid, r')
    ensures Calls(s', trace + [x], Changed(h, suuid, r'))
  {
    var h' := Changed(h, suuid, r');
    RecsAreUsed(s, trace, h);
    QueuesPop(s, s', h, h', e);
    forall b | b in h.recs && b != suuid ensures Call(s', trace + [x], h', b, h.recs[b]) {
      CallHolds(s, trace, h, b);
      OthersStay(s, s', trace, [x], h, h', e, b);
    }
    assert s.used + {suuid} == s.used;
    CallsGoOn(s, s', trace, trace + [x], h, h', suuid, r');
  }

  lemma TakeMessages(s: State, s': State, h: History, e: End, suuid: string, r': Rec)
    requires Messages(s, h) && Popped(s, s', e) && suuid in h.recs && Progress(h.recs[suuid], r')
    requires !h.recs[suuid].stage.Calling? && !h.recs[suuid].stage.Serving?
    requires BusyOf(s', s.owner[e]).Replying? ==> BusyBelongs(s', Changed(h, suuid, r'), s.owner[e])
    ensures Messages(s', Changed(h, suuid, r'))
  {
    var h' := Changed(h, suuid, r');
    forall n {:trigger BusyOf(s', n)} | BusyOf(s', n).Replying? ensures BusyBelongs(s', h', n) {
      if n != s.owner[e] { BusyDoes(s, h, n); }
    }
    forall b | b in s'.sending ensures b in h'.recs && h'.recs[b].stage.Calling? {
      SendingIsCalling(s, h, b);
    }
    MessagesQuiet(s, s', h, h', suuid, r');
  }

  /** The call whose message is popped moves on to r', and x is seen. */
  lemma TakesAs(s: State, s': State, trace: seq<Event>, x: Event, h: History, e: End, suuid: string, r': Rec)
    requires Holds(s, trace, h) && Popped(s, s', e) && suuid == Field(QueueOf(s, e)[0], "suuid")
    requires suuid in h.recs && Progress(h.recs[suuid], r') && !h.recs[suuid].stage.Calling?
    requires !h.recs[suuid].stage.Serving?
    requires Call(s', trace + [x], Changed(h, suuid, r'), suuid, r')
    requires BusyOf(s', s.owner[e]).Replying? ==> BusyBelongs(s', Changed(h, suuid, r'), s.owner[e])
    requires forall b :: b in h.recs && b != suuid ==> Ahead(h.recs[b], r') && Ahead(r', h.recs[b])
    requires Accounted(Changed(h, suuid, r'), |trace|, x)
    ensures Explained(s', trace + [x])
  {
    var h' := Changed(h, suuid, r');
    TakeCalls(s, s', trace, x, h, e, suuid, r');
    QueuesPop(s, s', h, h', e);
    TakeMessages(s, s', h, e, suuid, r');
    OrderGoesOn(h, h', suuid, r');
    StoryGoesOn(h, h', trace, suuid, r', [x]);
    var _ := Inv(s', trace + [x], h');
  }

  /** Nothing asked earlier at the same end can still be asked or being served when a request
      is popped, nor answered and not delivered when a reply is. */
  lemma TakeAhead(s: State, trace: seq<Event>, h: History, e: End, suuid: string, r: Rec, r': Rec, b: string)
    requires Holds(s, trace, h) && e in s.owner && BusyOf(s, s.owner[e]) == Idle
    requires suuid in h.recs && b in h.recs && b != suuid && r == h.recs[suuid]
    requires || (r.stage.Asked? && r.e == Other(e) && r.req == PoppedAt(s, h, e) &&
      r' == r.(stage := r'.stage, handled := r'.handled, ret := r'.ret) && (r'.stage.Serving? || r'.stage.Refused?))
             || (r.stage.Answered? && r.e == e && r.rep == PoppedAt(s, h, e) &&
               r' == r.(stage := Finished, delivered := |trace|))
    ensures Ahead(h.recs[b], r') && Ahead(r', h.recs[b])
  {
    CallIsTracked(s, trace, h, b);
    assert Ahead(h.recs[b], r) && Ahead(r, h.recs[b]) by { assert Look(TheOrder); }
  }

  lemma TakeAheadOfAll(s: State, trace: seq<Event>, h: History, e: End, suuid: string, r: Rec, r': Rec)
    requires Holds(s, trace, h) && e in s.owner && BusyOf(s, s.owner[e]) == Idle
    requires suuid in h.recs && r == h.recs[suuid]
    requires r.stage.Asked? && r.e == Other(e) && r.req == PoppedAt(s, h, e)
    requires r' == r.(stage := r'.stage, handled := r'.handled, ret := r'.ret)
    requires r'.stage.Serving? || r'.stage.Refused?
    ensures forall b :: b in h.recs && b != suuid ==> Ahead(h.recs[b], r') && Ahead(r', h.recs[b])
  {
    hide Ahead;
    forall b | b in h.recs && b != suuid ensures Ahead(h.recs[b], r') && Ahead(r', h.recs[b]) {
      TakeAhead(s, trace, h, e, suuid, r, r', b);
    }
  }

  lemma RequestDecided(s: State, s': State, trace: seq<Event>, x: Event, h: History, e: End, ret: string, suuid: string,
                       r': Rec)
    requires Popped(s, s', e) && suuid in h.recs && h.recs[suuid].e == Other(e) && h.recs[suuid].stage.Asked?
    requires var r := h.recs[suuid];
      || (r' == r.(stage := Refused, handled := |trace|) && x == Ignored(e, CommandOf(r, suuid)) && s'.busy == s.busy)
      || (r' == r.(stage := Serving, handled := |trace|, ret := ret) && x == Handled(e, CommandOf(r, suuid), ret)
          && s'.busy == s.busy[s.owner[e] := Replying(e, Reply(CommandOf(r, suuid), ret))])
    ensures Progress(h.recs[suuid], r') && Accounted(Changed(h, suuid, r'), |trace|, x)
    ensures BusyOf(s', s.owner[e]).Replying? ==> BusyBelongs(s', Changed(h, suuid, r'), s.owner[e])
  {}

  lemma TakesRequest(s: State, trace: seq<Event>, h: History, e: End, ret: string, suuid: string)
    requires Holds(s, trace, h) && Enabled(s, Take(e, ret)) && suuid == Field(QueueOf(s, e)[0], "suuid")
    requires Field(QueueOf(s, e)[0], "rpcevent") == CALL
    ensures Explained(Step(s, Take(e, ret)), trace + Rpc.Events(s, Take(e, ret)))
  {
    hide Ahead, Call, Queues, Calls, Messages, Order, Story, Accounted, BusyBelongs, Progress;
    HeadBelongs(s, trace, h, e);
    var r, s', x := h.recs[suuid], Step(s, Take(e, ret)), Rpc.Events(s, Take(e, ret))[0];
    var r' :=
      if DecisionAt(s, e).Handle? then r.(stage := Serving, handled := |trace|, ret := ret)
      else r.(stage := Refused, handled := |trace|);
    CallHolds(s, trace, h, suuid);
    RequestTracked(s, s', trace, x, h, e, ret, suuid, r');
    RequestDecided(s, s', trace, x, h, e, ret, suuid, r');
    TakeAheadOfAll(s, trace, h, e, suuid, r, r');
    assert Rpc.Events(s, Take(e, ret)) == [x];
    TakesAs(s, s', trace, x, h, e, suuid, r');
  }

  lemma RequestTracked(s: State, s': State, trace: seq<Event>, x: Event, h: History, e: End, ret: string, suuid: string,
                       r': Rec)
    requires Queues(s, h) && Popped(s, s', e) && suuid in h.recs && Call(s, trace, h, suuid, h.recs[suuid])
    requires var r := h.recs[suuid];
      && r.e == Other(e) && r.stage.Asked? && r.req == PoppedAt(s, h, e)
      && (|| (r' == r.(stage := Refused, handled := |trace|) && x == Ignored(e, CommandOf(r, suuid)) &&
        s'.busy == s.busy)
          || (r' == r.(stage := Serving, handled := |trace|, ret := ret) && x == Handled(e, CommandOf(r, suuid), ret)
              && s'.busy == s.busy[s.owner[e] := Replying(e, Reply(CommandOf(r, suuid), ret))]))
    ensures Call(s', trace + [x], Changed(h, suuid, r'), suuid, r')
  {
    assert Look(TheCall);
    QueuesPop(s, s', h, Changed(h, suuid, r'), e);
  }

  lemma TakesReply(s: State, trace: seq<Event>, h: History, e: End, ret: string, suuid: string)
    requires Holds(s, trace, h) && Enabled(s, Take(e, ret)) && suuid == Field(QueueOf(s, e)[0], "suuid")
    requires Field(QueueOf(s, e)[0], "rpcevent") != CALL
    ensures Explained(Step(s, Take(e, ret)), trace + Rpc.Events(s, Take(e, ret)))
  {
    hide Ahead, Queues, Calls, Messages, Order, Story;
    HeadBelongs(s, trace, h, e);
    var r, s' := h.recs[suuid], Step(s, Take(e, ret));
    var r', x := r.(stage := Finished, delivered := |trace|),
      Delivered(e, suuid, r.callback, Reply(CommandOf(r, suuid), r.ret));
    CallHolds(s, trace, h, suuid);
    ReplyTracked(s, s', trace, x, h, e, suuid, r');
    forall b | b in h.recs && b != suuid ensures Ahead(h.recs[b], r') && Ahead(r', h.recs[b]) {
      TakeAhead(s, trace, h, e, suuid, r, r', b);
    }
    TakesAs(s, s', trace, x, h, e, suuid, r');
  }

  lemma ReplyTracked(s: State, s': State, trace: seq<Event>, x: Event, h: History, e: End, suuid: string, r': Rec)
    requires Queues(s, h) && Popped(s, s', e) && suuid in h.recs && Call(s, trace, h, suuid, h.recs[suuid])
    requires s'.busy == s.busy
    requires var r := h.recs[suuid];
      && r.e == e && r.stage.Answered? && r.rep == PoppedAt(s, h, e) &&
        r' == r.(stage := Finished, delivered := |trace|)
      && x == Delivered(e, suuid, r.callback, Reply(CommandOf(r, suuid), r.ret))
    ensures Call(s', trace + [x], Changed(h, suuid, r'), suuid, r')
  {
    assert Look(TheCall);
    QueuesPop(s, s', h, Changed(h, suuid, r'), e);
  }

  // ----- A reply is pushed -----

  lemma AnswerTracked(s: State, s': State, trace: seq<Event>, h: History, h': History, n: Service, suuid: string,
                      r: Rec, r': Rec)
    requires Queues(s, h) && Call(s, trace, h, suuid, r) && r.stage.Serving? && Other(r.e) in s.owner
    requires s.owner[Other(r.e)] == n
    requires r' == r.(stage := Answered, rep := |InboxOf(h, r.e)|)
    requires s' == PushAt(s.(busy := s.busy[n := Idle]), Other(r.e), Reply(CommandOf(r, suuid), r.ret))
    requires h' == Arrived(h, suuid, r', r.e, Reply(CommandOf(r, suuid), r.ret))
    ensures Call(s', trace, h', suuid, r')
  {
    assert Look(TheCall);
    QueuesPush(s, s', h, h', r.e, Reply(CommandOf(r, suuid), r.ret));
  }

  lemma AnswerCalls(s: State, s': State, trace: seq<Event>, h: History, h': History, n: Service, suuid: string, r': Rec,
                    o: Object)
    requires Queues(s, h) && Calls(s, trace, h) && suuid in h.recs && BusyOf(s, n).Replying?
    requires Field(BusyOf(s, n).reply, "suuid") == suuid
    requires s' == PushAt(s.(busy := s.busy[n := Idle]), Other(r'.e), o) && h' == Arrived(h, suuid, r', r'.e, o)
    requires Call(s', trace, h', suuid, r')
    ensures Calls(s', trace, h')
  {
    hide Call, Field;
    RecsAreUsed(s, trace, h);
    QueuesPush(s, s', h, h', r'.e, o);
    assert trace + [] == trace;
    forall b | b in h.recs && b != suuid ensures Call(s', trace, h', b, h.recs[b]) {
      CallHolds(s, trace, h, b);
      if h.recs[b].stage.Calling? { CallIsTracked(s, trace, h, b); }
      CallStays(s, s', trace, [], h, h', b, h.recs[b]);
    }
    assert s.used + {suuid} == s.used;
    CallsGoOn(s, s', trace, trace, h, h', suuid, r');
  }

  lemma AnswerMessages(s: State, s': State, h: History, h': History, n: Service, suuid: string, r': Rec, o: Object)
    requires Messages(s, h) && BusyOf(s, n).Replying?
    requires suuid == Field(BusyOf(s, n).reply, "suuid") == Field(o, "suuid") && suuid in h.recs
    requires r' == h.recs[suuid].(stage := Answered, rep := |InboxOf(h, r'.e)|) && h.recs[suuid].stage.Serving?
    requires s.owner.Keys >= {Other(r'.e)} && s.owner[Other(r'.e)] == n && Field(o, "rpcevent") == REPLY
    requires s' == PushAt(s.(busy := s.busy[n := Idle]), Other(r'.e), o) && h' == Arrived(h, suuid, r', r'.e, o)
    ensures Messages(s', h')
  {
    forall m {:trigger BusyOf(s', m)} | BusyOf(s', m).Replying? ensures BusyBelongs(s', h', m) {
      BusyDoes(s, h, m);
    }
    forall b | b in s'.sending ensures b in h'.recs && h'.recs[b].stage.Calling? {
      SendingIsCalling(s, h, b);
    }
    MessagesPush(s, s', h, h', suuid, r', r'.e, o);
  }

  lemma AnswerAhead(s: State, trace: seq<Event>, h: History, suuid: string, r': Rec, b: string)
    requires Calls(s, trace, h) && Order(h) && suuid in h.recs && b in h.recs && b != suuid
    requires h.recs[suuid].stage.Serving? && r' == h.recs[suuid].(stage := Answered, rep := |InboxOf(h, r'.e)|)
    ensures Ahead(h.recs[b], r') && Ahead(r', h.recs[b])
  {
    CallIsTracked(s, trace, h, b);
    assert Ahead(h.recs[b], h.recs[suuid]) && Ahead(h.recs[suuid], h.recs[b]) by { assert Look(TheOrder); }
  }

  lemma AnswerOrder(s: State, trace: seq<Event>, h: History, h': History, suuid: string, r': Rec)
    requires Calls(s, trace, h) && Order(h) && suuid in h.recs && h.recs[suuid].stage.Serving?
    requires r' == h.recs[suuid].(stage := Answered, rep := |InboxOf(h, r'.e)|) && h'.recs == h.recs[suuid := r']
    ensures Order(h')
  {
    hide Ahead;
    forall b | b in h.recs && b != suuid ensures Ahead(h.recs[b], r') && Ahead(r', h.recs[b]) {
      AnswerAhead(s, trace, h, suuid, r', b);
    }
    OrderGoesOn(h, h', suuid, r');
  }

  lemma AnswerStory(h: History, h': History, trace: seq<Event>, suuid: string, r': Rec, o: Object)
    requires Story(h, trace) && suuid in h.recs && h.recs[suuid].stage.Serving?
    requires r' == h.recs[suuid].(stage := Answered, rep := |InboxOf(h, r'.e)|) && h' == Arrived(h, suuid, r', r'.e, o)
    ensures Story(h', trace)
  {
    hide Accounted;
    StoryGoesOn(h, h', trace, suuid, r', []);
    assert trace + [] == trace;
  }

  lemma Answers(s: State, trace: seq<Event>, h: History, n: Service)
    requires Holds(s, trace, h) && BusyOf(s, n) != Idle
    ensures Explained(Step(s, Answer(n)), trace + Rpc.Events(s, Answer(n)))
  {
    hide Ahead, Call, Calls, Queues, Messages, Order, Story, Advances, Progress;
    BusyDoes(s, h, n);
    var suuid := Field(BusyOf(s, n).reply, "suuid");
    var r := h.recs[suuid];
    var r', o, s' := r.(stage := Answered, rep := |InboxOf(h, r.e)|), Reply(CommandOf(r, suuid), r.ret),
      Step(s, Answer(n));
    var h' := Arrived(h, suuid, r', r.e, o);
    CallIsTracked(s, trace, h, suuid);
    CallHolds(s, trace, h, suuid);
    AnswerTracked(s, s', trace, h, h', n, suuid, r, r');
    AnswerCalls(s, s', trace, h, h', n, suuid, r', o);
    QueuesPush(s, s', h, h', r.e, o);
    AnswerMessages(s, s', h, h', n, suuid, r', o);
    AnswerOrder(s, trace, h, h', suuid, r');
    AnswerStory(h, h', trace, suuid, r', o);
    assert trace + [] == trace;
    var _ := Inv(s', trace, h');
  }

  // ----- A method is registered -----

  lemma Provides(s: State, trace: seq<Event>, h: History, a: Action)
    requires Holds(s, trace, h) && a.Provide?
    ensures Explained(Step(s, a), trace + Rpc.Events(s, a))
  {
    var s' := Step(s, a);
    RecsAreUsed(s, trace, h);
    QueuesSame(s, s', h, h);
    ProvideCalls(s, s', trace, h);
    ProvideMessages(s, s', h);
    assert trace + [] == trace;
    var _ := Inv(s', trace, h);
  }

  lemma ProvideCalls(s: State, s': State, trace: seq<Event>, h: History)
    requires Calls(s, trace, h) && Queues(s, h) && s' == s.(methods := s'.methods)
    ensures Calls(s', trace, h)
  {
    QueuesSame(s, s', h, h);
    forall b | b in h.recs ensures Call(s', trace, h, b, h.recs[b]) {
      CallHolds(s, trace, h, b);
      if h.recs[b].stage.Calling? { CallIsTracked(s, trace, h, b); }
      assert trace + [] == trace;
      CallStays(s, s', trace, [], h, h, b, h.recs[b]);
    }
    assert Look(TheCalls);
    assert forall n :: CallbacksOf(s', n) == CallbacksOf(s, n);
  }

  lemma ProvideMessages(s: State, s': State, h: History)
    requires Messages(s, h) && s' == s.(methods := s'.methods)
    ensures Messages(s', h)
  {
    assert Look(TheMessages);
    forall n {:trigger BusyOf(s', n)} | BusyOf(s', n).Replying? ensures BusyBelongs(s', h, n) {
      BusyDoes(s, h, n);
    }
  }

  // ----- Every run -----

  lemma StepIsExplained(s: State, trace: seq<Event>, h: History, a: Action)
    requires Holds(s, trace, h) && Enabled(s, a)
    ensures Explained(Step(s, a), trace + Rpc.Events(s, a))
  {
    match a
    case Provide(_, _) => Provides(s, trace, h, a);
    case Register(_, _, _, _, _) => Registers(s, trace, h, a);
    case Push(suuid) => Pushes(s, trace, h, suuid);
    case Take(e, ret) =>
      HeadBelongs(s, trace, h, e);
      var o := QueueOf(s, e)[0];
      if Field(o, "rpcevent") == CALL {
        TakesRequest(s, trace, h, e, ret, Field(o, "suuid"));
      } else {
        TakesReply(s, trace, h, e, ret, Field(o, "suuid"));
      }
    case Answer(n) => Answers(s, trace, h, n);
  }

  lemma {:induction false} RunIsExplained(owner: map<End, Service>, acts: seq<Action>)
    ensures Explained(After(owner, acts).state, After(owner, acts).trace)
    decreases |acts|
  {
    if acts == [] {
      var _ := Inv(Init(owner), [], History(map[], map[]));
    } else {
      var before := After(owner, acts[..|acts| - 1]);
      RunIsExplained(owner, acts[..|acts| - 1]);
      if Enabled(before.state, acts[|acts| - 1]) {
        var h :| Inv(before.state, before.trace, h);
        StepIsExplained(before.state, before.trace, h, acts[|acts| - 1]);
      }
    }
  }

  lemma EventIsAccounted(h: History, trace: seq<Event>, i: nat)
    requires Story(h, trace) && i < |trace|
    ensures Accounted(h, i, trace[i])
  {
    assert Look(TheTrace);
  }

  // ----- Main results -----

  /** A callback is invoked only at the end where its own call was made, after some handler at
      the other end has been given exactly the command of that call, and with the reply that
      carries what that handler returned. */
  lemma CallbackGetsItsOwnReply(owner: map<End, Service>, acts: seq<Action>, i: nat)
    requires i < |After(owner, acts).trace| && After(owner, acts).trace[i].Delivered?
    ensures var trace := After(owner, acts).trace; var x := trace[i];
      exists j, k, name, value, ret :: 0 <= j < k < i
        && trace[j] == Called(x.e, x.suuid, name, value, x.callback)
        && trace[k] == Handled(Other(x.e), Request(value, name, x.suuid), ret)
        && x.reply == Reply(Request(value, name, x.suuid), ret)
  {
    RunIsExplained(owner, acts);
    var s, trace := After(owner, acts).state, After(owner, acts).trace;
    var h :| Inv(s, trace, h);
    EventIsAccounted(h, trace, i);
    var r := h.recs[trace[i].suuid];
    CallIsTracked(s, trace, h, trace[i].suuid);
    assert trace[r.called] == Called(r.e, trace[i].suuid, r.name, r.value, r.callback);
    assert trace[r.handled] == Handled(Other(r.e), Request(r.value, r.name, trace[i].suuid), r.ret);
  }

  /** Callbacks are never erased, and still none is invoked twice for a call; nor is a call
      handled twice. */
  lemma AtMostOnce(owner: map<End, Service>, acts: seq<Action>, i: nat, j: nat)
    requires i < j < |After(owner, acts).trace|
    ensures var x, y := After(owner, acts).trace[i], After(owner, acts).trace[j];
      && (x.Delivered? && y.Delivered? ==> x.suuid != y.suuid)
      && (x.Handled? && y.Handled? ==> Field(x.cmd, "suuid") != Field(y.cmd, "suuid"))
  {
    RunIsExplained(owner, acts);
    var s, trace := After(owner, acts).state, After(owner, acts).trace;
    var h :| Inv(s, trace, h);
    EventIsAccounted(h, trace, i);
    EventIsAccounted(h, trace, j);
  }

  /** Every reply finds its callback: registration comes before the push in every run. */
  lemma RepliesAreNeverDropped(owner: map<End, Service>, acts: seq<Action>, e: End, i: nat)
    requires i < |QueueOf(After(owner, acts).state, e)| && e in owner
    requires Field(QueueOf(After(owner, acts).state, e)[i], "rpcevent") != CALL
    ensures var s := After(owner, acts).state; var o := QueueOf(s, e)[i];
      && e in s.owner && Field(o, "rpcevent") == REPLY
      && Field(o, "suuid") in CallbacksOf(s, s.owner[e])
  {
    RunIsExplained(owner, acts);
    OwnersStay(owner, acts);
    var s, trace := After(owner, acts).state, After(owner, acts).trace;
    var h :| Inv(s, trace, h);
    ReplyHasCallback(s, trace, h, e, i);
  }

  lemma ReplyHasCallback(s: State, trace: seq<Event>, h: History, e: End, i: nat)
    requires Queues(s, h) && Messages(s, h) && Calls(s, trace, h)
    requires i < |QueueOf(s, e)| && Field(QueueOf(s, e)[i], "rpcevent") != CALL
    ensures var o := QueueOf(s, e)[i];
      e in s.owner && Field(o, "rpcevent") == REPLY && Field(o, "suuid") in CallbacksOf(s, s.owner[e])
  {
    assert IsTail(QueueOf(s, e), InboxOf(h, e)) by { assert Look(TheQueues); }
    MessageBelongs(s, h, e, PoppedAt(s, h, e) + i);
    CallIsTracked(s, trace, h, Field(QueueOf(s, e)[i], "suuid"));
  }

  lemma {:induction false} OwnersStay(owner: map<End, Service>, acts: seq<Action>)
    ensures After(owner, acts).state.owner == owner
    decreases |acts|
  {
    if acts != [] { OwnersStay(owner, acts[..|acts| - 1]); }
  }

  /** At one end of a channel replies are delivered in the order in which their calls were
      pushed. */
  lemma RepliesKeepTheOrderOfCalls(owner: map<End, Service>, acts: seq<Action>, i: nat, j: nat, k: nat, l: nat)
    requires i < j < |After(owner, acts).trace| && k < |After(owner, acts).trace| && l < |After(owner, acts).trace|
    requires var trace := After(owner, acts).trace; trace[i].Sent? && trace[j].Sent? && trace[i].e == trace[j].e
    requires var trace := After(owner, acts).trace; trace[k].Delivered? && trace[k].suuid == trace[i].suuid
    requires var trace := After(owner, acts).trace; trace[l].Delivered? && trace[l].suuid == trace[j].suuid
    ensures k < l
  {
    RunIsExplained(owner, acts);
    var s, trace := After(owner, acts).state, After(owner, acts).trace;
    var h :| Inv(s, trace, h);
    SentInOrder(s, trace, h, i, j, k, l);
  }

  lemma SentInOrder(s: State, trace: seq<Event>, h: History, i: nat, j: nat, k: nat, l: nat)
    requires Story(h, trace) && Calls(s, trace, h) && Order(h) && i < j < |trace| && k < |trace| && l < |trace|
    requires trace[i].Sent? && trace[j].Sent? && trace[i].e == trace[j].e
    requires trace[k].Delivered? && trace[k].suuid == trace[i].suuid && trace[l].Delivered?
    requires trace[l].suuid == trace[j].suuid
    ensures k < l
  {
    EventIsAccounted(h, trace, i);
    EventIsAccounted(h, trace, j);
    EventIsAccounted(h, trace, k);
    EventIsAccounted(h, trace, l);
    CallIsTracked(s, trace, h, trace[i].suuid);
    CallIsTracked(s, trace, h, trace[j].suuid);
    var a, b := h.recs[trace[i].suuid], h.recs[trace[j].suuid];
    assert Ahead(a, b) && Ahead(b, a) by { assert Look(TheOrder); }
  }

  // ----- What a service does with the next command -----

  lemma MethodsStep(s: State, a: Action, n: Service, name: string)
    requires Enabled(s, a)
    ensures name in MethodsOf(Step(s, a), n) <==> name in MethodsOf(s, n) || a == Provide(n, name)
  {
    if !a.Provide? { assert Step(s, a).methods == s.methods; }
  }

  /** The methods of a service are those provided so far. */
  lemma {:induction false} MethodsAreProvided(owner: map<End, Service>, acts: seq<Action>, n: Service, name: string)
    ensures name in MethodsOf(After(owner, acts).state, n) <==> Provide(n, name) in acts
    decreases |acts|
  {
    hide Step, MethodsOf;
    if acts == [] {
      NoMethods(owner, n, name);
    } else {
      var before, a := acts[..|acts| - 1], acts[|acts| - 1];
      assert acts == before + [a];
      MethodsAreProvided(owner, before, n, name);
      var s := After(owner, before).state;
      if Enabled(s, a) { MethodsStep(s, a, n, name); }
    }
  }

  lemma NoMethods(owner: map<End, Service>, n: Service, name: string)
    ensures name !in MethodsOf(Init(owner), n)
  {}

  /** A call that a service takes is handled if and only if its method was provided before, whatever
      else the service has registered; and then the reply with what the handler returns goes back
      with the next answer of the service. */
  lemma CallIsHandledIff(owner: map<End, Service>, acts: seq<Action>, e: End, ret: string)
    requires Enabled(After(owner, acts).state, Take(e, ret))
    requires Field(QueueOf(After(owner, acts).state, e)[0], "rpcevent") == "call_rpc_method"
    ensures e in owner
    ensures var r, r' := After(owner, acts), After(owner, acts + [Take(e, ret)]);
      var cmd, n := QueueOf(r.state, e)[0], owner[e];
      && (Provide(n, Field(cmd, "method")) in acts <==> r'.trace == r.trace + [Handled(e, cmd, ret)])
      && (Provide(n, Field(cmd, "method")) !in acts <==> r'.trace == r.trace + [Ignored(e, cmd)])
      && (Provide(n, Field(cmd, "method")) in acts ==>
            exists reply ::
              && QueueOf(After(owner, acts + [Take(e, ret), Answer(n)]).state, Other(e)) ==
                   QueueOf(r.state, Other(e)) + [reply]
              && reply.fields == map["suuid" := Field(cmd, "suuid"), "method" := Field(cmd, "method"),
                                     "rpcevent" := "reply_rpc_method", "ret" := ret])
  {
    OwnersStay(owner, acts);
    var r, acts1, acts2 := After(owner, acts), acts + [Take(e, ret)], acts + [Take(e, ret), Answer(owner[e])];
    var cmd := QueueOf(r.state, e)[0];
    MethodsAreProvided(owner, acts, owner[e], Field(cmd, "method"));
    assert acts1[..|acts1| - 1] == acts && acts2[..|acts2| - 1] == acts1;
    assert r.trace + [Handled(e, cmd, ret)] != r.trace + [Ignored(e, cmd)] by {
      assert (r.trace + [Handled(e, cmd, ret)])[|r.trace|] != (r.trace + [Ignored(e, cmd)])[|r.trace|];
    }
    if Provide(owner[e], Field(cmd, "method")) in acts {
      var s1 := After(owner, acts1).state;
      assert BusyOf(s1, owner[e]) == Replying(e, Reply(cmd, ret));
      assert QueueOf(s1, Other(e)) == QueueOf(r.state, Other(e));
      assert QueueOf(After(owner, acts2).state, Other(e)) == QueueOf(r.state, Other(e)) + [Reply(cmd, ret)];
    }
  }

  /** A reply that a service takes is delivered, to the callback that is registered for it. */
  lemma ReplyIsDelivered(owner: map<End, Service>, acts: seq<Action>, e: End, ret: string)
    requires Enabled(After(owner, acts).state, Take(e, ret))
    requires Field(QueueOf(After(owner, acts).state, e)[0], "rpcevent") != "call_rpc_method"
    ensures var r, r' := After(owner, acts), After(owner, acts + [Take(e, ret)]);
      var cmd := QueueOf(r.state, e)[0];
      exists callback ::
        && r'.trace == r.trace + [Delivered(e, Field(cmd, "suuid"), callback, cmd)]
        && e in owner && Field(cmd, "suuid") in CallbacksOf(r.state, owner[e])
        && callback == CallbacksOf(r.state, owner[e])[Field(cmd, "suuid")]
  {
    OwnersStay(owner, acts);
    RepliesAreNeverDropped(owner, acts, e, 0);
    var acts1 := acts + [Take(e, ret)];
    assert acts1[..|acts1| - 1] == acts;
  }

  /** Whatever is ignored in a run is a call to a method which the service at that end had not
      provided by then. */
  lemma {:induction false} IgnoredWasNotProvided(owner: map<End, Service>, acts: seq<Action>, i: nat)
    requires i < |After(owner, acts).trace| && After(owner, acts).trace[i].Ignored?
    ensures var x := After(owner, acts).trace[i];
      && x.e in owner && Field(x.cmd, "rpcevent") == "call_rpc_method"
      && exists k :: 0 <= k <= |acts| && |After(owner, acts[..k]).trace| == i + 1 &&
           Provide(owner[x.e], Field(x.cmd, "method")) !in acts[..k]
    decreases |acts|
  {
    var before, a := acts[..|acts| - 1], acts[|acts| - 1];
    var r := After(owner, before);
    if i < |r.trace| {
      IgnoredWasNotProvided(owner, before, i);
      var x := r.trace[i];
      var k :| 0 <= k <= |before| && |After(owner, before[..k]).trace| == i + 1 &&
        Provide(owner[x.e], Field(x.cmd, "method")) !in before[..k];
      assert before[..k] == acts[..k];
    } else {
      assert acts == before + [a] && acts[..|acts|] == acts;
      OwnersStay(owner, before);
      if Field(QueueOf(r.state, a.e)[0], "rpcevent") == CALL {
        CallIsHandledIff(owner, before, a.e, a.ret);
      } else {
        ReplyIsDelivered(owner, before, a.e, a.ret);
      }
    }
  }

  // ----- One token for each call -----

  /** Where the token of a call can be. */
  datatype Token = InSending | InQueue(e: End, i: nat) | InReply(n: Service) | WasDelivered(i: nat) | WasIgnored(i: nat)

  predicate IsAt(s: State, trace: seq<Event>, suuid: string, p: Token) {
    match p
    case InSending => suuid in s.sending
    case InQueue(e, i) => i < |QueueOf(s, e)| && Field(QueueOf(s, e)[i], "suuid") == suuid
    case InReply(n) => BusyOf(s, n).Replying? && Field(BusyOf(s, n).reply, "suuid") == suuid
    case WasDelivered(i) => i < |trace| && trace[i].Delivered? && trace[i].suuid == suuid
    case WasIgnored(i) => i < |trace| && trace[i].Ignored? && Field(trace[i].cmd, "suuid") == suuid
  }

  /** The stage of a call determines where its token is. */
  lemma TokenOfStage(s: State, trace: seq<Event>, h: History, suuid: string, p: Token)
    requires Holds(s, trace, h) && IsAt(s, trace, suuid, p)
    ensures suuid in h.recs
    ensures var r := h.recs[suuid];
      match p
      case InSending => r.stage.Calling?
      case InQueue(e, i) =>
        || (r.stage.Asked? && e == Other(r.e) && i == r.req - PoppedAt(s, h, e))
        || (r.stage.Answered? && e == r.e && i == r.rep - PoppedAt(s, h, e))
      case InReply(n) => r.stage.Serving? && Other(r.e) in s.owner && n == s.owner[Other(r.e)]
      case WasDelivered(i) => r.stage.Finished? && i == r.delivered
      case WasIgnored(i) => r.stage.Refused? && i == r.handled
  {
    match p
    case InSending => SendingIsCalling(s, h, suuid);
    case InQueue(e, i) =>
      assert IsTail(QueueOf(s, e), InboxOf(h, e)) by { assert Look(TheQueues); }
      MessageBelongs(s, h, e, PoppedAt(s, h, e) + i);
      CallIsTracked(s, trace, h, suuid);
    case InReply(n) =>
      BusyDoes(s, h, n);
    case WasDelivered(i) => EventIsAccounted(h, trace, i);
    case WasIgnored(i) => EventIsAccounted(h, trace, i);
  }

  lemma TokenExists(s: State, trace: seq<Event>, h: History, suuid: string)
    requires Holds(s, trace, h) && suuid in h.recs
    ensures exists p :: IsAt(s, trace, suuid, p)
  {
    var r := h.recs[suuid];
    CallIsTracked(s, trace, h, suuid);
    assert IsTail(QueueOf(s, r.e), InboxOf(h, r.e)) &&
      IsTail(QueueOf(s, Other(r.e)), InboxOf(h, Other(r.e))) by { assert Look(TheQueues); }
    match r.stage
    case Calling => assert IsAt(s, trace, suuid, InSending);
    case Asked => assert IsAt(s, trace, suuid, InQueue(Other(r.e), r.req - PoppedAt(s, h, Other(r.e))));
    case Serving => assert IsAt(s, trace, suuid, InReply(s.owner[Other(r.e)]));
    case Answered => assert IsAt(s, trace, suuid, InQueue(r.e, r.rep - PoppedAt(s, h, r.e)));
    case Finished => assert IsAt(s, trace, suuid, WasDelivered(r.delivered));
    case Refused => assert IsAt(s, trace, suuid, WasIgnored(r.handled));
  }

  /** A call that has been made is in no two places: its token is not doubled on its way
      through registration, queues and services. */
  lemma TokensAreConserved(owner: map<End, Service>, acts: seq<Action>, suuid: string, p: Token, q: Token)
    requires IsAt(After(owner, acts).state, After(owner, acts).trace, suuid, p)
    requires IsAt(After(owner, acts).state, After(owner, acts).trace, suuid, q)
    ensures p == q
  {
    RunIsExplained(owner, acts);
    var s, trace := After(owner, acts).state, After(owner, acts).trace;
    var h :| Inv(s, trace, h);
    TokenOfStage(s, trace, h, suuid, p);
    TokenOfStage(s, trace, h, suuid, q);
  }

  /** And it is always in some place. */
  lemma TokensAreNeverLost(owner: map<End, Service>, acts: seq<Action>, suuid: string)
    requires suuid in After(owner, acts).state.used
    ensures exists p :: IsAt(After(owner, acts).state, After(owner, acts).trace, suuid, p)
  {
    RunIsExplained(owner, acts);
    var s, trace := After(owner, acts).state, After(owner, acts).trace;
    var h :| Inv(s, trace, h);
    RecsAreUsed(s, trace, h);
    TokenExists(s, trace, h, suuid);
  }
}
