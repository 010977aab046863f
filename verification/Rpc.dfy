/** Remote calls between services over channels: juggle/service/caller.cpp,
    juggle/service/service.cpp and the handlers that juggle/rpcmake/codegen.py generates. */
module Rpc {

  /** The objects that travel over channels. */
  datatype Object = Object(fields: map<string, string>)

  function Field(o: Object, key: string): string {
    if key in o.fields then o.fields[key] else ""
  }

  const CALL := "call_rpc_method"
  const REPLY := "reply_rpc_method"

  /** What a caller makes of the object that holds the arguments. */
  function Request(value: Object, name: string, suuid: string): Object {
    Object(value.fields["method" := name]["suuid" := suuid]["rpcevent" := CALL])
  }

  /** What a generated handler answers. */
  function Reply(cmd: Object, ret: string): Object {
    Object(map["suuid" := Field(cmd, "suuid"), "method" := Field(cmd, "method"), "rpcevent" := REPLY, "ret" := ret])
  }

  /** The argument a handler reads is the one the caller wrote, unless it bears the name of a
      header field that the caller overwrites with something else. */
  lemma ArgumentArrivesIff(value: Object, name: string, suuid: string, key: string)
    ensures Field(Request(value, name, suuid), key) == Field(value, key) <==>
      && (key == "method" ==> Field(value, key) == name)
      && (key == "suuid" ==> Field(value, key) == suuid)
      && (key == "rpcevent" ==> Field(value, key) == CALL)
  {}

  // ----- What a service does with a command -----

  /** Which callback is registered for a call, by its identifier. */
  type Callback = nat

  datatype Decision = Handle | Invoke(callback: Callback) | Ignore

  function Decide(methods: set<string>, callbacks: map<string, Callback>, cmd: Object): Decision {
    if Field(cmd, "rpcevent") == CALL then
      (if Field(cmd, "method") in methods then Handle else Ignore)
    else if Field(cmd, "rpcevent") == REPLY then
      (if Field(cmd, "suuid") in callbacks then Invoke(callbacks[Field(cmd, "suuid")]) else Ignore)
    else Ignore
  }

  /** Insertion into a map that keeps what is there. */
  function InsertNew<K, V>(m: map<K, V>, k: K, v: V): map<K, V> {
    if k in m then m else m[k := v]
  }

  // ----- Any number of services, joined by channels -----

  type Service = nat

  /** One of the two ends of a channel. */
  datatype End = End(ch: nat, side: bool)

  function Other(e: End): End { End(e.ch, !e.side) }

  datatype Event =
    | Called(e: End, suuid: string, name: string, value: Object, callback: Callback)
    | Sent(e: End, suuid: string)
    | Handled(e: End, cmd: Object, ret: string)
    | Delivered(e: End, suuid: string, callback: Callback, reply: Object)
    | Ignored(e: End, cmd: Object)

  /** The reply that the handler running in the main loop of a service has yet to push. */
  datatype Busy = Idle | Replying(e: End, reply: Object)

  datatype Outgoing = Outgoing(e: End, cmd: Object)

  /** owner: the service at each end.  queues: what can be popped at each end.  sending: the
      calls that are registered but not yet pushed.  used: the identifiers drawn so far. */
  datatype State = State(
    owner: map<End, Service>, queues: map<End, seq<Object>>, methods: map<Service, set<string>>,
    callbacks: map<Service, map<string, Callback>>, sending: map<string, Outgoing>, busy: map<Service, Busy>,
      used: set<string>)

  /** Register and Push are the two halves of an asynchronous call; Take is the main loop
      popping and dispatching a command, ret being what the handler, if one runs, returns;
      Answer pushes its reply. */
  datatype Action =
    | Provide(n: Service, name: string)
    | Register(e: End, name: string, value: Object, callback: Callback, suuid: string)
    | Push(suuid: string)
    | Take(e: End, ret: string)
    | Answer(n: Service)

  function Init(owner: map<End, Service>): State {
    State(owner, map[], map[], map[], map[], map[], {})
  }

  function QueueOf(s: State, e: End): seq<Object> {
    if e in s.queues then s.queues[e] else []
  }

  function MethodsOf(s: State, n: Service): set<string> {
    if n in s.methods then s.methods[n] else {}
  }

  function CallbacksOf(s: State, n: Service): map<string, Callback> {
    if n in s.callbacks then s.callbacks[n] else map[]
  }

  function BusyOf(s: State, n: Service): Busy {
    if n in s.busy then s.busy[n] else Idle
  }

  /** Identifiers are fresh.  A handler does not yield: a service takes the next command only
      when the reply to the last is pushed. */
  predicate Enabled(s: State, a: Action) {
    match a
    case Provide(_, _) => true
    case Register(e, _, _, _, suuid) => e in s.owner && suuid !in s.used
    case Push(suuid) => suuid in s.sending
    case Take(e, _) => e in s.owner && BusyOf(s, s.owner[e]) == Idle && QueueOf(s, e) != []
    case Answer(n) => BusyOf(s, n) != Idle
  }

  /** channel::push at end e. */
  function PushAt(s: State, e: End, o: Object): State {
    s.(queues := s.queues[Other(e) := QueueOf(s, Other(e)) + [o]])
  }

  function DecisionAt(s: State, e: End): Decision
    requires e in s.owner && QueueOf(s, e) != []
  {
    Decide(MethodsOf(s, s.owner[e]), CallbacksOf(s, s.owner[e]), QueueOf(s, e)[0])
  }

  function Step(s: State, a: Action): (r: State)
    requires Enabled(s, a)
    ensures r.owner == s.owner
  {
    match a
    case Provide(n, name) => s.(methods := s.methods[n := MethodsOf(s, n) + {name}])
    case Register(e, name, value, callback, suuid) =>
      var n := s.owner[e];
      s.(callbacks := s.callbacks[n := InsertNew(CallbacksOf(s, n), suuid, callback)],
         sending := s.sending[suuid := Outgoing(e, Request(value, name, suuid))], used := s.used + {suuid})
    case Push(suuid) =>
      var out := s.sending[suuid];
      PushAt(s.(sending := s.sending - {suuid}), out.e, out.cmd)
    case Take(e, ret) =>
      var cmd := QueueOf(s, e)[0];
      var s' := s.(queues := s.queues[e := QueueOf(s, e)[1..]]);
      if DecisionAt(s, e).Handle? then s'.(busy := s.busy[s.owner[e] := Replying(e, Reply(cmd, ret))]) else s'
    case Answer(n) =>
      var b := BusyOf(s, n);
      PushAt(s.(busy := s.busy[n := Idle]), b.e, b.reply)
  }

  function Events(s: State, a: Action): seq<Event>
    requires Enabled(s, a)
  {
    match a
    case Provide(_, _) => []
    case Register(e, name, value, callback, suuid) => [Called(e, suuid, name, value, callback)]
    case Push(suuid) => [Sent(s.sending[suuid].e, suuid)]
    case Take(e, ret) =>
      var cmd := QueueOf(s, e)[0];
      (match DecisionAt(s, e)
       case Handle => [Handled(e, cmd, ret)]
       case Invoke(callback) => [Delivered(e, Field(cmd, "suuid"), callback, cmd)]
       case Ignore => [Ignored(e, cmd)])
    case Answer(_) => []
  }

  datatype Run = Run(state: State, trace: seq<Event>)

  /** The state and trace after a schedule; actions that are not possible are skipped. */
  function After(owner: map<End, Service>, acts: seq<Action>): (r: Run)
    decreases |acts|
  {
    if acts == [] then Run(Init(owner), [])
    else
      var r := After(owner, acts[..|acts| - 1]);
      var a := acts[|acts| - 1];
      if Enabled(r.state, a) then Run(Step(r.state, a), r.trace + Events(r.state, a)) else r
  }
}
