/** The objects of the two sides of a remote call, and what their methods do to them. */
module RpcService {
  import opened Rpc

  datatype Option<T> = None | Some(value: T)

  /** A shared object that a caller and a channel pass around. */
  class ObjectRef {
    var fields: map<string, string>

    constructor ()
      ensures fields == map[]
    {
      fields := map[];
    }
  }

  /** One end of a channel: what can be popped and what has been pushed. */
  class Channel {
    var arrived: seq<Object>
    var pushed: seq<Object>

    method Push(o: Object)
      modifies this`pushed
      ensures pushed == old(pushed) + [o]
    {
      pushed := pushed + [o];
    }

    method Pop() returns (o: Option<Object>)
      modifies this`arrived
      ensures old(arrived) == [] ==> o == None && arrived == []
      ensures old(arrived) != [] ==> o == Some(old(arrived)[0]) && arrived == old(arrived)[1..]
    {
      if arrived == [] {
        o := None;
      } else {
        o := Some(arrived[0]);
        arrived := arrived[1..];
      }
    }
  }

  /** A callback has been given a reply. */
  datatype Invoked = Invoked(callback: Callback, reply: Object)

  /** The callback that a command invokes, if it invokes one. */
  function Invocation(methods: set<string>, callbacks: map<string, Callback>, cmds: seq<Object>): seq<Invoked> {
    if cmds == [] then []
    else
      match Decide(methods, callbacks, cmds[0])
      case Invoke(callback) => [Invoked(callback, cmds[0])]
      case _ => []
  }

  /** The callbacks that the first commands of a row of channels invoke. */
  function Invocations(methods: set<string>, callbacks: map<string, Callback>,
                       arrived: seq<seq<Object>>): seq<Invoked> {
    if arrived == [] then []
    else
      Invocations(methods, callbacks, arrived[..|arrived| - 1]) + Invocation(methods, callbacks, arrived[|arrived| - 1])
  }

  lemma InvocationsSnoc(methods: set<string>, callbacks: map<string, Callback>, arrived: seq<seq<Object>>, i: nat)
    requires i < |arrived|
    ensures Invocations(methods, callbacks, arrived[..i + 1])
         == Invocations(methods, callbacks, arrived[..i]) + Invocation(methods, callbacks, arrived[i])
  {
    assert arrived[..i + 1][..i] == arrived[..i];
  }

  /** The answer to the first command of a channel, if a handler answers it. */
  function Answers(methods: map<string, Object -> string>, callbacks: map<string, Callback>,
                   cmds: seq<Object>): seq<Object> {
    if cmds != [] && Decide(methods.Keys, callbacks, cmds[0]) == Handle
    then [Reply(cmds[0], methods[Field(cmds[0], "method")](cmds[0]))]
    else []
  }

  function Rest(cmds: seq<Object>): seq<Object> {
    if cmds == [] then [] else cmds[1..]
  }

  class JuggleService {
    var methods: map<string, Object -> string>
    var callbacks: map<string, Callback>
    var channels: seq<Channel>

    ghost predicate Valid()
      reads this
    {
      forall i, j :: 0 <= i < j < |channels| ==> channels[i] != channels[j]
    }

    /** What can be popped from each channel. */
    ghost function Arrived(): (r: seq<seq<Object>>)
      reads this, channels
      ensures |r| == |channels| && forall i :: 0 <= i < |r| ==> r[i] == channels[i].arrived
    {
      seq(|channels|, i requires 0 <= i < |channels| reads this, channels => channels[i].arrived)
    }

    /** What has been pushed to each channel. */
    ghost function Sent(): (r: seq<seq<Object>>)
      reads this, channels
      ensures |r| == |channels| && forall i :: 0 <= i < |r| ==> r[i] == channels[i].pushed
    {
      seq(|channels|, i requires 0 <= i < |channels| reads this, channels => channels[i].pushed)
    }

    constructor ()
      ensures Valid() && methods == map[] && callbacks == map[] && channels == []
    {
      methods, callbacks, channels := map[], map[], [];
    }

    /** The first registration of a name stays. */
    method RegisterModuleMethod(name: string, handler: Object -> string)
      modifies this`methods
      ensures methods == if name in old(methods) then old(methods) else old(methods)[name := handler]
    {
      if name !in methods {
        methods := methods[name := handler];
      }
    }

    method RegisterRpcCallback(suuid: string, callback: Callback)
      modifies this`callbacks
      ensures callbacks == if suuid in old(callbacks) then old(callbacks) else old(callbacks)[suuid := callback]
    {
      if suuid !in callbacks {
        callbacks := callbacks[suuid := callback];
      }
    }

    /** A generated handler: it fills the reply field by field. */
    method Serve(ch: Channel, cmd: Object, handler: Object -> string)
      modifies ch`pushed
      ensures ch.pushed == old(ch.pushed) + [Reply(cmd, handler(cmd))]
      ensures ch.pushed[|old(ch.pushed)|].fields == map[
        "suuid" := Field(cmd, "suuid"), "method" := Field(cmd, "method"),
        "rpcevent" := "reply_rpc_method", "ret" := handler(cmd)]
    {
      var ret := handler(cmd);
      var r := new ObjectRef();
      r.fields := r.fields["suuid" := Field(cmd, "suuid")];
      r.fields := r.fields["method" := Field(cmd, "method")];
      r.fields := r.fields["rpcevent" := REPLY];
      r.fields := r.fields["ret" := ret];
      assert Object(r.fields) == Reply(cmd, ret);
      ch.Push(Object(r.fields));
    }

    /** The main loop looks at one channel.  invoked are the callbacks it has called. */
    method DispatchOne(ch: Channel) returns (invoked: seq<Invoked>)
      modifies ch
      ensures ch.arrived == Rest(old(ch.arrived))
      ensures ch.pushed == old(ch.pushed) + Answers(methods, callbacks, old(ch.arrived))
      ensures invoked == Invocation(methods.Keys, callbacks, old(ch.arrived))
      // a call to a registered method gets one reply, with what the handler returns
      ensures old(ch.arrived) != [] ==>
        var cmd := old(ch.arrived)[0];
        var name := Field(cmd, "method");
        Field(cmd, "rpcevent") == "call_rpc_method" && name in methods ==>
          && invoked == [] && |ch.pushed| == |old(ch.pushed)| + 1 && ch.pushed[..|old(ch.pushed)|] == old(ch.pushed)
          && ch.pushed[|old(ch.pushed)|].fields == map["suuid" := Field(cmd, "suuid"), "method" := name,
             "rpcevent" := "reply_rpc_method", "ret" := methods[name](cmd)]
      // a reply whose identifier is registered is given to its callback
      ensures old(ch.arrived) != [] ==>
        var cmd := old(ch.arrived)[0];
        var suuid := Field(cmd, "suuid");
        Field(cmd, "rpcevent") == "reply_rpc_method" && suuid in callbacks ==>
          invoked == [Invoked(callbacks[suuid], cmd)] && ch.pushed == old(ch.pushed)
      // nothing else happens
      ensures old(ch.arrived) != [] ==>
        var cmd := old(ch.arrived)[0];
        !(Field(cmd, "rpcevent") == "call_rpc_method" && Field(cmd, "method") in methods) &&
        !(Field(cmd, "rpcevent") == "reply_rpc_method" && Field(cmd, "suuid") in callbacks) ==>
          invoked == [] && ch.pushed == old(ch.pushed)
      ensures old(ch.arrived) == [] ==> invoked == [] && ch.pushed == old(ch.pushed)
    {
      invoked := [];
      var o := ch.Pop();
      match o {
        case None =>
        case Some(cmd) =>
          if Field(cmd, "rpcevent") == CALL {
            if Field(cmd, "method") in methods {
              Serve(ch, cmd, methods[Field(cmd, "method")]);
            }
          } else if Field(cmd, "rpcevent") == REPLY {
            if Field(cmd, "suuid") in callbacks {
              invoked := [Invoked(callbacks[Field(cmd, "suuid")], cmd)];
            }
          }
      }
    }

    /** The first i channels have been looked at. */
    ghost predicate Served(all: seq<Channel>, i: nat, arrived: seq<seq<Object>>, sent: seq<seq<Object>>)
      requires |arrived| == |sent| == |all|
      reads this, all
    {
      && (forall j :: 0 <= j < i && j < |all| ==> all[j].arrived == Rest(arrived[j]))
      && (forall j :: 0 <= j < i && j < |all| ==> all[j].pushed == sent[j] + Answers(methods, callbacks, arrived[j]))
      && (forall j :: i <= j < |all| ==> all[j].arrived == arrived[j] && all[j].pushed == sent[j])
    }

    method DispatchNext(i: nat, ghost arrived: seq<seq<Object>>, ghost sent: seq<seq<Object>>)
      returns (invoked: seq<Invoked>)
      requires Valid() && i < |channels| == |arrived| == |sent| && Served(channels, i, arrived, sent)
      modifies channels[i]
      ensures Served(channels, i + 1, arrived, sent)
      ensures invoked == Invocation(methods.Keys, callbacks, arrived[i])
    {
      hide Answers, Rest, Invocation;
      invoked := DispatchOne(channels[i]);
    }

    /** One pass of the main loop over all channels. */
    method Dispatch() returns (invoked: seq<Invoked>)
      requires Valid()
      modifies channels
      ensures Valid()
      ensures forall i :: 0 <= i < |channels| ==> channels[i].arrived == Rest(old(channels[i].arrived))
      ensures forall i :: 0 <= i < |channels| ==>
        channels[i].pushed == old(channels[i].pushed) + Answers(methods, callbacks, old(channels[i].arrived))
      ensures invoked == Invocations(methods.Keys, callbacks, old(Arrived()))
    {
      ghost var arrived, sent := Arrived(), Sent();
      assert Invocations(methods.Keys, callbacks, arrived[..0]) == [];
      hide Arrived, Sent, Answers, Rest, Invocation, Invocations;
      invoked := [];
      var i := 0;
      while i < |channels|
        invariant i <= |channels| && unchanged(this) && Served(channels, i, arrived, sent)
        invariant invoked == Invocations(methods.Keys, callbacks, arrived[..i])
      {
        var more := DispatchNext(i, arrived, sent);
        InvocationsSnoc(methods.Keys, callbacks, arrived, i);
        invoked := invoked + more;
        i := i + 1;
      }
      assert arrived[..|channels|] == arrived;
    }
  }

  class Caller {
    const service: JuggleService
    const ch: Channel

    constructor (service: JuggleService, ch: Channel)
      ensures this.service == service && this.ch == ch
    {
      this.service, this.ch := service, ch;
    }

    /** The callback is registered before the request is pushed. */
    method CallModuleMethodAsync(name: string, value: ObjectRef, suuid: string, callback: Callback)
      modifies value, service`callbacks, ch`pushed
      ensures Object(value.fields) == Request(Object(old(value.fields)), name, suuid)
      ensures value.fields == old(value.fields)["method" := name]["suuid" := suuid]["rpcevent" := "call_rpc_method"]
      ensures service.callbacks ==
        if suuid in old(service.callbacks) then old(service.callbacks) else old(service.callbacks)[suuid := callback]
      ensures ch.pushed == old(ch.pushed) + [Object(value.fields)]
    {
      value.fields := value.fields["method" := name];
      value.fields := value.fields["suuid" := suuid];
      value.fields := value.fields["rpcevent" := CALL];
      service.RegisterRpcCallback(suuid, callback);
      ch.Push(Object(value.fields));
    }
  }
}
