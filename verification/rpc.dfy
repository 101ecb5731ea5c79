/**
  Client and server together: a call's envelope is dispatched by the
  server's handler and the replies come back, in order, on the client's
  session. The transport between them is taken to deliver envelopes
  unchanged and, within a session, in the order they were sent.

  Two defects show up here. A handler result that is falsy never settles
  the call, which then times out; and the error message never reaches the
  caller. Each is exhibited on the code as written and proved absent from
  the corrected definitions.
 */
module Rpc {

  import opened Wrappers
  import opened Values
  import opened Errors
  import opened Envelopes
  import Clients
  import Servers

  /** The client consumes replies one after another, in arrival order. */
  function Deliver(c: Clients.Client, replies: seq<Envelope>, corrected: bool): (r: Clients.Client)
    requires Clients.Valid(c)
    ensures Clients.Valid(r) && Clients.Extends(c, r)
    decreases |replies|
  {
    if replies == [] then c
    else
      var next := Clients.Step(c, Clients.Incoming(replies[0]), corrected);
      var r := Deliver(next, replies[1..], corrected);
      Clients.ExtendsTransitive(c, next, r);
      r
  }

  /** The replies the server sends for `env`: as written, or with the corrected error reply. */
  function Replies(host: Servers.Host, env: Envelope, stack: Json, corrected: bool): seq<Envelope>
  {
    if corrected then Servers.DispatchCorrected(host, env, stack).replies
    else Servers.Dispatch(host, env, stack).replies
  }

  /**
    The client after calling `name` on a session served by `host`, once the
    server's replies have come back: both sides as written, or both corrected.
   */
  function RoundTrip(c: Clients.Client, id: string, target: Json, name: Json, args: Json,
                     ttlOption: Json, host: Servers.Host, stack: Json, corrected: bool)
    : (r: Clients.Client)
    requires Clients.Valid(c) && id !in c.calls
    ensures Clients.Valid(r)
    ensures id in r.calls
  {
    var sent := Clients.Call(c, id, target, name, args, ttlOption);
    Deliver(sent.0, Replies(host, sent.1, stack, corrected), corrected)
  }

  /** The reply body carries the call's id, so it matches the registered call. */
  lemma ReplyMatches(c: Clients.Client, id: string, reply: Envelope)
    requires id in c.registry
    requires Get(reply.body, "callId") == Str(id)
    ensures Clients.Match(c, reply).Some? && Clients.Match(c, reply).value == id
  {
  }

  /** The error a caller sees, as written: every property but the message survives. */
  lemma ErrorWireDropsMessage(e: ErrorInfo)
    ensures Clients.ErrorFromWire(Servers.ErrorToWire(e)) == e.(message := Str(""))
  {
  }

  /** With the message sent along, the caller sees exactly the error the handler threw. */
  lemma ErrorWireRoundTrip(e: ErrorInfo)
    requires e.message.Str?
    ensures Clients.ErrorFromWire(Servers.ErrorToWireCorrected(e)) == e
  {
  }

  /** How the client reads a reply body: as written, or corrected. */
  function KindOf(body: map<string, Json>, corrected: bool): Clients.Kind
  {
    if corrected then Clients.Classify(body) else Clients.ClassifyAsWritten(body)
  }

  /** The body of the last reply of a dispatch. */
  function LastBody(d: Servers.Dispatched): map<string, Json>
    requires |d.replies| > 0
  {
    d.replies[|d.replies| - 1].body
  }

  /** A reply naming a registered call is applied to that call. */
  lemma StepReply(c: Clients.Client, id: string, msg: Envelope, corrected: bool)
    requires Clients.Valid(c) && id in c.registry
    requires Get(msg.body, "callId") == Str(id)
    ensures Clients.Step(c, Clients.Incoming(msg), corrected) == Clients.Apply(c, id, KindOf(msg.body, corrected))
  {
    assert Clients.Match(c, msg) == Some(id);
  }

  /** Delivering two replies is applying the first, then the second. */
  lemma DeliverTwo(c: Clients.Client, replies: seq<Envelope>, corrected: bool)
    requires Clients.Valid(c) && |replies| == 2
    ensures Deliver(c, replies, corrected)
         == Clients.Step(Clients.Step(c, Clients.Incoming(replies[0]), corrected),
                         Clients.Incoming(replies[1]), corrected)
  {
    var first := Clients.Step(c, Clients.Incoming(replies[0]), corrected);
    assert replies[1..][1..] == [];
    assert Deliver(first, replies[1..], corrected)
        == Deliver(Clients.Step(first, Clients.Incoming(replies[1]), corrected), [], corrected);
  }

  /** Delivering one reply is applying it. */
  lemma DeliverOne(c: Clients.Client, replies: seq<Envelope>, corrected: bool)
    requires Clients.Valid(c) && |replies| == 1
    ensures Deliver(c, replies, corrected) == Clients.Step(c, Clients.Incoming(replies[0]), corrected)
  {
    assert replies[1..] == [];
  }

  /** The reading of a call's last reply settles it, or leaves it as it was. */
  lemma ApplyLast(c: Clients.Client, id: string, kind: Clients.Kind)
    requires Clients.Valid(c) && id in c.registry && c.calls[id].settlement.Pending?
    ensures var r := Clients.Apply(c, id, kind);
      && (kind.Resolve? ==> r.calls[id].settlement == Clients.Resolved(kind.value) && id !in r.registry)
      && (kind.Reject? ==>
            r.calls[id].settlement == Clients.Rejected(Foreign(Clients.ErrorFromWire(kind.wire)))
            && id !in r.registry)
      && (kind.NoMatch? ==>
            r.calls[id].settlement.Pending? && id in r.registry && r.calls[id].timer == c.calls[id].timer)
  {
  }

  /** An acknowledgement re-arms the call's timer and leaves it pending and registered. */
  lemma DeliverAcknowledged(c: Clients.Client, id: string, replies: seq<Envelope>, corrected: bool)
    requires Clients.Valid(c) && id in c.registry && c.calls[id].settlement.Pending?
    requires |replies| == 2
    requires Get(replies[1].body, "callId") == Str(id)
    requires replies[0].body == map["callId" := Str(id), "acknowledgement" := Bool(true)]
    ensures var first := Clients.Apply(c, id, Clients.Acknowledge);
      && Clients.Valid(first) && id in first.registry && first.calls[id].settlement.Pending?
      && first.calls[id].timer == Clients.Armed(c.calls[id].ttl)
      && Deliver(c, replies, corrected) == Clients.Apply(first, id, KindOf(replies[1].body, corrected))
  {
    StepReply(c, id, replies[0], corrected);
    assert KindOf(replies[0].body, corrected) == Clients.Acknowledge;
    var first := Clients.Apply(c, id, Clients.Acknowledge);
    StepReply(first, id, replies[1], corrected);
    DeliverTwo(c, replies, corrected);
  }

  /**
    The replies of a dispatched call, delivered to a client that registered
    it: an optional acknowledgement, then a last reply whose reading settles
    the call or leaves it pending.
   */
  lemma DeliverDispatched(c: Clients.Client, id: string, d: Servers.Dispatched, corrected: bool)
    requires Clients.Valid(c) && id in c.registry && c.calls[id].settlement.Pending?
    requires c.calls[id].timer == Clients.Armed(c.calls[id].ttl)
    requires |d.replies| == 2 || |d.replies| == 1
    requires forall i :: 0 <= i < |d.replies| ==> Get(d.replies[i].body, "callId") == Str(id)
    requires |d.replies| == 2 ==> d.replies[0].body == map["callId" := Str(id), "acknowledgement" := Bool(true)]
    ensures var kind := KindOf(LastBody(d), corrected);
      var r := Deliver(c, d.replies, corrected);
      && (kind.Resolve? ==> r.calls[id].settlement == Clients.Resolved(kind.value) && id !in r.registry)
      && (kind.Reject? ==>
            r.calls[id].settlement == Clients.Rejected(Foreign(Clients.ErrorFromWire(kind.wire)))
            && id !in r.registry)
      && (kind.NoMatch? ==>
            r.calls[id].settlement.Pending? && id in r.registry
            && r.calls[id].timer == Clients.Armed(c.calls[id].ttl))
  {
    var kind := KindOf(LastBody(d), corrected);
    if |d.replies| == 2 {
      DeliverAcknowledged(c, id, d.replies, corrected);
      var first := Clients.Apply(c, id, Clients.Acknowledge);
      ApplyLast(first, id, kind);
    } else {
      StepReply(c, id, d.replies[0], corrected);
      DeliverOne(c, d.replies, corrected);
      ApplyLast(c, id, kind);
    }
  }

  /** The replies of `DispatchWith` for a registered request meet what `DeliverDispatched` needs. */
  lemma DispatchedShape(host: Servers.Host, env: Envelope, stack: Json, wire: ErrorInfo -> Json, id: string)
    requires env.messageId == Str(id)
    ensures var d := Servers.DispatchWith(host, env, stack, wire);
      && (|d.replies| == 2 || |d.replies| == 1)
      && (forall i :: 0 <= i < |d.replies| ==> Get(d.replies[i].body, "callId") == Str(id))
      && (|d.replies| == 2 ==> d.replies[0].body == map["callId" := Str(id), "acknowledgement" := Bool(true)])
  {
  }

  /** The error encoding of the server's error replies. */
  function Wire(corrected: bool): ErrorInfo -> Json
  {
    if corrected then Servers.ErrorToWireCorrected else Servers.ErrorToWire
  }

  /** A round trip is the call followed by the delivery of the server's replies. */
  lemma RoundTripUnfolds(c: Clients.Client, id: string, target: Json, name: Json, args: Json,
                         ttlOption: Json, host: Servers.Host, stack: Json, corrected: bool)
    requires Clients.Valid(c) && id !in c.calls
    ensures var sent := Clients.Call(c, id, target, name, args, ttlOption);
      RoundTrip(c, id, target, name, args, ttlOption, host, stack, corrected)
        == Deliver(sent.0, Servers.DispatchWith(host, sent.1, stack, Wire(corrected)).replies, corrected)
  {
  }

  /**
    A round trip settles the call as the client's reading of the server's
    last reply says, or leaves it pending with its timer armed.
   */
  lemma RoundTripReadsLastReply(c: Clients.Client, id: string, target: Json, name: Json, args: Json,
                                ttlOption: Json, host: Servers.Host, stack: Json, corrected: bool)
    requires Clients.Valid(c) && id !in c.calls
    ensures var env := Clients.Call(c, id, target, name, args, ttlOption).1;
      var kind := KindOf(LastBody(Servers.DispatchWith(host, env, stack, Wire(corrected))), corrected);
      var r := RoundTrip(c, id, target, name, args, ttlOption, host, stack, corrected);
      && (kind.Resolve? ==> r.calls[id].settlement == Clients.Resolved(kind.value) && id !in r.registry)
      && (kind.Reject? ==>
            r.calls[id].settlement == Clients.Rejected(Foreign(Clients.ErrorFromWire(kind.wire)))
            && id !in r.registry)
      && (kind.NoMatch? ==>
            r.calls[id].settlement.Pending? && id in r.registry
            && r.calls[id].timer == Clients.Armed(Clients.Ttl(ttlOption)))
  {
    var sent := Clients.Call(c, id, target, name, args, ttlOption);
    var d := Servers.DispatchWith(host, sent.1, stack, Wire(corrected));
    RoundTripUnfolds(c, id, target, name, args, ttlOption, host, stack, corrected);
    DispatchedShape(host, sent.1, stack, Wire(corrected), id);
    DeliverDispatched(sent.0, id, d, corrected);
    assert sent.0.calls[id].ttl == Clients.Ttl(ttlOption);
  }

  /**
    The server's last reply to a request: the error for a method it cannot
    call, otherwise the method's result or the error it threw.
   */
  lemma LastReplyIs(host: Servers.Host, env: Envelope, stack: Json, corrected: bool)
    ensures var name := Get(env.body, "method");
      var outcome := if Servers.Callable(host, name) then Some(host[ToStr(name)].invoke(Get(env.body, "args"))) else None;
      var body := LastBody(Servers.DispatchWith(host, env, stack, Wire(corrected)));
      && (outcome.None? ==>
            body == map["callId" := env.messageId, "error" := Wire(corrected)(Servers.NotFound(name, stack))])
      && (outcome.Some? && outcome.value.Returned? ==>
            body == map["callId" := env.messageId, "result" := outcome.value.value])
      && (outcome.Some? && outcome.value.Threw? ==>
            body == map["callId" := env.messageId, "error" := Wire(corrected)(outcome.value.error)])
  {
  }

  /** The request a call sends names the method and arguments it was given. */
  lemma CallRequest(c: Clients.Client, id: string, target: Json, name: Json, args: Json, ttlOption: Json)
    requires Clients.Valid(c) && id !in c.calls
    ensures var env := Clients.Call(c, id, target, name, args, ttlOption).1;
      env.messageId == Str(id) && Get(env.body, "method") == name && Get(env.body, "args") == args
  {
  }

  /** A result reply is read as a result only when the value is truthy, unless corrected. */
  lemma ResultBodyKind(id: string, v: Json, corrected: bool)
    ensures KindOf(map["callId" := Str(id), "result" := v], corrected)
         == if corrected || Truthy(v) then Clients.Resolve(v) else Clients.NoMatch
  {
    var body := map["callId" := Str(id), "result" := v];
    assert Get(body, "acknowledgement") == Undefined && Get(body, "error") == Undefined;
  }

  /** An error reply is read as an error, as written and corrected. */
  lemma ErrorBodyKind(id: string, w: Json, corrected: bool)
    requires Truthy(w)
    ensures KindOf(map["callId" := Str(id), "error" := w], corrected) == Clients.Reject(w)
  {
    var body := map["callId" := Str(id), "error" := w];
    assert Get(body, "acknowledgement") == Undefined && Get(body, "result") == Undefined;
  }

  /**
    As written: a call to a method that returns `v` resolves with `v` only
    when `v` is truthy; a falsy result leaves the call pending and registered,
    with its timer re-armed by the acknowledgement.
   */
  lemma ResultReachesCallerAsWritten(c: Clients.Client, id: string, target: Json, name: Json,
                                     args: Json, ttlOption: Json, host: Servers.Host, stack: Json)
    requires Clients.Valid(c) && id !in c.calls
    requires Servers.Callable(host, name)
    requires host[ToStr(name)].invoke(args).Returned?
    ensures var v := host[ToStr(name)].invoke(args).value;
      var r := RoundTrip(c, id, target, name, args, ttlOption, host, stack, false);
      && (Truthy(v) ==> r.calls[id].settlement == Clients.Resolved(v) && id !in r.registry)
      && (!Truthy(v) ==>
            && r.calls[id].settlement.Pending? && id in r.registry
            && r.calls[id].timer == Clients.Armed(Clients.Ttl(ttlOption)))
  {
    CallRequest(c, id, target, name, args, ttlOption);
    LastReplyIs(host, Clients.Call(c, id, target, name, args, ttlOption).1, stack, false);
    ResultBodyKind(id, host[ToStr(name)].invoke(args).value, false);
    RoundTripReadsLastReply(c, id, target, name, args, ttlOption, host, stack, false);
  }

  /** Corrected: a call to a method that returns `v` resolves with `v`, whatever `v` is. */
  lemma ResultReachesCaller(c: Clients.Client, id: string, target: Json, name: Json,
                            args: Json, ttlOption: Json, host: Servers.Host, stack: Json)
    requires Clients.Valid(c) && id !in c.calls
    requires Servers.Callable(host, name)
    requires host[ToStr(name)].invoke(args).Returned?
    ensures var r := RoundTrip(c, id, target, name, args, ttlOption, host, stack, true);
      && r.calls[id].settlement == Clients.Resolved(host[ToStr(name)].invoke(args).value)
      && id !in r.registry
  {
    CallRequest(c, id, target, name, args, ttlOption);
    LastReplyIs(host, Clients.Call(c, id, target, name, args, ttlOption).1, stack, true);
    ResultBodyKind(id, host[ToStr(name)].invoke(args).value, true);
    RoundTripReadsLastReply(c, id, target, name, args, ttlOption, host, stack, true);
  }

  /** As written: a thrown error reaches the caller with its message emptied. */
  lemma ThrownErrorReachesCallerAsWritten(c: Clients.Client, id: string, target: Json, name: Json,
                                          args: Json, ttlOption: Json, host: Servers.Host, stack: Json)
    requires Clients.Valid(c) && id !in c.calls
    requires Servers.Callable(host, name)
    requires host[ToStr(name)].invoke(args).Threw?
    ensures var e := host[ToStr(name)].invoke(args).error;
      var r := RoundTrip(c, id, target, name, args, ttlOption, host, stack, false);
      && r.calls[id].settlement == Clients.Rejected(Foreign(e.(message := Str(""))))
      && id !in r.registry
  {
    var e := host[ToStr(name)].invoke(args).error;
    CallRequest(c, id, target, name, args, ttlOption);
    LastReplyIs(host, Clients.Call(c, id, target, name, args, ttlOption).1, stack, false);
    assert Wire(false)(e) == Servers.ErrorToWire(e);
    ErrorBodyKind(id, Servers.ErrorToWire(e), false);
    ErrorWireDropsMessage(e);
    RoundTripReadsLastReply(c, id, target, name, args, ttlOption, host, stack, false);
  }

  /** Corrected: a thrown error reaches the caller with all five properties intact. */
  lemma ThrownErrorReachesCaller(c: Clients.Client, id: string, target: Json, name: Json,
                                 args: Json, ttlOption: Json, host: Servers.Host, stack: Json)
    requires Clients.Valid(c) && id !in c.calls
    requires Servers.Callable(host, name)
    requires host[ToStr(name)].invoke(args).Threw?
    requires host[ToStr(name)].invoke(args).error.message.Str?
    ensures var r := RoundTrip(c, id, target, name, args, ttlOption, host, stack, true);
      && r.calls[id].settlement == Clients.Rejected(Foreign(host[ToStr(name)].invoke(args).error))
      && id !in r.registry
  {
    var e := host[ToStr(name)].invoke(args).error;
    CallRequest(c, id, target, name, args, ttlOption);
    LastReplyIs(host, Clients.Call(c, id, target, name, args, ttlOption).1, stack, true);
    assert Wire(true)(e) == Servers.ErrorToWireCorrected(e);
    ErrorBodyKind(id, Servers.ErrorToWireCorrected(e), true);
    ErrorWireRoundTrip(e);
    RoundTripReadsLastReply(c, id, target, name, args, ttlOption, host, stack, true);
  }

  /**
    As written: a call to a method the handler does not have is rejected
    without acknowledgement, by an error that carries only the name "Error"
    and the stack.
   */
  lemma MissingMethodRejectsAsWritten(c: Clients.Client, id: string, target: Json, name: Json,
                                      args: Json, ttlOption: Json, host: Servers.Host, stack: Json)
    requires Clients.Valid(c) && id !in c.calls
    requires !Servers.Callable(host, name)
    ensures var r := RoundTrip(c, id, target, name, args, ttlOption, host, stack, false);
      && r.calls[id].settlement
           == Clients.Rejected(Foreign(ErrorInfo(Str("Error"), Str(""), Undefined, Undefined, stack)))
      && id !in r.registry
  {
    var e := Servers.NotFound(name, stack);
    CallRequest(c, id, target, name, args, ttlOption);
    LastReplyIs(host, Clients.Call(c, id, target, name, args, ttlOption).1, stack, false);
    assert Wire(false)(e) == Servers.ErrorToWire(e);
    ErrorBodyKind(id, Servers.ErrorToWire(e), false);
    ErrorWireDropsMessage(e);
    RoundTripReadsLastReply(c, id, target, name, args, ttlOption, host, stack, false);
  }

  /** Corrected: the rejection names the missing method in its message. */
  lemma MissingMethodRejects(c: Clients.Client, id: string, target: Json, name: Json,
                             args: Json, ttlOption: Json, host: Servers.Host, stack: Json)
    requires Clients.Valid(c) && id !in c.calls
    requires !Servers.Callable(host, name)
    ensures var r := RoundTrip(c, id, target, name, args, ttlOption, host, stack, true);
      && r.calls[id].settlement == Clients.Rejected(Foreign(Servers.NotFound(name, stack)))
      && r.calls[id].settlement.reason.info.message
           == Str("Method \"" + ToStr(name) + "\" does not exist")
      && id !in r.registry
  {
    var e := Servers.NotFound(name, stack);
    CallRequest(c, id, target, name, args, ttlOption);
    LastReplyIs(host, Clients.Call(c, id, target, name, args, ttlOption).1, stack, true);
    assert Wire(true)(e) == Servers.ErrorToWireCorrected(e);
    ErrorBodyKind(id, Servers.ErrorToWireCorrected(e), true);
    ErrorWireRoundTrip(e);
    RoundTripReadsLastReply(c, id, target, name, args, ttlOption, host, stack, true);
  }

  /** A handler object with an `echo` method that returns its argument. */
  function EchoHost(): Servers.Host
  {
    map["echo" := Servers.Method(x => Servers.Returned(x))]
  }

  /**
    The defect on a concrete call: echoing `0` gets an acknowledgement and a
    result, yet the call stays pending and the timer then rejects it.
   */
  lemma EchoZeroTimesOut(uuid: string, stack: Json)
    ensures var r := RoundTrip(Clients.Init(uuid), "call-1", Str("session"), Str("echo"), Num(0),
                               Undefined, EchoHost(), stack, false);
      && r.calls["call-1"].settlement.Pending?
      && Clients.TimeoutFired(r, "call-1").calls["call-1"].settlement
           == Clients.Rejected(Raised(TimeoutError, "Timeout"))
  {
    ResultReachesCallerAsWritten(Clients.Init(uuid), "call-1", Str("session"), Str("echo"),
                                 Num(0), Undefined, EchoHost(), stack);
  }

  /** Echoing a non-empty object returns that object to the caller, even as written. */
  lemma EchoObjectResolves(uuid: string, stack: Json)
    ensures var args := Obj(map["rand" := Num(42)]);
      RoundTrip(Clients.Init(uuid), "call-1", Str("session"), Str("echo"), args,
                Num(50000), EchoHost(), stack, false)
        .calls["call-1"].settlement == Clients.Resolved(args)
  {
    var args := Obj(map["rand" := Num(42)]);
    assert ToStr(Str("echo")) == "echo";
    assert EchoHost()["echo"].invoke(args) == Servers.Returned(args);
    assert Truthy(args);
    ResultReachesCallerAsWritten(Clients.Init(uuid), "call-1", Str("session"), Str("echo"),
                                 args, Num(50000), EchoHost(), stack);
  }

  /**
    The other defect on a concrete call: `mul` on a handler that only has
    `echo` is rejected, but the caller's error has an empty message, where
    the server threw one naming the method.
   */
  lemma MulOnEchoHostLosesMessage(uuid: string, stack: Json)
    ensures var args := Obj(map["a" := Num(5), "b" := Num(3)]);
      var r := RoundTrip(Clients.Init(uuid), "call-3", Str("test6"), Str("mul"), args,
                         Num(50000), EchoHost(), stack, false);
      && r.calls["call-3"].settlement
           == Clients.Rejected(Foreign(ErrorInfo(Str("Error"), Str(""), Undefined, Undefined, stack)))
      && Servers.NotFound(Str("mul"), stack).message != Str("")
  {
    var args := Obj(map["a" := Num(5), "b" := Num(3)]);
    assert ToStr(Str("mul")) == "mul";
    assert !Servers.Callable(EchoHost(), Str("mul"));
    MissingMethodRejectsAsWritten(Clients.Init(uuid), "call-3", Str("test6"), Str("mul"),
                                  args, Num(50000), EchoHost(), stack);
  }
}
