/**
  The server's session dispatcher (src/server.js). Each listened session
  binds a receiver and a handler object; every message the receiver emits is
  dispatched to the handler's method and answered through the one sender all
  sessions share.

  The handler object is the map from property name to what `rpcHost[name]`
  resolves to (own or inherited); a callable property either returns a value
  or throws, as a function of the arguments.
 */
module Servers {

  import opened Values
  import opened Errors
  import opened Envelopes
  import Senders
  import Receivers

  /** The `timeToLive` of every reply, in milliseconds. */
  const ReplyTtl: int := 60000

  /** What invoking a handler method does: return (or resolve to) a value, or throw (or reject). */
  datatype Outcome = Returned(value: Json) | Threw(error: ErrorInfo)

  /** A property of the handler object: a function, or any other value. */
  datatype Member = Method(invoke: Json -> Outcome) | Field(value: Json)

  type Host = map<string, Member>

  datatype Session = Session(receiver: Receivers.Receiver, host: Host)

  datatype Server = Server(sessions: map<string, Session>, outbox: Senders.Sender)

  /** What dispatching one message produced. */
  datatype Dispatched = Dispatched(
    replies: seq<Envelope>,   // pushed to the sender, in this order
    invoked: bool,            // the handler method was called
    completed: bool)          // `msg.complete()` was called

  /** The states the server can reach: every listened session's receiver is running. */
  ghost predicate Valid(s: Server)
  {
    && Senders.Valid(s.outbox)
    && forall id :: id in s.sessions ==>
         Receivers.Valid(s.sessions[id].receiver) && !s.sessions[id].receiver.idle
  }

  function Init(): (s: Server)
    ensures Valid(s) && s.sessions == map[]
  {
    Server(map[], Senders.Init())
  }

  /** `reply(msg, content)`: the envelope addressed back to the caller of `msg`. */
  function Reply(msg: Envelope, content: map<string, Json>): (r: Envelope)
    ensures r.sessionId == msg.replyTo
    ensures r.timeToLive == Num(ReplyTtl)
    ensures Get(r.body, "callId") == msg.messageId || "callId" in content
    ensures forall key :: key in content ==> key in r.body && r.body[key] == content[key]
    ensures r.body.Keys == content.Keys + {"callId"}
  {
    Envelope(Undefined, map["callId" := msg.messageId] + content, msg.replyTo, Undefined, Num(ReplyTtl))
  }

  /** The `error` object of an error reply: name, code, details and stack of the caught error. */
  function ErrorToWire(e: ErrorInfo): Json
  {
    Obj(map["name" := e.name, "code" := e.code, "details" := e.details, "stack" := e.stack])
  }

  /** The `error` object the client's reconstruction expects: the message travels too. */
  function ErrorToWireCorrected(e: ErrorInfo): Json
  {
    Obj(map["name" := e.name, "message" := e.message, "code" := e.code,
            "details" := e.details, "stack" := e.stack])
  }

  /** The `MethodNotFoundError` thrown for a missing or non-callable method; `stack` is the runtime's trace. */
  function NotFound(name: Json, stack: Json): ErrorInfo
  {
    Describe(MethodNotFoundError, "Method \"" + ToStr(name) + "\" does not exist", stack)
  }

  /** Whether `rpcHost[name] instanceof Function`. */
  predicate Callable(host: Host, name: Json)
  {
    ToStr(name) in host && host[ToStr(name)].Method?
  }

  /**
    The message listener of a session, with the error object encoded by
    `wire`: a method that is not callable gets exactly one error reply;
    otherwise an acknowledgement goes out before the method runs, then its
    result or the error it threw. The message is completed on every path.
   */
  function DispatchWith(host: Host, msg: Envelope, stack: Json, wire: ErrorInfo -> Json)
    : (d: Dispatched)
    ensures d.completed
    ensures forall i :: 0 <= i < |d.replies| ==>
      && d.replies[i].sessionId == msg.replyTo
      && Get(d.replies[i].body, "callId") == msg.messageId
      && d.replies[i].timeToLive == Num(ReplyTtl)
    ensures d.invoked <==> Callable(host, Get(msg.body, "method"))
    ensures !d.invoked ==>
      && |d.replies| == 1
      && d.replies[0].body.Keys == {"callId", "error"}
      && d.replies[0].body["error"] == wire(NotFound(Get(msg.body, "method"), stack))
    ensures d.invoked ==>
      var outcome := host[ToStr(Get(msg.body, "method"))].invoke(Get(msg.body, "args"));
      && |d.replies| == 2
      && d.replies[0].body == map["callId" := msg.messageId, "acknowledgement" := Bool(true)]
      && (outcome.Returned? ==>
            d.replies[1].body == map["callId" := msg.messageId, "result" := outcome.value])
      && (outcome.Threw? ==>
            d.replies[1].body == map["callId" := msg.messageId, "error" := wire(outcome.error)])
  {
    var name := Get(msg.body, "method");
    if !Callable(host, name) then
      Dispatched([Reply(msg, map["error" := wire(NotFound(name, stack))])], false, true)
    else
      var ack := Reply(msg, map["acknowledgement" := Bool(true)]);
      match host[ToStr(name)].invoke(Get(msg.body, "args"))
      case Returned(v) => Dispatched([ack, Reply(msg, map["result" := v])], true, true)
      case Threw(e) => Dispatched([ack, Reply(msg, map["error" := wire(e)])], true, true)
  }

  /** The listener as written: the error object it sends has no `message`. */
  function Dispatch(host: Host, msg: Envelope, stack: Json): (d: Dispatched)
    ensures d.completed && 1 <= |d.replies| <= 2
    ensures forall i :: 0 <= i < |d.replies| && "error" in d.replies[i].body ==>
      && d.replies[i].body["error"].Obj?
      && "message" !in d.replies[i].body["error"].fields
  {
    DispatchWith(host, msg, stack, ErrorToWire)
  }

  /** The listener with the error's message included in the error reply. */
  function DispatchCorrected(host: Host, msg: Envelope, stack: Json): (d: Dispatched)
    ensures d.completed && 1 <= |d.replies| <= 2
    ensures !d.invoked ==>
      Prop(Get(d.replies[0].body, "error"), "message")
        == Str("Method \"" + ToStr(Get(msg.body, "method")) + "\" does not exist")
  {
    DispatchWith(host, msg, stack, ErrorToWireCorrected)
  }

  /**
    `listen(sessionId, rpcHost)`: a no-op for a session already listened
    to; otherwise store a new receiver with the handler and start it.
   */
  function Listen(s: Server, id: string, host: Host): (r: Server)
    requires Valid(s)
    ensures Valid(r)
    ensures id in s.sessions ==> r == s
    ensures id !in s.sessions ==>
      && r.sessions.Keys == s.sessions.Keys + {id}
      && r.sessions[id].host == host
      && r.sessions[id].receiver == Receivers.Start(Receivers.Init())
      && (forall other :: other in s.sessions ==> r.sessions[other] == s.sessions[other])
    ensures r.outbox == s.outbox
  {
    if id in s.sessions then s
    else s.(sessions := s.sessions[id := Session(Receivers.Start(Receivers.Init()), host)])
  }

  /** `closeSession(sessionId)`: drop the session and stop its receiver; absent ids change nothing. */
  function CloseSession(s: Server, id: string): (r: Server)
    requires Valid(s)
    ensures Valid(r)
    ensures id !in s.sessions ==> r == s
    ensures r.sessions.Keys == s.sessions.Keys - {id}
    ensures forall other :: other in r.sessions ==> r.sessions[other] == s.sessions[other]
    ensures r.outbox == s.outbox
  {
    if id !in s.sessions then s
    else s.(sessions := s.sessions - {id})
  }

  /** `close()`: every session is closed; the shared sender is left as it is. */
  function Close(s: Server): (r: Server)
    requires Valid(s)
    ensures Valid(r)
    ensures r.sessions == map[]
    ensures r.outbox == s.outbox
  {
    s.(sessions := map[])
  }

  /**
    A message emitted by the receiver of session `id`: its replies join the
    shared sender's queue in dispatch order. A session no longer listened to
    has no listener left.
   */
  function OnMessage(s: Server, id: string, msg: Envelope, stack: Json): (r: Server)
    requires Valid(s)
    ensures Valid(r)
    ensures r.sessions == s.sessions
    ensures id !in s.sessions ==> r == s
    ensures id in s.sessions ==>
      Senders.Contents(Senders.Outstanding(r.outbox))
        == Senders.Contents(Senders.Outstanding(s.outbox))
           + Dispatch(s.sessions[id].host, msg, stack).replies
  {
    if id !in s.sessions then s
    else
      var replies := Dispatch(s.sessions[id].host, msg, stack).replies;
      Senders.SendAllAppends(s.outbox, replies);
      s.(outbox := Senders.SendAll(s.outbox, replies))
  }

  /** Listening again keeps the first receiver and handler. */
  lemma ListenIdempotent(s: Server, id: string, first: Host, second: Host)
    requires Valid(s)
    ensures Listen(Listen(s, id, first), id, second) == Listen(s, id, first)
  {
  }

  /** Closing a session just listened to restores the session map. */
  lemma CloseSessionUndoesListen(s: Server, id: string, host: Host)
    requires Valid(s) && id !in s.sessions
    ensures CloseSession(Listen(s, id, host), id).sessions == s.sessions
  {
    assert CloseSession(Listen(s, id, host), id).sessions.Keys == s.sessions.Keys;
  }

}
