/**
  The client's call registry (src/client.js). A call registers its envelope
  under a fresh message id, arms a timeout of `ttl` and hands the envelope to
  the client's sender. Replies arriving on the client's own session are
  matched by `callId`: an acknowledgement re-arms the timeout, a result
  resolves and an error rejects, both removing the entry. A timeout that
  fires rejects the call but leaves its entry registered.

  Besides the registry (`calls` in the source) the model keeps, for every
  call ever made, the state of the promise returned to the caller and of its
  timer, so that what happens to a call after it leaves the registry stays
  observable.
 */
module Clients {

  import opened Wrappers
  import opened Values
  import opened Errors
  import opened Envelopes
  import Senders
  import Receivers

  /** The call timeout when no truthy `options.ttl` is given, in milliseconds. */
  const DefaultTtl: int := 30000

  /** The call's `timeout` handle: cleared, or a pending `setTimeout` of `ms`. */
  datatype Timer = Cleared | Armed(ms: Json)

  /** The promise `call` returned. */
  datatype Settlement = Pending | Resolved(value: Json) | Rejected(reason: Fault)

  /** One call as its closures see it: the window, the promise, the timer and how often it was armed. */
  datatype CallState = CallState(ttl: Json, settlement: Settlement, timer: Timer, arms: nat)

  datatype Client = Client(
    uuid: string,                      // the client's own reply session
    registry: map<string, Envelope>,   // live entries, keyed by message id
    calls: map<string, CallState>,     // every call made, registered or not
    outbox: Senders.Sender,
    receiver: Receivers.Receiver)

  /** How a matched reply is understood. */
  datatype Kind = Acknowledge | Resolve(value: Json) | Reject(wire: Json) | NoMatch

  /** What the client reacts to. */
  datatype Event =
    | Invoke(id: string, target: Json, name: Json, args: Json, ttlOption: Json)
    | Incoming(msg: Envelope)
    | TimerFired(id: string)
    | Outbox(e: Senders.Event)
    | Shutdown

  /** A call's window is truthy, and a call still pending always has a timer armed for that window. */
  predicate CallValid(k: CallState)
  {
    && Truthy(k.ttl)
    && (k.settlement.Pending? ==> k.timer == Armed(k.ttl))
    && (k.timer.Armed? ==> k.timer.ms == k.ttl)
  }

  /** A registered envelope is the request this client sent for that id. */
  predicate RequestFor(c: Client, id: string, env: Envelope)
  {
    && env.messageId == Str(id)
    && env.replyTo == Str(c.uuid)
    && id in c.calls
    && env.timeToLive == c.calls[id].ttl
  }

  /** The states the client can reach. */
  ghost predicate Valid(c: Client)
  {
    && Senders.Valid(c.outbox)
    && Receivers.Valid(c.receiver)
    && c.registry.Keys <= c.calls.Keys
    && (forall id :: id in c.calls ==> CallValid(c.calls[id]))
    && (forall id :: id in c.calls && id !in c.registry ==> !c.calls[id].settlement.Pending?)
    && (forall id :: id in c.registry ==> RequestFor(c, id, c.registry[id]))
  }

  /** `r` knows every call `c` knows, and no promise settled in `c` changed. */
  ghost predicate Extends(c: Client, r: Client)
  {
    forall id :: id in c.calls ==>
      id in r.calls
      && (!c.calls[id].settlement.Pending? ==> r.calls[id].settlement == c.calls[id].settlement)
  }

  /** The constructor: an empty registry, an idle sender and the reply receiver started. */
  function Init(uuid: string): (c: Client)
    ensures Valid(c)
    ensures c.registry == map[] && c.calls == map[]
    ensures !c.receiver.idle
  {
    Client(uuid, map[], map[], Senders.Init(), Receivers.Start(Receivers.Init()))
  }

  /** `options.ttl || DEFAULT_TTL`. */
  function Ttl(option: Json): (ttl: Json)
    ensures Truthy(ttl)
    ensures Truthy(option) ==> ttl == option
    ensures !Truthy(option) ==> ttl == Num(DefaultTtl)
  {
    if Truthy(option) then option else Num(DefaultTtl)
  }

  /** The request envelope of a call. */
  function Request(c: Client, id: string, target: Json, name: Json, args: Json, ttl: Json): Envelope
  {
    Envelope(Str(id), map["method" := name, "args" := args], target, Str(c.uuid), ttl)
  }

  /** `calls.set(messageId, ...)` followed by the first `refreshTimeout(ttl)`. */
  function Register(c: Client, id: string, env: Envelope): (r: Client)
    requires Valid(c)
    requires id !in c.calls
    requires env.messageId == Str(id) && env.replyTo == Str(c.uuid) && Truthy(env.timeToLive)
    ensures Valid(r)
    ensures r.registry == c.registry[id := env]
    ensures r.calls.Keys == c.calls.Keys + {id}
    ensures r.calls[id].settlement == Pending && r.calls[id].timer == Armed(env.timeToLive)
    ensures forall other :: other in c.calls ==> r.calls[other] == c.calls[other]
    ensures r.outbox == c.outbox && r.receiver == c.receiver && r.uuid == c.uuid
  {
    c.(registry := c.registry[id := env],
       calls := c.calls[id := CallState(env.timeToLive, Pending, Armed(env.timeToLive), 1)])
  }

  /**
    `call(sessionId, method, args, options)`: build the request, register it
    with its timeout armed, then hand it to the sender. The fresh uuid of the
    source is the requirement that the id was never used by this client.
   */
  function Call(c: Client, id: string, target: Json, name: Json, args: Json, ttlOption: Json)
    : (res: (Client, Envelope))
    requires Valid(c)
    requires id !in c.calls
    ensures Valid(res.0) && Extends(c, res.0)
    ensures res.1.messageId == Str(id) && res.1.sessionId == target && res.1.replyTo == Str(c.uuid)
    ensures res.1.body == map["method" := name, "args" := args]
    ensures res.1.timeToLive == Ttl(ttlOption)
    ensures res.0.registry == c.registry[id := res.1]
    ensures res.0.calls[id].settlement == Pending && res.0.calls[id].timer == Armed(Ttl(ttlOption))
    ensures res.0.calls[id].ttl == Ttl(ttlOption)
    ensures forall other :: other in c.calls ==> res.0.calls[other] == c.calls[other]
    ensures Senders.Outstanding(res.0.outbox)
         == Senders.Outstanding(c.outbox) + [Senders.Entry(res.1, c.outbox.enqueued)]
    ensures res.0.receiver == c.receiver && res.0.uuid == c.uuid
  {
    var env := Request(c, id, target, name, args, Ttl(ttlOption));
    var registered := Register(c, id, env);
    (registered.(outbox := Senders.Send(registered.outbox, env)), env)
  }

  /** The `switch (true)` of `onReceiverMessage`: the first truthy field, in this order, decides. */
  function ClassifyAsWritten(body: map<string, Json>): (k: Kind)
    ensures k.Acknowledge? <==> Truthy(Get(body, "acknowledgement"))
    ensures k.Resolve? <==> !Truthy(Get(body, "acknowledgement")) && Truthy(Get(body, "result"))
    ensures k.Reject? <==>
      !Truthy(Get(body, "acknowledgement")) && !Truthy(Get(body, "result")) && Truthy(Get(body, "error"))
    ensures k.Resolve? ==> k.value == Get(body, "result")
    ensures k.Reject? ==> k.wire == Get(body, "error")
  {
    if Truthy(Get(body, "acknowledgement")) then Acknowledge
    else if Truthy(Get(body, "result")) then Resolve(Get(body, "result"))
    else if Truthy(Get(body, "error")) then Reject(Get(body, "error"))
    else NoMatch
  }

  /**
    The classification the protocol intends: an acknowledgement refreshes,
    an error rejects, and any other reply carries the handler's result,
    whatever that value is.
   */
  function Classify(body: map<string, Json>): (k: Kind)
    ensures k.Acknowledge? <==> Truthy(Get(body, "acknowledgement"))
    ensures k.Reject? <==> !Truthy(Get(body, "acknowledgement")) && Truthy(Get(body, "error"))
    ensures !k.NoMatch?
    ensures k.Resolve? ==> k.value == Get(body, "result")
    ensures k.Reject? ==> k.wire == Get(body, "error")
  {
    if Truthy(Get(body, "acknowledgement")) then Acknowledge
    else if Truthy(Get(body, "error")) then Reject(Get(body, "error"))
    else Resolve(Get(body, "result"))
  }

  /** The error the client rejects with: `Error(e.message)` with name, code, details and stack copied. */
  function ErrorFromWire(w: Json): ErrorInfo
  {
    var message := Prop(w, "message");
    ErrorInfo(Prop(w, "name"), Str(if message.Undefined? then "" else ToStr(message)),
              Prop(w, "code"), Prop(w, "details"), Prop(w, "stack"))
  }

  /** `resolve` or `reject` followed by the `finally(stopTimeout)`; a settled promise ignores both. */
  function Settle(k: CallState, outcome: Settlement): (k': CallState)
    requires CallValid(k) && !outcome.Pending?
    ensures CallValid(k')
    ensures k.settlement.Pending? ==> k'.settlement == outcome && k'.timer == Cleared
    ensures !k.settlement.Pending? ==> k' == k
    ensures k'.ttl == k.ttl && k'.arms == k.arms
  {
    if k.settlement.Pending? then k.(settlement := outcome, timer := Cleared) else k
  }

  /** An acknowledgement: `refreshTimeout(ttl)` restarts the call's timer. */
  function Rearm(c: Client, id: string): (r: Client)
    requires Valid(c) && id in c.registry
    ensures Valid(r) && Extends(c, r)
    ensures r.registry == c.registry && r.calls.Keys == c.calls.Keys
    ensures forall other :: other in c.calls && other != id ==> r.calls[other] == c.calls[other]
    ensures r.outbox == c.outbox && r.receiver == c.receiver && r.uuid == c.uuid
    ensures r.calls[id].settlement == c.calls[id].settlement
    ensures r.calls[id].timer == Armed(c.calls[id].ttl) && r.calls[id].arms == c.calls[id].arms + 1
  {
    var k := c.calls[id];
    c.(calls := c.calls[id := k.(timer := Armed(k.ttl), arms := k.arms + 1)])
  }

  /** A result or an error: the call leaves the registry and its promise settles, if still pending. */
  function Finish(c: Client, id: string, outcome: Settlement): (r: Client)
    requires Valid(c) && id in c.registry && !outcome.Pending?
    ensures Valid(r) && Extends(c, r)
    ensures r.registry == c.registry - {id} && r.calls.Keys == c.calls.Keys
    ensures forall other :: other in c.calls && other != id ==> r.calls[other] == c.calls[other]
    ensures r.outbox == c.outbox && r.receiver == c.receiver && r.uuid == c.uuid
    ensures c.calls[id].settlement.Pending? ==> r.calls[id].settlement == outcome && r.calls[id].timer == Cleared
  {
    c.(registry := c.registry - {id}, calls := c.calls[id := Settle(c.calls[id], outcome)])
  }

  /** The effect of a classified reply on the registered call `id`. */
  function Apply(c: Client, id: string, kind: Kind): (r: Client)
    requires Valid(c) && id in c.registry
    ensures Valid(r) && Extends(c, r)
    ensures r.calls.Keys == c.calls.Keys
    ensures forall other :: other in c.calls && other != id ==> r.calls[other] == c.calls[other]
    ensures r.outbox == c.outbox && r.receiver == c.receiver && r.uuid == c.uuid
    ensures kind.Acknowledge? ==>
      && r.registry == c.registry
      && r.calls[id].settlement == c.calls[id].settlement
      && r.calls[id].timer == Armed(c.calls[id].ttl)
      && r.calls[id].arms == c.calls[id].arms + 1
    ensures (kind.Resolve? || kind.Reject?) ==> r.registry == c.registry - {id}
    ensures kind.Resolve? && c.calls[id].settlement.Pending? ==>
      r.calls[id].settlement == Resolved(kind.value) && r.calls[id].timer == Cleared
    ensures kind.Reject? && c.calls[id].settlement.Pending? ==>
      r.calls[id].settlement == Rejected(Foreign(ErrorFromWire(kind.wire))) && r.calls[id].timer == Cleared
    ensures kind.NoMatch? ==> r == c
  {
    match kind
    case Acknowledge => Rearm(c, id)
    case Resolve(v) => Finish(c, id, Resolved(v))
    case Reject(w) => Finish(c, id, Rejected(Foreign(ErrorFromWire(w))))
    case NoMatch => c
  }

  /** The registered id a reply names in `body.callId`, if any. */
  function Match(c: Client, msg: Envelope): (m: Option<string>)
    ensures m.Some? ==> m.value in c.registry && Get(msg.body, "callId") == Str(m.value)
    ensures m.None? ==> forall id :: id in c.registry ==> Get(msg.body, "callId") != Str(id)
  {
    var callId := Get(msg.body, "callId");
    if callId.Str? && callId.s in c.registry then Some(callId.s) else None
  }

  /**
    `onReceiverMessage(msg)` as written: a reply for no registered call is
    ignored and left uncompleted; otherwise the first truthy field among
    acknowledgement, result and error decides, and the message is completed.
    The second component tells whether `msg.complete()` was called.
   */
  function OnReply(c: Client, msg: Envelope): (res: (Client, bool))
    requires Valid(c)
    ensures Valid(res.0) && Extends(c, res.0)
    ensures Match(c, msg).None? ==> res.0 == c && !res.1
    ensures Match(c, msg).Some? ==> res.1
    ensures Match(c, msg).Some? ==>
      var id := Match(c, msg).value;
      var body := msg.body;
      && (Truthy(Get(body, "acknowledgement")) ==>
            && res.0.registry == c.registry
            && res.0.calls[id].settlement == c.calls[id].settlement
            && res.0.calls[id].timer == Armed(c.calls[id].ttl)
            && res.0.calls[id].arms == c.calls[id].arms + 1)
      && (!Truthy(Get(body, "acknowledgement")) && Truthy(Get(body, "result")) ==>
            && res.0.registry == c.registry - {id}
            && (c.calls[id].settlement.Pending? ==>
                  res.0.calls[id].settlement == Resolved(Get(body, "result"))))
      && (!Truthy(Get(body, "acknowledgement")) && !Truthy(Get(body, "result"))
          && Truthy(Get(body, "error")) ==>
            && res.0.registry == c.registry - {id}
            && (c.calls[id].settlement.Pending? ==>
                  res.0.calls[id].settlement == Rejected(Foreign(ErrorFromWire(Get(body, "error"))))))
      && ((!Truthy(Get(body, "acknowledgement")) && !Truthy(Get(body, "result"))
           && !Truthy(Get(body, "error"))) ==> res.0 == c)
  {
    match Match(c, msg)
    case None => (c, false)
    case Some(id) => (Apply(c, id, ClassifyAsWritten(msg.body)), true)
  }

  /**
    `onReceiverMessage(msg)` with the intended classification: every matched
    reply that is neither an acknowledgement nor an error settles the call
    with its `result`, falsy values included.
   */
  function OnReplyCorrected(c: Client, msg: Envelope): (res: (Client, bool))
    requires Valid(c)
    ensures Valid(res.0) && Extends(c, res.0)
    ensures Match(c, msg).None? ==> res.0 == c && !res.1
    ensures Match(c, msg).Some? ==>
      var id := Match(c, msg).value;
      var body := msg.body;
      && res.1
      && (!Truthy(Get(body, "acknowledgement")) ==> res.0.registry == c.registry - {id})
      && (!Truthy(Get(body, "acknowledgement")) && !Truthy(Get(body, "error"))
          && c.calls[id].settlement.Pending? ==>
            res.0.calls[id].settlement == Resolved(Get(body, "result")))
  {
    match Match(c, msg)
    case None => (c, false)
    case Some(id) => (Apply(c, id, Classify(msg.body)), true)
  }

  /**
    The call's timer fired: reject with a `TimeoutError` unless already
    settled. The entry stays in the registry.
   */
  function TimeoutFired(c: Client, id: string): (r: Client)
    requires Valid(c)
    ensures Valid(r) && Extends(c, r)
    ensures r.registry == c.registry && r.calls.Keys == c.calls.Keys
    ensures forall other :: other in c.calls && other != id ==> r.calls[other] == c.calls[other]
    ensures id in c.calls && c.calls[id].timer.Armed? ==>
      && r.calls[id].timer == Cleared
      && (c.calls[id].settlement.Pending? ==>
            r.calls[id].settlement == Rejected(Raised(TimeoutError, "Timeout")))
    ensures !(id in c.calls && c.calls[id].timer.Armed?) ==> r == c
    ensures r.outbox == c.outbox && r.receiver == c.receiver
  {
    if id in c.calls && c.calls[id].timer.Armed? then
      var k := c.calls[id];
      var rejected := if k.settlement.Pending? then Rejected(Raised(TimeoutError, "Timeout")) else k.settlement;
      c.(calls := c.calls[id := k.(settlement := rejected, timer := Cleared)])
    else c
  }

  /** `close()`: the reply receiver stops; calls still pending are left to their timers. */
  function Close(c: Client): (r: Client)
    requires Valid(c)
    ensures Valid(r) && Extends(c, r)
    ensures r.receiver.idle
    ensures r.registry == c.registry && r.calls == c.calls && r.outbox == c.outbox
  {
    c.(receiver := Receivers.Stop(c.receiver).0)
  }

  /** The client's reaction to one event; a reused id is ignored, since uuids do not repeat. */
  function Step(c: Client, e: Event, corrected: bool): (r: Client)
    requires Valid(c)
    ensures Valid(r) && Extends(c, r)
  {
    match e
    case Invoke(id, target, name, args, ttlOption) =>
      if id in c.calls then c else Call(c, id, target, name, args, ttlOption).0
    case Incoming(msg) =>
      if corrected then OnReplyCorrected(c, msg).0 else OnReply(c, msg).0
    case TimerFired(id) => TimeoutFired(c, id)
    case Outbox(se) => c.(outbox := Senders.Step(c.outbox, se))
    case Shutdown => Close(c)
  }

  lemma ExtendsTransitive(a: Client, b: Client, c: Client)
    requires Extends(a, b) && Extends(b, c)
    ensures Extends(a, c)
  {
  }

  /**
    The client after a sequence of events. Whatever happens, every call
    still pending has a timer armed for its window, every call that left the
    registry is settled, and no settled promise ever changes.
   */
  function Run(c: Client, events: seq<Event>, corrected: bool): (r: Client)
    requires Valid(c)
    ensures Valid(r)
    ensures Extends(c, r)
    ensures forall id :: id in r.calls && r.calls[id].settlement.Pending? ==>
      id in r.registry && r.calls[id].timer == Armed(r.calls[id].ttl)
    decreases |events|
  {
    if events == [] then c
    else
      var mid := Run(c, events[..|events| - 1], corrected);
      var r := Step(mid, events[|events| - 1], corrected);
      ExtendsTransitive(c, mid, r);
      r
  }

  /**
    A timed-out call stays registered, so a late result still matches it,
    is completed and removes the entry, while the caller keeps the timeout
    rejection.
   */
  lemma LateResultAfterTimeout(c: Client, id: string, msg: Envelope)
    requires Valid(c) && id in c.registry
    requires c.calls[id].settlement.Pending?
    requires Get(msg.body, "callId") == Str(id)
    requires ClassifyAsWritten(msg.body).Resolve?
    ensures id in TimeoutFired(c, id).registry
    ensures OnReply(TimeoutFired(c, id), msg).1
    ensures id !in OnReply(TimeoutFired(c, id), msg).0.registry
    ensures OnReply(TimeoutFired(c, id), msg).0.calls[id].settlement
         == Rejected(Raised(TimeoutError, "Timeout"))
  {
    var t := TimeoutFired(c, id);
    assert Match(t, msg) == Some(id);
  }

}
