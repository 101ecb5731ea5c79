# service-bus-rpc: a Dafny model of the RPC protocol core

service-bus-rpc is a request/response layer over Azure Service Bus sessions.
A client sends a call envelope to a server session. The server dispatches the
call to a handler object. The replies come back on the client's own session:
an acknowledgement first, then a result or an error. A per-call timeout bounds
the wait.

This project models the protocol logic as sequential state machines with pure
transition functions. The transport, the timers and the event plumbing become
explicit events. The modules follow the source files:

- `Values` (values.dfy): the JavaScript values that travel in message bodies.
  It covers truthiness (`!!v`, `a || b`), property reads that give `undefined`
  when a key is absent, and `String(v)`.
- `Errors` (errors.dfy): the four error classes, and the error properties the
  protocol copies.
- `Envelopes` (envelopes.dfy): the message envelope.
- `Senders` (sender.dfy): the outbound FIFO with its `_offloading` guard, the
  put-back-at-head retry, and the retry continuation.
- `Receivers` (receiver.dfy): the idle/running lifecycle and the outcome rules
  of one receive-loop iteration.
- `Clients` (client.dfy): the call registry. This covers envelope
  construction, reply classification, the timeout and settlement.
- `Servers` (server.dfy): the session map and the per-message
  dispatch to a handler.
- `Rpc` (rpc.dfy): the client and the server joined by a transport that
  delivers each session's envelopes unchanged and in order. The end-to-end
  properties, and the two defects listed under Findings, are stated here.

Modelling choices:

- A fresh uuid is modelled as the requirement that the call id was never used
  by this client.
- Timers are `TimerFired` events; the transport's answers are
  `TransportOk`/`TransportFailed` events.
- The handler object is a map from property name to a method or a plain field.
  A method either returns a value or throws an error, as a function of its
  arguments.
- Next to the registry (`calls` in the source), the client keeps the state of
  every promise it handed out. This keeps the fate of a call observable after
  its entry leaves the registry.

## Model

| member | source | states |
|---|---|---|
| Clients.Init | src/client.js:11-26 | A new client has an empty registry, an idle sender and its reply receiver running; the state is valid. |
| Clients.Ttl | src/client.js:66 | The call window is `options.ttl` when that is truthy and 30000 otherwise; it is always truthy. |
| Clients.Register | src/client.js:99-105 | The registry gains the envelope under its id; the call is pending with its timer armed for the window; no other call changes. |
| Clients.Call | src/client.js:65-110 | The envelope carries the id as `messageId`, the target session, the client's own uuid as `replyTo`, body `{method, args}` and the window as `timeToLive`. The call is registered, pending and armed, and exactly this envelope is appended to the sender's queue. Earlier calls are untouched. |
| Clients.ClassifyAsWritten | src/client.js:43-60 | The first truthy field decides, in the order acknowledgement, result, error (both directions of each case). A body whose three fields are all falsy matches nothing. |
| Clients.Classify | src/client.js:43-60 | Corrected reading: acknowledgement, then error, otherwise the result whatever its value; never "no match". |
| Clients.Settle | src/client.js:109 | Settling a pending promise clears its timer; a settled promise ignores any later resolve or reject. |
| Clients.Rearm | src/client.js:95-97 | An acknowledgement re-arms the timer for the full window; the entry stays registered and its promise unchanged. |
| Clients.Finish | src/client.js:47-58 | A result or an error removes the entry from the registry and settles the promise if it is still pending, clearing the timer. |
| Clients.Apply | src/client.js:44-58 | The effect of each reply kind on the matched call; no other call changes, and no reply kind alters a settled promise. |
| Clients.Match | src/client.js:37-41 | A reply matches exactly the registered id its `callId` names, or nothing when no registered id is named. |
| Clients.OnReply | src/client.js:36-63 | A reply for no registered call changes nothing and is not completed. Otherwise it is completed and: an acknowledgement re-arms; a truthy result resolves and unregisters; an error rejects with the copied error and unregisters; anything else changes nothing. |
| Clients.OnReplyCorrected | src/client.js:36-63 | Same matching; every reply that is neither an acknowledgement nor an error resolves the call with its result, falsy values included. |
| Clients.TimeoutFired | src/client.js:90-93 | An armed timer that fires rejects a pending call with TimeoutError("Timeout") and clears the timer. The registry is left unchanged. |
| Clients.Close | src/client.js:112-122 | Closing stops the reply receiver; the registry, the calls and the sender's queue are left as they are. |
| Clients.Step | src/client.js:36-110 | Every event keeps the client valid, and no settled promise ever changes. |
| Clients.Run | src/client.js:36-110 | After any sequence of events, every pending call is registered with a timer armed for its window, and no settled promise has changed. |
| Clients.LateResultAfterTimeout | src/client.js:90-93 | After a timeout the entry stays registered; a late result still matches it, is completed and unregisters it, while the caller keeps the TimeoutError. |
| Senders.DrainKeepsOutstanding | src/sender.js:35-36 | Shifting the head into flight keeps the outstanding entries and their order; draining stops exactly when nothing is pending. |
| Senders.Send | src/sender.js:18-27 | One entry is appended at the tail, and the entries already outstanding keep their order. Draining starts with the head only if no drain was under way. |
| Senders.Accepted | src/sender.js:38-39 | The head's completion is resolved next in order. The next pending entry is attempted, and `_offloading` stays set exactly when one exists. |
| Senders.Failed | src/sender.js:40-47 | The failed entry goes back to the head, so the outstanding entries equal those before the attempt. A warning is emitted, the retry timer is armed, and `_offloading` stays set. |
| Senders.Retry | src/sender.js:44-46 | The continuation resumes draining with the head entry; nothing else changes. |
| Senders.Step | src/sender.js:18-52 | Every event preserves the invariants: `_offloading` is clear only when nothing is pending or in flight, a suspended drain has a pending head, and the log is numbered in enqueue order. |
| Senders.StepLog | src/sender.js:21-47 | The only change any event makes to the log of resolved-then-outstanding entries is to append the entry an enqueue creates. |
| Senders.NoLossNoReordering | src/sender.js:21-47 | Whatever the transport does, the resolved entries followed by the outstanding ones carry exactly the enqueued messages, in enqueue order. |
| Senders.ResolvedArePrefix | src/sender.js:35-43 | From the initial sender, the resolved completions are a prefix of the enqueued messages. |
| Senders.SuspendedSendsOnlyAppend | src/sender.js:30-32 | While a failed entry waits for the retry timer, sends only append: the same head waits, nothing is in flight and nothing resolves. |
| Senders.SendAllAppends | src/sender.js:21-25 | Sending several messages one after another queues them behind the outstanding ones, in order. |
| Receivers.Start | src/receiver.js:32-51 | Start is a no-op while running. From idle it makes the receiver running, arms a fresh abort signal and opens a receive handle. |
| Receivers.Race | src/receiver.js:69-73 | The race settles as aborted exactly when the abort signal has fired. Otherwise it settles as the receive attempt did. |
| Receivers.Classify | src/receiver.js:75-93 | The loop exits, goes idle and closes its handle exactly on an abort, with no warning. A batch emits its messages in order and resets the backoff. An overrun or any other error emits a warning and advances the backoff; the handle is recreated exactly on an overrun or a closed handle. |
| Receivers.Iterate | src/receiver.js:67-95 | An iteration of a running loop that is not aborted keeps it running. |
| Receivers.Stop | src/receiver.js:53-62 | Stop is a no-op while idle. Otherwise it fires the abort signal and the loop exits without a warning, leaving the receiver idle with its handle closed. |
| Receivers.Loop | src/receiver.js:64-96 | Without an abort, the loop stays running through any sequence of attempts. |
| Receivers.LoopEmitsEveryBatch | src/receiver.js:75-88 | The loop emits exactly the received messages, in order, and recreates one handle per overrun or closed-handle error. |
| Receivers.BackoffCountsFailuresSinceBatch | src/receiver.js:76-92 | The backoff equals the number of failures since the last batch; a batch restarts it from the minimum. |
| Servers.Init | src/server.js:17 | A new server has no sessions and a valid shared sender. |
| Servers.Reply | src/server.js:59-68 | A reply targets `msg.replyTo` with `timeToLive` 60000. Its body is the content plus `callId = msg.messageId`. |
| Servers.DispatchWith | src/server.js:37-54 | When the method is not callable, exactly one error reply is sent and the handler is not invoked. Otherwise an acknowledgement comes first, then the returned value or the thrown error. Every reply is addressed to the caller, and the message is always completed. |
| Servers.Dispatch | src/server.js:45-51 | As written, the error object in an error reply has no `message` property. |
| Servers.DispatchCorrected | src/server.js:40 | Corrected, the not-found error reply carries the message naming the method. |
| Servers.Listen | src/server.js:24-31 | Listening on a known session is a no-op. On a new session it stores a started receiver with the handler under that id, leaving other sessions alone. |
| Servers.ListenIdempotent | src/server.js:25-27 | Listening again keeps the first receiver and handler. |
| Servers.CloseSession | src/server.js:70-79 | Closing an absent session changes nothing; closing a present one removes exactly that entry. |
| Servers.CloseSessionUndoesListen | src/server.js:70-79 | Closing a session just listened to restores the session map. |
| Servers.Close | src/server.js:81-88 | After `close` the session map is empty and the shared sender is unchanged. |
| Servers.OnMessage | src/server.js:37-54 | A listened session's message appends its dispatch replies to the shared sender's queue, in order. A message for a closed session changes nothing. |
| Rpc.Deliver | src/client.js:36-63 | Consuming replies in arrival order keeps the client valid and never changes a settled promise. |
| Rpc.ErrorWireDropsMessage | src/server.js:46-51 | As written, an error crossing the wire keeps name, code, details and stack, but its message becomes "". |
| Rpc.ErrorWireRoundTrip | src/client.js:53-57 | With the message sent along, the caller reconstructs exactly the error the handler threw. |
| Rpc.DeliverDispatched | src/client.js:43-60 | An acknowledgement followed by a last reply settles the call as that last reply is read, or leaves it pending with the timer re-armed. |
| Rpc.RoundTripReadsLastReply | src/client.js:43-60 | A full round trip settles the call as the client reads the server's last reply, or leaves it registered and pending with its timer armed. |
| Rpc.LastReplyIs | src/server.js:39-51 | The server's last reply is the not-found error, the returned value or the thrown error, by the handler's behaviour. |
| Rpc.ResultReachesCallerAsWritten | src/client.js:47-50 | As written, a returned value reaches the caller only when it is truthy. A falsy one leaves the call pending and registered with its timer armed. |
| Rpc.ResultReachesCaller | src/server.js:43-44 | Corrected, the caller receives whatever value the handler returned. |
| Rpc.ThrownErrorReachesCallerAsWritten | src/server.js:45-51 | As written, a thrown error reaches the caller as a rejection with its message emptied. |
| Rpc.ThrownErrorReachesCaller | src/client.js:51-58 | Corrected, a thrown error reaches the caller with all five properties intact. |
| Rpc.MissingMethodRejectsAsWritten | src/server.js:39-40 | A call to a method the handler lacks is rejected without acknowledgement; as written the error carries only the name "Error" and the stack. |
| Rpc.MissingMethodRejects | src/server.js:40 | Corrected, the rejection carries the MethodNotFoundError message naming the method. |
| Rpc.EchoZeroTimesOut | src/client.js:47 | Echoing `0` leaves the call pending, and the timer then rejects it with TimeoutError. |
| Rpc.EchoObjectResolves | test/client-test.js:19 | Echoing a non-empty object with a 50000 ms window resolves with that object. |
| Rpc.MulOnEchoHostLosesMessage | test/client-test.js:23 | Calling `mul` on the echo-only handler is rejected, but with an empty message, although the thrown error had one. |

## Left out

- The Azure Service Bus SDK: creating clients, senders and receivers, `receiveMessages`, `msg.complete()` and `close`. Their outcomes are inputs: receive attempts, transport answers, and the `completed` flags in the results.
- Wall-clock time: the 2000 ms settling delays, the 60 s retry cooldown, the overrun timeout and the call timeouts. Each timer is an explicit event.
- The Fibonacci backoff delays (2000 to 60000 ms) and the promise queue. The backoff is a counter of steps since the last reset; start and stop are sequential operations.
- EventEmitter plumbing (`on`, `emit`, `removeAllListeners`, the `started`/`stopped`/`closed` events) and the forwarding of warnings. Sender warnings are only counted.
- uuid generation. A fresh id is a precondition on `Clients.Call`, and `Clients.Step` ignores a repeated one.
- Concurrency between handlers. Each message's dispatch is one atomic step, so replies of handlers running at the same time never interleave in the model.
- Floating-point numbers, NaN and inherited properties such as a string's `length`. Numbers are integers, and property reads see the own properties of plain objects.
- Throwing `null` or `undefined` from a handler (the server would fail reading `err.name`), and `receiver.close()` failing inside the loop.
- Servers.Close: the receivers' `stop()` calls are not awaited one by one. The model drops every session at once.
- Receivers.Stop: it does not model a `stop` that is queued behind a `start` whose settling delay has not elapsed. The serialized queue makes both atomic.
- Clients.Close: it does not close the queue client or the Service Bus client, since these are foreign I/O.

## Findings

| source | as written | input that shows it | evidently intended | confidence | as-written member | corrected member |
|---|---|---|---|---|---|---|
| src/client.js:47 | A result reply is recognised by `!!msg.body.result`, so a falsy result matches no case and settles nothing. | A handler that returns `0` (also `""`, `false`, `null` or nothing): the caller gets an acknowledgement and a result, yet the call stays pending until it times out. | Any reply that is neither an acknowledgement nor an error resolves the call with its `result`. | not executed | Rpc.EchoZeroTimesOut | Rpc.ResultReachesCaller |
| src/server.js:46-51 | The error reply copies name, code, details and stack but not `message`, while the client builds `Error(msg.body.error.message)`. | Calling `mul` on a handler that only has `echo`: the server throws `Method "mul" does not exist`, but the caller's error message is "". | The error reply carries the message, so the caller sees the error the handler threw. | not executed | Rpc.MulOnEchoHostLosesMessage | Rpc.ThrownErrorReachesCaller |

Both defects are modelled twice. `Clients.ClassifyAsWritten` and `Servers.Dispatch` follow the code. `Clients.Classify` and `Servers.DispatchCorrected` follow the evident intent. `Clients.Step` and `Rpc.RoundTrip` take a flag that selects the pair. `Rpc.ResultReachesCallerAsWritten` and `Rpc.ThrownErrorReachesCallerAsWritten` state the as-written behaviour for every input. `Rpc.ResultReachesCaller`, `Rpc.ThrownErrorReachesCaller` and `Rpc.MissingMethodRejects` prove the intended behaviour of the corrected pair.

Two other behaviours of the code are modelled as written and are not claimed as defects:
- A reply whose `callId` names no registered call is never completed (src/client.js:39-41).
- A call that timed out stays registered until a late reply removes it (`Clients.LateResultAfterTimeout`).
