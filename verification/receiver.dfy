/**
  The session receive loop (src/receiver.js). `start` and `stop` pass
  through a queue of concurrency one, so they are sequential operations
  here. Each loop iteration races a batch receive against an overrun timer
  and the abort signal; the outcome decides what is emitted, whether the
  receive handle is recreated and how the backoff moves. The backoff is an
  opaque counter of steps since the last reset.
 */
module Receivers {

  import opened Wrappers
  import opened Envelopes
  import opened Errors

  /** The `_aborted` promise: not yet created, created and pending, or rejected by `_abort()`. */
  datatype Signal = Unarmed | Armed | Fired

  datatype Receiver = Receiver(
    idle: bool,             // `_idle`
    abort: Signal,          // the current abort signal
    signals: nat,           // abort signals created so far
    handleOpen: bool,       // the loop holds an open receive handle
    handles: nat,           // receive handles created so far
    backoff: nat)           // backoff steps taken since the last reset

  /** What a receive attempt yields when the abort signal has not fired. */
  datatype Attempt =
    | Batch(msgs: seq<Envelope>)                     // `receiveMessages` resolved
    | Overrun                                        // the idle timeout plus one second elapsed first
    | Failed(error: ErrorInfo, handleClosed: bool)   // `receiveMessages` rejected; `receiver.isClosed`

  /** The settled race of one loop iteration. */
  datatype Outcome =
    | Received(msgs: seq<Envelope>)
    | Overran
    | Errored(error: ErrorInfo, handleClosed: bool)
    | Aborted

  datatype BackoffMove = Reset | Advance | Hold

  /** What one iteration does besides changing the receiver's state. */
  datatype Effect = Effect(
    emitted: seq<Envelope>,   // `message` events, in order
    warning: Option<Fault>,   // the `warning` event, if any
    recreated: bool,          // the handle was closed and a new one created
    backoff: BackoffMove,
    exited: bool)             // the loop returned and the receiver went idle

  function Init(): Receiver
  {
    Receiver(true, Unarmed, 0, false, 0, 0)
  }

  /** The states `start`, `stop` and the loop can reach. */
  ghost predicate Valid(r: Receiver)
  {
    && (r.idle <==> !r.handleOpen)
    && (!r.idle ==> r.abort == Armed)
  }

  /**
    `start()`: a no-op unless idle; otherwise the receiver runs, a fresh
    abort signal is armed and the loop opens its first receive handle.
   */
  function Start(r: Receiver): (r': Receiver)
    requires Valid(r)
    ensures Valid(r')
    ensures !r.idle ==> r' == r
    ensures r.idle ==>
      && !r'.idle && r'.abort == Armed && r'.signals == r.signals + 1
      && r'.handleOpen && r'.handles == r.handles + 1
      && r'.backoff == r.backoff
  {
    if !r.idle then r
    else r.(idle := false, abort := Armed, signals := r.signals + 1,
            handleOpen := true, handles := r.handles + 1)
  }

  /** `Promise.race`: once the abort signal has fired it wins over any receive attempt. */
  function Race(r: Receiver, a: Attempt): (o: Outcome)
    ensures o.Aborted? <==> r.abort == Fired
    ensures r.abort != Fired && a.Batch? ==> o == Received(a.msgs)
    ensures r.abort != Fired && a.Overrun? ==> o == Overran
    ensures r.abort != Fired && a.Failed? ==> o == Errored(a.error, a.handleClosed)
  {
    if r.abort == Fired then Aborted
    else
      match a
      case Batch(msgs) => Received(msgs)
      case Overrun => Overran
      case Failed(e, closed) => Errored(e, closed)
  }

  /**
    The catch-or-continue logic after the race settled: a batch is emitted
    and resets the backoff; an abort closes the handle and ends the loop;
    every other error is reported as a warning, recreates the handle after
    an overrun or when the handle reports closed, and advances the backoff.
   */
  function Classify(r: Receiver, o: Outcome): (res: (Receiver, Effect))
    requires !r.idle
    ensures res.1.exited <==> o.Aborted?
    ensures res.0.idle <==> o.Aborted?
    ensures o.Received? ==> res.1.emitted == o.msgs && res.1.backoff == Reset && res.0.backoff == 0
    ensures !o.Received? ==> res.1.emitted == []
    ensures res.1.warning.Some? <==> (o.Overran? || o.Errored?)
    ensures o.Overran? ==> res.1.warning == Some(Raised(TimeoutOverrunError, ""))
    ensures o.Errored? ==> res.1.warning == Some(Foreign(o.error))
    ensures res.1.recreated <==> (o.Overran? || (o.Errored? && o.handleClosed))
    ensures res.0.handles == r.handles + (if res.1.recreated then 1 else 0)
    ensures (o.Overran? || o.Errored?) ==> res.1.backoff == Advance && res.0.backoff == r.backoff + 1
    ensures o.Aborted? ==> !res.0.handleOpen && res.1.backoff == Hold && res.0.backoff == r.backoff
    ensures !o.Aborted? ==> res.0.handleOpen == r.handleOpen && res.0.abort == r.abort
  {
    match o
    case Received(msgs) =>
      (r.(backoff := 0), Effect(msgs, None, false, Reset, false))
    case Aborted =>
      (r.(idle := true, handleOpen := false), Effect([], None, false, Hold, true))
    case Overran =>
      (r.(handles := r.handles + 1, backoff := r.backoff + 1),
       Effect([], Some(Raised(TimeoutOverrunError, "")), true, Advance, false))
    case Errored(e, closed) =>
      (r.(handles := r.handles + (if closed then 1 else 0), backoff := r.backoff + 1),
       Effect([], Some(Foreign(e)), closed, Advance, false))
  }

  /** One iteration of the running loop. */
  function Iterate(r: Receiver, a: Attempt): (res: (Receiver, Effect))
    requires Valid(r) && !r.idle
    ensures Valid(res.0)
    ensures !res.0.idle && !res.1.exited
  {
    Classify(r, Race(r, a))
  }

  /**
    `stop()`: a no-op when idle; otherwise fire the abort signal, let the
    loop close its handle and exit, and return once it is idle again.
   */
  function Stop(r: Receiver): (res: (Receiver, Effect))
    requires Valid(r)
    ensures Valid(res.0)
    ensures res.0.idle && !res.0.handleOpen
    ensures r.idle ==> res.0 == r && !res.1.exited
    ensures !r.idle ==> res.1.exited && res.0.abort == Fired && res.0.backoff == r.backoff
    ensures res.1.warning.None? && res.1.emitted == []
  {
    if r.idle then (r, Effect([], None, false, Hold, false))
    else
      // whatever the pending receive does, the race now settles as aborted
      Classify(r.(abort := Fired), Aborted)
  }

  /** The messages of the batches among the attempts, in order. */
  function Batches(attempts: seq<Attempt>): seq<Envelope>
    decreases |attempts|
  {
    if attempts == [] then []
    else
      var last := attempts[|attempts| - 1];
      Batches(attempts[..|attempts| - 1]) + (if last.Batch? then last.msgs else [])
  }

  /** How many attempts make the loop recreate its handle. */
  function Recoveries(attempts: seq<Attempt>): nat
    decreases |attempts|
  {
    if attempts == [] then 0
    else
      var last := attempts[|attempts| - 1];
      Recoveries(attempts[..|attempts| - 1])
        + (if last.Overrun? || (last.Failed? && last.handleClosed) then 1 else 0)
  }

  /** The loop run over a sequence of attempts: the final state and every message emitted. */
  function Loop(r: Receiver, attempts: seq<Attempt>): (res: (Receiver, seq<Envelope>))
    requires Valid(r) && !r.idle
    ensures Valid(res.0) && !res.0.idle
    decreases |attempts|
  {
    if attempts == [] then (r, [])
    else
      var mid := Loop(r, attempts[..|attempts| - 1]);
      var step := Iterate(mid.0, attempts[|attempts| - 1]);
      (step.0, mid.1 + step.1.emitted)
  }

  /**
    Recovery loses nothing: however many overruns and errors come between
    batches, the loop keeps running, emits exactly the received messages in
    order, and creates one new handle per overrun or closed-handle error.
   */
  lemma {:induction false} LoopEmitsEveryBatch(r: Receiver, attempts: seq<Attempt>)
    requires Valid(r) && !r.idle
    ensures Loop(r, attempts).1 == Batches(attempts)
    ensures Loop(r, attempts).0.handles == r.handles + Recoveries(attempts)
    ensures Loop(r, attempts).0.signals == r.signals
    decreases |attempts|
  {
    if attempts != [] {
      LoopEmitsEveryBatch(r, attempts[..|attempts| - 1]);
    }
  }

  /** How many failed attempts follow the last batch (all of them if there is none). */
  function FailuresSinceBatch(attempts: seq<Attempt>): nat
    decreases |attempts|
  {
    if attempts == [] || attempts[|attempts| - 1].Batch? then 0
    else FailuresSinceBatch(attempts[..|attempts| - 1]) + 1
  }

  predicate AnyBatch(attempts: seq<Attempt>)
  {
    exists i :: 0 <= i < |attempts| && attempts[i].Batch?
  }

  /**
    The backoff counts the failures since the last successful batch: a batch
    restarts it from its minimum, each overrun or error advances it by one.
   */
  lemma {:induction false} BackoffCountsFailuresSinceBatch(r: Receiver, attempts: seq<Attempt>)
    requires Valid(r) && !r.idle
    ensures Loop(r, attempts).0.backoff
         == (if AnyBatch(attempts) then 0 else r.backoff) + FailuresSinceBatch(attempts)
    decreases |attempts|
  {
    if attempts != [] {
      var prefix := attempts[..|attempts| - 1];
      BackoffCountsFailuresSinceBatch(r, prefix);
      if !attempts[|attempts| - 1].Batch? {
        if AnyBatch(attempts) {
          var i :| 0 <= i < |attempts| && attempts[i].Batch?;
          assert prefix[i].Batch?;
        }
        if AnyBatch(prefix) {
          var i :| 0 <= i < |prefix| && prefix[i].Batch?;
          assert attempts[i].Batch?;
        }
      }
    }
  }

}
