/**
  The outbound retry queue (src/sender.js). Pending entries wait in FIFO
  order; one drain routine, guarded by the `offloading` flag, hands the head
  to the transport. While the transport works on it the head sits in the
  `inFlight` slot (it has been shifted off the pending array). A failed
  attempt puts it back at the head and suspends draining until the retry
  timer fires.
 */
module Senders {

  import opened Wrappers
  import opened Envelopes

  /** A pending-send entry: its content and the completion it resolves, named by enqueue order. */
  datatype Entry = Entry(content: Envelope, ticket: nat)

  datatype Sender = Sender(
    pending: seq<Entry>,        // `_messagesPendingSend`
    inFlight: Option<Entry>,    // the entry whose transport send is awaited
    offloading: bool,           // `_offloading`
    retryArmed: bool,           // the 60 s retry timer is set
    resolved: seq<Entry>,       // completions resolved so far, in resolution order
    enqueued: nat,              // entries ever enqueued
    warnings: nat)              // `warning` events emitted

  /** The events the sender reacts to; the transport and the timer are external. */
  datatype Event =
    | Enqueue(msg: Envelope)    // `send(msg)`
    | TransportOk               // the awaited transport send resolved
    | TransportFailed           // the awaited transport send rejected
    | RetryTimer                // the retry timeout called `_offloadMessages(true)`

  function Init(): Sender
  {
    Sender([], None, false, false, [], 0, 0)
  }

  function InFlightSeq(s: Sender): seq<Entry>
  {
    if s.inFlight.Some? then [s.inFlight.value] else []
  }

  /** Entries not yet accepted by the transport, the one being attempted first. */
  function Outstanding(s: Sender): seq<Entry>
  {
    InFlightSeq(s) + s.pending
  }

  /** Every entry ever enqueued: the resolved ones, then the outstanding ones. */
  function Log(s: Sender): seq<Entry>
  {
    s.resolved + Outstanding(s)
  }

  /** Entries whose tickets are `from`, `from + 1`, ... in order. */
  ghost predicate Numbered(entries: seq<Entry>, from: nat)
  {
    forall i :: 0 <= i < |entries| ==> entries[i].ticket == from + i
  }

  /** The states the sender can reach. */
  ghost predicate Valid(s: Sender)
  {
    && (!s.offloading ==> s.pending == [] && s.inFlight.None? && !s.retryArmed)
    && (s.offloading ==> s.inFlight.Some? != s.retryArmed)
    && (s.retryArmed ==> s.pending != [])
    && |Log(s)| == s.enqueued
    && Numbered(Log(s), 0)
  }

  /**
    One turn of the drain loop, entered with nothing in flight: shift the
    head off and attempt it, or clear the flag when nothing is pending.
   */
  function Drain(s: Sender): Sender
    requires s.inFlight.None?
  {
    if s.pending == [] then s.(offloading := false)
    else s.(inFlight := Some(s.pending[0]), pending := s.pending[1..], offloading := true)
  }

  lemma DrainKeepsOutstanding(s: Sender)
    requires s.inFlight.None?
    ensures Outstanding(Drain(s)) == Outstanding(s)
    ensures Drain(s).resolved == s.resolved
    ensures !Drain(s).offloading <==> s.pending == []
  {
    if s.pending != [] {
      assert [s.pending[0]] + s.pending[1..] == s.pending;
    }
  }

  /**
    `send(msg)`: push one entry at the tail, then start draining unless a
    drain is already under way (it may be suspended on a failed attempt).
   */
  function Send(s: Sender, msg: Envelope): (r: Sender)
    requires Valid(s)
    ensures Valid(r)
    ensures Outstanding(r) == Outstanding(s) + [Entry(msg, s.enqueued)]
    ensures Log(r) == Log(s) + [Entry(msg, s.enqueued)]
    ensures r.resolved == s.resolved && r.enqueued == s.enqueued + 1
    ensures r.offloading
    ensures s.offloading ==> r.inFlight == s.inFlight && r.retryArmed == s.retryArmed
    ensures !s.offloading ==> r.inFlight == Some(Entry(msg, s.enqueued))
  {
    var e := Entry(msg, s.enqueued);
    var s1 := s.(pending := s.pending + [e], enqueued := s.enqueued + 1);
    assert Log(s1) == Log(s) + [e];
    if s.offloading then s1
    else
      DrainKeepsOutstanding(s1);
      Drain(s1)
  }

  /**
    The transport accepted the entry in flight: resolve its completion and
    attempt the next pending entry, or stop draining when none is left.
   */
  function Accepted(s: Sender): (r: Sender)
    requires Valid(s)
    ensures Valid(r)
    ensures s.inFlight.None? ==> r == s
    ensures s.inFlight.Some? ==>
      && r.resolved == s.resolved + [s.inFlight.value]
      && Outstanding(r) == Outstanding(s)[1..]
      && (r.offloading <==> s.pending != [])
      && (s.pending != [] ==> r.inFlight == Some(s.pending[0]))
    ensures Log(r) == Log(s) && r.enqueued == s.enqueued
  {
    if s.inFlight.None? then s
    else
      var s1 := s.(resolved := s.resolved + [s.inFlight.value], inFlight := None);
      assert Log(s1) == Log(s);
      DrainKeepsOutstanding(s1);
      Drain(s1)
  }

  /**
    The transport rejected the entry in flight: warn, put it back at the
    head and arm the retry timer, leaving `offloading` set.
   */
  function Failed(s: Sender): (r: Sender)
    requires Valid(s)
    ensures Valid(r)
    ensures s.inFlight.None? ==> r == s
    ensures s.inFlight.Some? ==>
      && Outstanding(r) == Outstanding(s)
      && |r.pending| > 0 && r.pending[0] == s.inFlight.value
      && r.inFlight.None? && r.retryArmed && r.offloading
      && r.resolved == s.resolved
      && r.warnings == s.warnings + 1
    ensures Log(r) == Log(s) && r.enqueued == s.enqueued
  {
    if s.inFlight.None? then s
    else
      var r := s.(pending := [s.inFlight.value] + s.pending, inFlight := None,
                  retryArmed := true, warnings := s.warnings + 1);
      assert Log(r) == Log(s);
      r
  }

  /** The retry timer fired: `_offloadMessages(true)` resumes draining from the head. */
  function Retry(s: Sender): (r: Sender)
    requires Valid(s)
    ensures Valid(r)
    ensures !s.retryArmed ==> r == s
    ensures s.retryArmed ==>
      && r.inFlight == Some(s.pending[0])
      && Outstanding(r) == Outstanding(s)
      && !r.retryArmed && r.offloading
      && r.resolved == s.resolved
    ensures Log(r) == Log(s) && r.enqueued == s.enqueued
  {
    if !s.retryArmed then s
    else
      var s1 := s.(retryArmed := false, offloading := true);
      DrainKeepsOutstanding(s1);
      Drain(s1)
  }

  /** The sender's reaction to one event; an event that cannot occur in this state changes nothing. */
  function Step(s: Sender, e: Event): (r: Sender)
    requires Valid(s)
    ensures Valid(r)
  {
    match e
    case Enqueue(msg) => Send(s, msg)
    case TransportOk => Accepted(s)
    case TransportFailed => Failed(s)
    case RetryTimer => Retry(s)
  }

  /** The state after a sequence of events. */
  function Run(s: Sender, events: seq<Event>): (r: Sender)
    requires Valid(s)
    ensures Valid(r)
    decreases |events|
  {
    if events == [] then s
    else Step(Run(s, events[..|events| - 1]), events[|events| - 1])
  }

  /** The messages carried by the `Enqueue` events, in order. */
  function Sent(events: seq<Event>): seq<Envelope>
    decreases |events|
  {
    if events == [] then []
    else
      var last := events[|events| - 1];
      Sent(events[..|events| - 1]) + (if last.Enqueue? then [last.msg] else [])
  }

  function Contents(entries: seq<Entry>): seq<Envelope>
  {
    seq(|entries|, i requires 0 <= i < |entries| => entries[i].content)
  }

  lemma ContentsAppend(a: seq<Entry>, b: seq<Entry>)
    ensures Contents(a + b) == Contents(a) + Contents(b)
  {
  }

  /** Each step appends to the log exactly the entry an `Enqueue` creates, and nothing else. */
  lemma StepLog(s: Sender, e: Event)
    requires Valid(s)
    ensures Log(Step(s, e)) == Log(s) + (if e.Enqueue? then [Entry(e.msg, s.enqueued)] else [])
    ensures Step(s, e).enqueued == s.enqueued + (if e.Enqueue? then 1 else 0)
  {
    match e
    case Enqueue(msg) =>
    case TransportOk =>
    case TransportFailed =>
    case RetryTimer =>
  }

  /** The same, read on the messages the log entries carry. */
  lemma StepContents(s: Sender, e: Event)
    requires Valid(s)
    ensures Contents(Log(Step(s, e))) == Contents(Log(s)) + (if e.Enqueue? then [e.msg] else [])
  {
    StepLog(s, e);
    if e.Enqueue? {
      ContentsAppend(Log(s), [Entry(e.msg, s.enqueued)]);
    }
  }

  /**
    No loss and no reordering, whatever the transport does: the resolved
    entries followed by the outstanding ones are exactly the enqueued
    messages, in enqueue order.
   */
  lemma {:induction false} NoLossNoReordering(s: Sender, events: seq<Event>)
    requires Valid(s)
    ensures Contents(Log(Run(s, events))) == Contents(Log(s)) + Sent(events)
    decreases |events|
  {
    if events != [] {
      var prefix := events[..|events| - 1];
      var last := events[|events| - 1];
      var mid := Run(s, prefix);
      var added := if last.Enqueue? then [last.msg] else [];
      NoLossNoReordering(s, prefix);
      StepContents(mid, last);
      assert Run(s, events) == Step(mid, last);
      assert Sent(events) == Sent(prefix) + added;
      assert Contents(Log(s)) + Sent(prefix) + added == Contents(Log(s)) + (Sent(prefix) + added);
    }
  }

  /** From the initial sender, the resolved completions are a prefix of the enqueued messages. */
  lemma ResolvedArePrefix(events: seq<Event>)
    ensures Contents(Run(Init(), events).resolved) <= Sent(events)
  {
    var r := Run(Init(), events);
    NoLossNoReordering(Init(), events);
    assert Log(Init()) == [];
    ContentsAppend(r.resolved, Outstanding(r));
    var sent := Contents(r.resolved) + Contents(Outstanding(r));
    assert sent == Sent(events);
    assert Contents(r.resolved) == sent[..|r.resolved|];
  }

  /**
    While a failed entry waits for the retry timer, sends only append: the
    failed entry stays at the head, nothing is attempted and nothing resolves.
   */
  lemma {:induction false} SuspendedSendsOnlyAppend(s: Sender, events: seq<Event>)
    requires Valid(s) && s.retryArmed
    requires forall i :: 0 <= i < |events| ==> events[i].Enqueue?
    ensures Run(s, events).retryArmed
    ensures Run(s, events).inFlight.None?
    ensures Run(s, events).resolved == s.resolved
    ensures Contents(Run(s, events).pending) == Contents(s.pending) + Sent(events)
    ensures Run(s, events).pending[0] == s.pending[0]
    decreases |events|
  {
    if events != [] {
      var prefix := events[..|events| - 1];
      var mid := Run(s, prefix);
      SuspendedSendsOnlyAppend(s, prefix);
      var msg := events[|events| - 1].msg;
      ContentsAppend(mid.pending, [Entry(msg, mid.enqueued)]);
    }
  }

  /** A send adds its message after the outstanding contents. */
  lemma SendContents(s: Sender, msg: Envelope)
    requires Valid(s)
    ensures Contents(Outstanding(Send(s, msg))) == Contents(Outstanding(s)) + [msg]
  {
    ContentsAppend(Outstanding(s), [Entry(msg, s.enqueued)]);
  }

  /** Sends each message in turn, as a handler's replies are pushed one after another. */
  function SendAll(s: Sender, msgs: seq<Envelope>): (r: Sender)
    requires Valid(s)
    ensures Valid(r)
    ensures r.resolved == s.resolved
    ensures r.enqueued == s.enqueued + |msgs|
    decreases |msgs|
  {
    if msgs == [] then s
    else Send(SendAll(s, msgs[..|msgs| - 1]), msgs[|msgs| - 1])
  }

  lemma Snoc<T>(before: seq<T>, xs: seq<T>)
    requires xs != []
    ensures (before + xs[..|xs| - 1]) + [xs[|xs| - 1]] == before + xs
  {
    assert xs[..|xs| - 1] + [xs[|xs| - 1]] == xs;
  }

  /** Sending several messages queues them behind the outstanding ones, in order. */
  lemma {:induction false} SendAllAppends(s: Sender, msgs: seq<Envelope>)
    requires Valid(s)
    ensures Contents(Outstanding(SendAll(s, msgs))) == Contents(Outstanding(s)) + msgs
    decreases |msgs|
  {
    if msgs != [] {
      var init, m := msgs[..|msgs| - 1], msgs[|msgs| - 1];
      var mid := SendAll(s, init);
      SendAllAppends(s, init);
      SendContents(mid, m);
      Snoc(Contents(Outstanding(s)), msgs);
    }
  }

}
