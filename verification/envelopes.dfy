/** The message envelope exchanged over the queue. */
module Envelopes {

  import opened Values

  /**
    A message as handed to the transport or received from it. Fields the
    sender leaves unset are `Undefined`; the body is a plain object.
   */
  datatype Envelope = Envelope(
    messageId: Json,
    body: map<string, Json>,
    sessionId: Json,
    replyTo: Json,
    timeToLive: Json)

}
