/** What the worker loop sees of the broker client library: its error
    values, the messages it hands out, and the calls the loop makes on it.
    The library itself is a collaborator and is not modelled. */
module Nats {

  type byte = bv8

  /** A delivered message: opaque payload plus its delivery metadata. */
  datatype Msg = Msg(subject: string, data: seq<byte>, numDelivered: nat)

  /** Errors returned by the client library.  `Wrapped` is an error that
      carries another one, as `fmt.Errorf("...: %w", err)` produces; the
      others are the library's sentinel values or some other error. */
  datatype NatsError =
    | ErrTimeout
    | ErrConnectionClosed
    | ErrNoResponders
    | ErrBadSubscription
    | Other(text: string)
    | Wrapped(context: string, inner: NatsError)

  /** The innermost error of a wrapping chain. */
  function Root(err: NatsError): NatsError
  {
    if err.Wrapped? then Root(err.inner) else err
  }

  /** Go's `errors.Is`: `target` equals `err` or some error that `err` wraps. */
  predicate Is(err: NatsError, target: NatsError)
  {
    err == target || (err.Wrapped? && Is(err.inner, target))
  }

  /** For a sentinel target, `errors.Is` looks only at the root of the chain. */
  lemma {:induction false} IsSentinel(err: NatsError, target: NatsError)
    requires !target.Wrapped?
    ensures Is(err, target) <==> Root(err) == target
  {
    if err.Wrapped? {
      IsSentinel(err.inner, target);
    }
  }

  /** The fetch errors after which the held subscription is thrown away:
      exactly the chains rooted at one of the three connection-class
      sentinels, so a timeout or any other error is not one. */
  function IsConnectionError(err: NatsError): (b: bool)
    ensures b <==> Root(err) == ErrConnectionClosed || Root(err) == ErrNoResponders || Root(err) == ErrBadSubscription
    ensures b ==> !Is(err, ErrTimeout)
  {
    IsSentinel(err, ErrConnectionClosed);
    IsSentinel(err, ErrNoResponders);
    IsSentinel(err, ErrBadSubscription);
    IsSentinel(err, ErrTimeout);
    Is(err, ErrConnectionClosed) || Is(err, ErrNoResponders) || Is(err, ErrBadSubscription)
  }

  /** The three acknowledgement primitives of a delivered message. */
  datatype AckKind = Ack | Nak | Term

  /** One observable call the worker loop makes on the broker, or one
      handler invocation. */
  datatype Action =
    | Subscribe                           // a PullSubscribe attempt
    | Sleep2s                             // the fixed back-off after a failed attempt
    | Fetch                               // one Fetch(1, MaxWait) call
    | Invoke(msg: Msg)                    // the handler is called with msg
    | Acknowledge(msg: Msg, kind: AckKind) // msg.Ack(), msg.Nak() or msg.Term()
    | Unsubscribe                         // the deferred Unsubscribe on exit
}
