/**
 * C# events (multicast delegates). An event is its invocation list; raising it with
 * `Event?.Invoke(payload)` reaches every subscribed handler, and does nothing when the
 * list is empty (the delegate is null). Handlers are external code, so a raise is
 * recorded in a log instead of being run.
 */
module Delegates {
  /** Identifies one subscribed handler. */
  type HandlerId = nat

  /** One raise of an event: what was passed and who received it, in invocation order. */
  datatype Notification<+P> = Notification(payload: P, recipients: seq<HandlerId>)

  /** The log entries that `Event?.Invoke(payload)` adds for an event whose invocation list is `handlers`. */
  function Raise<P>(handlers: seq<HandlerId>, payload: P): (log: seq<Notification<P>>)
    ensures |log| <= 1
    ensures log != [] <==> handlers != []
    ensures forall n | n in log :: n.payload == payload && n.recipients == handlers
  {
    if handlers == [] then [] else [Notification(payload, handlers)]
  }
}
