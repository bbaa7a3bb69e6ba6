/** `rele/contrib/unrecoverable_middleware.py`: a middleware that acknowledges
    a message whose handler failed with an `UnrecoverableException`, so that
    Pub/Sub does not deliver it again. Every other hook is the inherited
    no-op of `BaseMiddleware`. */
module Unrecoverable {
  import opened Exceptions
  import opened Messages
  import opened Subscriptions

  /** The number of acks the failure hook gives for error `err`. */
  function AcksFor(err: Exception): (n: nat)
    ensures n <= 1
    ensures n == 1 <==> IsInstance(err, UnrecoverableExceptionClass)
  {
    if IsInstance(err, UnrecoverableExceptionClass) then 1 else 0
  }

  /** `isinstance` also accepts subclasses: an error of any class derived
      from `UnrecoverableException`, however indirectly, is acked. */
  lemma SubclassesAcked(err: Exception, derived: ExceptionClass)
    requires IsInstance(err, derived) && IsSubclass(derived, UnrecoverableExceptionClass)
    ensures AcksFor(err) == 1
  {
    SubclassTransitive(err.cls, derived, UnrecoverableExceptionClass);
  }

  /** Every error this hook acks for is an `Exception`, the class the
      subscription callback's `except` clause catches; the worker's
      `NotConnectionError` and a JSON decoding error are never acked. */
  lemma AckedErrorsAreExceptions(err: Exception)
    ensures AcksFor(err) == 1 ==> IsInstance(err, ExceptionRootClass)
    ensures AcksFor(Exception(NotConnectionErrorClass, err.message)) == 0
    ensures AcksFor(Exception(JsonDecodeErrorClass, err.message)) == 0
  {
    if AcksFor(err) == 1 {
      CaughtByExceptClause();
      SubclassTransitive(err.cls, UnrecoverableExceptionClass, ExceptionRootClass);
    }
    var target := UnrecoverableExceptionClass;
    RootOnly(BaseExceptionClass, target);
    SingleBase(ExceptionRootClass, target);
    SingleBase(NotConnectionErrorClass, target);
    SingleBase(ValueErrorClass, target);
    SingleBase(JsonDecodeErrorClass, target);
  }

  class UnrecoverableMiddleware {
    constructor ()
    {
    }

    /** `post_process_message_failure(subscription, err, start_time,
        message)`: one `ack()` when `err` is an `UnrecoverableException`,
        none otherwise. */
    method PostProcessMessageFailure(subscription: Subscription, err: Exception, startTime: real, message: Message)
      modifies message
      ensures message.acks == old(message.acks) + AcksFor(err)
    {
      if IsInstance(err, UnrecoverableExceptionClass) {
        message.Ack();
      }
    }
  }
}
