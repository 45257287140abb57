/** Permanent against transient publish errors (packages/events/src/poison.ts, kafka.ts, outbox.ts). */
module Poison {
  import opened Common
  import opened Outbox

  /**
    What can be observed of a thrown value: whether it is an object, and an Error, its name, whether `issues` is there
    and an array.
   */
  datatype Thrown = Thrown(isObject: bool, isError: bool, name: Option<string>, issuesIsArray: Option<bool>)

  const ZOD_ERROR := Thrown(true, true, Some("ZodError"), Some(true))
  const TIMEOUT_ERROR := Thrown(true, true, Some("OutboxPublishTimeoutError"), None)
  const PLAIN_ERROR := Thrown(true, true, Some("Error"), None)

  predicate IsZodError(e: Thrown) {
    e.isObject && e.name == Some("ZodError") && e.issuesIsArray == Some(true)
  }

  predicate IsPermanentPublishError(e: Thrown) {
    IsZodError(e)
  }

  /** How the broker side of one send ends. */
  datatype SendEnd = Acknowledged | Refused(error: Thrown) | NoAnswerInTime

  /** How one call of the publish callback ends. */
  datatype Attempt = Published | Threw(error: Thrown)

  /** `KafkaEventProducer.publish`: validate, then send. Without an answer the promise stays open. */
  function Send(registry: Registry, envelope: Envelope, end: SendEnd): Option<Attempt> {
    if !Validates(registry, envelope) then Some(Threw(ZOD_ERROR))
    else match end
      case Acknowledged => Some(Published)
      case Refused(error) => Some(Threw(error))
      case NoAnswerInTime => None
  }

  /**
    `withPublishTimeout`: the first of the send and the timer decides; a thrown value that is no Error is wrapped in
    one.
   */
  function WithPublishTimeout(sent: Option<Attempt>): Attempt {
    match sent
    case None => Threw(TIMEOUT_ERROR)
    case Some(Published) => Published
    case Some(Threw(error)) => Threw(if error.isError then error else PLAIN_ERROR)
  }

  function PublishAttempt(registry: Registry, envelope: Envelope, end: SendEnd): Attempt {
    WithPublishTimeout(Send(registry, envelope, end))
  }

  predicate Permanent(a: Attempt) {
    a.Threw? && IsPermanentPublishError(a.error)
  }

  predicate Transient(a: Attempt) {
    a.Threw? && !IsPermanentPublishError(a.error)
  }

  /** The event type has no schema, or the payload passes it. */
  predicate Sound(registry: Registry, envelope: Envelope) {
    envelope.eventType !in registry || registry[envelope.eventType](envelope.payload)
  }

  /** The broker client itself throws what looks like a validation error: an Error of that name, with its `issues`. */
  predicate LooksInvalid(end: SendEnd) {
    end.Refused? && end.error.isObject && end.error.isError && end.error.name == Some("ZodError") &&
    end.error.issuesIsArray == Some(true)
  }

  /**
    A publish is permanent exactly when the payload fails the schema of its type or the broker client throws a
    look-alike; a sound event is published when the broker acknowledges it, and everything else is transient: no
    answer in time, a thrown value that is no Error, an Error of any other name or without an array of issues.
   */
  lemma {:induction false} PoisonIsInvalidPayload(registry: Registry, envelope: Envelope, end: SendEnd)
    ensures var a := PublishAttempt(registry, envelope, end);
            && (Permanent(a) <==> !Sound(registry, envelope) || LooksInvalid(end))
            && (a.Published? <==> Sound(registry, envelope) && end.Acknowledged?)
            && (Transient(a) <==> Sound(registry, envelope) && !end.Acknowledged? && !LooksInvalid(end))
  {
    assert TIMEOUT_ERROR.name.value[0] == 'O' && PLAIN_ERROR.name.value[0] == 'E' && ZOD_ERROR.name.value[0] == 'Z';
  }
}
