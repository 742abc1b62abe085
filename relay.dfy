/** The after-commit relay from domain events to the Redis notification
    channel (TransactionalNotificationListener.kt) and the wire message it
    sends (NotificationMessage.kt). */
module Relay {

  import opened Wrappers
  import opened Events

  /** The wire form of an `OperationEvent`: the two enums flattened to their
      names. The browser receives the same record after JSON transport. */
  datatype NotificationMessage = NotificationMessage(
    entityType: string,
    operation: string,
    entityId: Option<string>,
    entityName: Option<string>,
    initiatedBy: Option<string>,
    timestamp: int)

  /** The message `onOperationEvent` builds for an event. No information is
      lost: `FromMessage` reads the event back. */
  function ToMessage(event: OperationEvent): (m: NotificationMessage)
    ensures FromMessage(m) == Some(event)
  {
    NotificationMessage(
      EntityTypeName(event.entityType),
      OperationName(event.operation),
      event.entityId,
      event.entityName,
      event.initiatedBy,
      event.timestamp)
  }

  /** Reads a wire message back as an event; `None` for an unknown entity or
      operation name. */
  function FromMessage(m: NotificationMessage): (r: Option<OperationEvent>)
    ensures r.Some? ==> EntityTypeName(r.value.entityType) == m.entityType
    ensures r.Some? ==> OperationName(r.value.operation) == m.operation
  {
    match (EntityTypeOf(m.entityType), OperationOf(m.operation))
    case (Some(t), Some(op)) =>
      Some(OperationEvent(t, op, m.entityId, m.entityName, m.initiatedBy, m.timestamp))
    case _ => None
  }

  /** Two events that produce the same message are the same event. */
  lemma ToMessageInjective(a: OperationEvent, b: OperationEvent)
    requires ToMessage(a) == ToMessage(b)
    ensures a == b
  {
    assert Some(a) == FromMessage(ToMessage(a)) == FromMessage(ToMessage(b)) == Some(b);
  }

  /** The listener. What reaches Redis is the log `sent` of (channel, message)
      pairs; `failures` is the log of events whose publication failed and was
      only logged. */
  class TransactionalNotificationListener {
    const redisChannel: string
    var sent: seq<(string, NotificationMessage)>
    var failures: seq<OperationEvent>

    /** Everything sent went to the one configured channel. */
    ghost predicate Valid()
      reads this
    {
      forall i :: 0 <= i < |sent| ==> sent[i].0 == redisChannel
    }

    constructor (channel: string)
      ensures Valid()
      ensures redisChannel == channel && sent == [] && failures == []
    {
      redisChannel := channel;
      sent := [];
      failures := [];
    }

    /** Called once per committed event. `serializes` says whether Jackson
        serialization succeeds and `sendSucceeds` whether the Redis send does.
        The method has no error result: every failure is caught. */
    method OnOperationEvent(event: OperationEvent, serializes: bool, sendSucceeds: bool)
      requires Valid()
      modifies this
      ensures Valid()
      ensures serializes && sendSucceeds ==>
                sent == old(sent) + [(redisChannel, ToMessage(event))] && failures == old(failures)
      ensures !(serializes && sendSucceeds) ==>
                sent == old(sent) && failures == old(failures) + [event]
    {
      if !serializes {
        failures := failures + [event];
        return;
      }
      var message := ToMessage(event);
      if sendSucceeds {
        sent := sent + [(redisChannel, message)];
      } else {
        failures := failures + [event];
      }
    }
  }
}
