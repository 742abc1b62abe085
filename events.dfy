/** Domain events emitted by the entity services of the api module
    (api/src/main/kotlin/com/itsz/app/event/). */
module Events {

  import opened Wrappers

  datatype EntityType = COURSE | AUTHOR | USER

  datatype OperationType = CREATED | UPDATED | DELETED

  /** Kotlin's `Enum.name`. */
  function EntityTypeName(t: EntityType): string {
    match t
    case COURSE => "COURSE"
    case AUTHOR => "AUTHOR"
    case USER => "USER"
  }

  function OperationName(op: OperationType): string {
    match op
    case CREATED => "CREATED"
    case UPDATED => "UPDATED"
    case DELETED => "DELETED"
  }

  /** Kotlin's `EntityType.valueOf`, total: `None` where `valueOf` would throw. */
  function EntityTypeOf(name: string): (r: Option<EntityType>)
    ensures r.Some? ==> EntityTypeName(r.value) == name
  {
    if name == "COURSE" then Some(COURSE)
    else if name == "AUTHOR" then Some(AUTHOR)
    else if name == "USER" then Some(USER)
    else None
  }

  function OperationOf(name: string): (r: Option<OperationType>)
    ensures r.Some? ==> OperationName(r.value) == name
  {
    if name == "CREATED" then Some(CREATED)
    else if name == "UPDATED" then Some(UPDATED)
    else if name == "DELETED" then Some(DELETED)
    else None
  }

  /** An enum constant's name reads back as that constant. */
  lemma NamesRoundTrip(t: EntityType, op: OperationType)
    ensures EntityTypeOf(EntityTypeName(t)) == Some(t)
    ensures OperationOf(OperationName(op)) == Some(op)
  {
  }

  /** `timestamp` is epoch milliseconds; the source defaults it to
      `System.currentTimeMillis()`, which the model takes as a parameter
      of each service call. */
  datatype OperationEvent = OperationEvent(
    entityType: EntityType,
    operation: OperationType,
    entityId: Option<string>,
    entityName: Option<string>,
    initiatedBy: Option<string>,
    timestamp: int)

  /** The application event publisher, seen as the log of every event handed
      to it, oldest first. */
  class DomainEventPublisher {
    var published: seq<OperationEvent>

    constructor ()
      ensures published == []
    {
      published := [];
    }

    method Publish(event: OperationEvent)
      modifies this
      ensures published == old(published) + [event]
    {
      published := published + [event];
    }
  }
}
