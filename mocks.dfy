/** The in-memory collaborators the aggregate is exercised against: an event store
    with an injectable failure, an event bus that records what it publishes, and a
    repository that keeps aggregates in a map by id. */
module Mocks {
  import opened Wrappers
  import opened Errors
  import opened Events
  import opened TestDomain

  class MockEventStore {
    var events: seq<Event>
    var loaded: UUID
    /** When set, every operation fails with this error. */
    var err: Option<Error>

    constructor (err: Option<Error>)
      ensures events == [] && loaded == "" && this.err == err
    {
      events := [];
      loaded := "";
      this.err := err;
    }

    /** Appends the events in order; the original version is not checked. */
    method Save(newEvents: seq<Event>, originalVersion: int) returns (r: Outcome<Error>)
      modifies this`events
      ensures err.Some? ==> r == Fail(err.value) && events == old(events)
      ensures err.None? ==> r == Pass && events == old(events) + newEvents
    {
      if err.Some? {
        return Fail(err.value);
      }
      for i := 0 to |newEvents|
        invariant events == old(events) + newEvents[..i]
      {
        events := events + [newEvents[i]];
      }
      return Pass;
    }

    /** Returns every stored event, whatever the type and id, and remembers the id. */
    method Load(aggregateType: Events.AggregateType, id: UUID) returns (r: Result<seq<Event>, Error>)
      modifies this`loaded
      ensures err.Some? ==> r == Failure(err.value) && loaded == old(loaded)
      ensures err.None? ==> r == Success(events) && loaded == id
    {
      if err.Some? {
        return Failure(err.value);
      }
      loaded := id;
      return Success(events);
    }
  }

  class MockEventBus {
    var events: seq<Event>

    constructor ()
      ensures events == []
    {
      events := [];
    }

    method PublishEvent(event: Event)
      modifies this
      ensures events == old(events) + [event]
    {
      events := events + [event];
    }
  }

  /** A stored aggregate: either of the two test aggregate types. */
  datatype AggregateRef = First(first: TestAggregate) | Second(second: TestAggregate2)

  /** The id of the stored aggregate; fixed at its construction. */
  function AggregateID(a: AggregateRef): (id: UUID)
    ensures a.First? ==> id == a.first.base.id
    ensures a.Second? ==> id == a.second.base.id
  {
    match a
    case First(x) => x.base.id
    case Second(y) => y.base.id
  }

  class MockRepository {
    var aggregates: map<UUID, AggregateRef>

    constructor ()
      ensures aggregates == map[]
    {
      aggregates := map[];
    }

    /** The aggregate stored under id, or none (a nil aggregate); never an error,
        and the aggregate type is not consulted. */
    method Load(aggregateType: Events.AggregateType, id: UUID) returns (aggregate: Option<AggregateRef>, err: Outcome<Error>)
      ensures err == Pass
      ensures id in aggregates ==> aggregate == Some(aggregates[id])
      ensures id !in aggregates ==> aggregate == None
    {
      if id in aggregates {
        aggregate := Some(aggregates[id]);
      } else {
        aggregate := None;
      }
      err := Pass;
    }

    /** Stores the aggregate under its id, replacing any earlier one. */
    method Save(aggregate: AggregateRef) returns (err: Outcome<Error>)
      modifies this
      ensures err == Pass
      ensures aggregates == old(aggregates)[AggregateID(aggregate) := aggregate]
    {
      aggregates := aggregates[AggregateID(aggregate) := aggregate];
      err := Pass;
    }
  }

  /** A saved aggregate is what a later load of its id returns. */
  method SaveThenLoad(repository: MockRepository, aggregate: AggregateRef) returns (loaded: Option<AggregateRef>)
    modifies repository
    ensures loaded == Some(aggregate)
    ensures repository.aggregates == old(repository.aggregates)[AggregateID(aggregate) := aggregate]
  {
    var saved := repository.Save(aggregate);
    var err;
    loaded, err := repository.Load(TestAggregateType, AggregateID(aggregate));
  }
}
