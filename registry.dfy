/** The event data registry: event type -> the (zero-valued) payload its factory
    produces. Registration is append-only; misconfiguration is reported as an error
    result where the source panics. */
module Registry {
  import opened Wrappers
  import opened Errors
  import opened Events

  const EmptyEventTypeMessage := "eventhorizon: attempt to register empty event type"

  /** The text of the duplicate-registration failure: the type, double-quoted. */
  function DuplicateEventTypeMessage(eventType: EventType): (m: string)
    ensures |m| == |eventType| + 48
    ensures m[..47] == "eventhorizon: registering duplicate types for \""
    ensures m[|m| - |eventType| - 1..|m| - 1] == eventType
    ensures m[|m| - 1] == '"'
  {
    "eventhorizon: registering duplicate types for \"" + eventType + "\""
  }

  class EventDataRegistry {
    /** The payload each registered factory returns. */
    var factories: map<EventType, EventData>

    constructor ()
      ensures factories == map[]
    {
      factories := map[];
    }

    /** Registers a factory for an event type. The empty type and a type that is
        already registered are refused, and the registry is then left as it was. */
    method RegisterEventData(eventType: EventType, data: EventData) returns (r: Outcome<Error>)
      modifies this
      ensures eventType == "" ==> r == Fail(Error(EmptyEventTypeMessage))
      ensures eventType != "" && eventType in old(factories) ==>
        r == Fail(Error(DuplicateEventTypeMessage(eventType)))
      ensures r.Pass? <==> eventType != "" && eventType !in old(factories)
      ensures r.Pass? ==> factories == old(factories)[eventType := data]
      ensures r.Fail? ==> factories == old(factories)
      ensures old(factories).Keys <= factories.Keys
      ensures forall t :: t in old(factories) ==> factories[t] == old(factories)[t]
    {
      if eventType == "" {
        return Fail(Error(EmptyEventTypeMessage));
      }
      if eventType in factories {
        return Fail(Error(DuplicateEventTypeMessage(eventType)));
      }
      factories := factories[eventType := data];
      return Pass;
    }

    /** A fresh payload for a registered event type, or ErrEventDataNotRegistered. */
    method CreateEventData(eventType: EventType) returns (r: Result<EventData, Error>)
      ensures r.Success? <==> eventType in factories
      ensures r.Success? ==> r.value == factories[eventType]
      ensures r.Failure? ==> r.error == EventDataNotRegistered
    {
      if eventType in factories {
        return Success(factories[eventType]);
      }
      return Failure(EventDataNotRegistered);
    }
  }

  /** Creating data for a type fails before it is registered and, once it is
      registered, yields the registered factory's payload. */
  method CreateBeforeAndAfterRegister(registry: EventDataRegistry, eventType: EventType, data: EventData)
    returns (before: Result<EventData, Error>, registered: Outcome<Error>, after: Result<EventData, Error>)
    requires eventType != "" && eventType !in registry.factories
    modifies registry
    ensures before == Failure(EventDataNotRegistered)
    ensures registered == Pass
    ensures after == Success(data)
  {
    before := registry.CreateEventData(eventType);
    registered := registry.RegisterEventData(eventType, data);
    after := registry.CreateEventData(eventType);
  }

  /** Registering the same type twice: the second call is refused and the first
      registration stays in effect. */
  method RegisterTwice(registry: EventDataRegistry, eventType: EventType, first: EventData, second: EventData)
    returns (r1: Outcome<Error>, r2: Outcome<Error>)
    requires eventType != "" && eventType !in registry.factories
    modifies registry
    ensures r1 == Pass
    ensures r2 == Fail(Error(DuplicateEventTypeMessage(eventType)))
    ensures eventType in registry.factories && registry.factories[eventType] == first
  {
    r1 := registry.RegisterEventData(eventType, first);
    r2 := registry.RegisterEventData(eventType, second);
  }

  /** The start-up registration of the two test payloads: on a new registry both
      types are accepted, and each maps to its own payload. */
  method RegisterTestEvents() returns (registry: EventDataRegistry, r1: Outcome<Error>, r2: Outcome<Error>)
    ensures r1 == Pass && r2 == Pass
    ensures registry.factories == map[TestEventType := TestEventData(""), TestEvent2Type := TestEvent2Data("")]
  {
    registry := new EventDataRegistry();
    r1 := registry.RegisterEventData(TestEventType, TestEventData(""));
    r2 := registry.RegisterEventData(TestEvent2Type, TestEvent2Data(""));
  }

  /** TestCreateEventData on a new registry with the type "TestEventRegister". */
  method CreateTestEventRegister() returns (before: Result<EventData, Error>, registered: Outcome<Error>, after: Result<EventData, Error>)
    ensures before == Failure(EventDataNotRegistered)
    ensures registered == Pass
    ensures after == Success(TestEventRegister)
  {
    var registry := new EventDataRegistry();
    before, registered, after := CreateBeforeAndAfterRegister(registry, "TestEventRegister", TestEventRegister);
  }

  /** TestRegisterEventEmptyName: the empty type is refused and nothing is registered. */
  method RegisterTestEventEmpty() returns (registry: EventDataRegistry, r: Outcome<Error>)
    ensures r == Fail(Error("eventhorizon: attempt to register empty event type"))
    ensures registry.factories == map[]
  {
    registry := new EventDataRegistry();
    r := registry.RegisterEventData("", TestEventRegisterEmpty);
  }

  /** TestRegisterEventTwice with the type "TestEventRegisterTwice": the second call
      fails with exactly the message the test expects. */
  method RegisterTestEventTwice() returns (r1: Outcome<Error>, r2: Outcome<Error>)
    ensures r1 == Pass
    ensures r2 == Fail(Error("eventhorizon: registering duplicate types for \"TestEventRegisterTwice\""))
  {
    var registry := new EventDataRegistry();
    r1, r2 := RegisterTwice(registry, "TestEventRegisterTwice", TestEventRegisterTwice, TestEventRegisterTwice);
    assert DuplicateEventTypeMessage("TestEventRegisterTwice")
      == "eventhorizon: registering duplicate types for \"TestEventRegisterTwice\"";
  }
}
