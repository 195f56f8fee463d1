# Event-sourced aggregate write path of eventhorizon, in Dafny

This project models the write path of the eventhorizon event-sourcing library.

- **The aggregate base.** Every domain aggregate embeds it. It holds a fixed aggregate type and id, a version counter and a buffer of uncommitted events.
- **The test aggregates.** They turn commands into events and apply events to themselves.
- **The in-memory collaborators.** An event store, an event bus and a repository.
- **The event value and the event-data registry.**

Where the source updates state in place, the model uses classes (`AggregateBase`, `TestAggregate`, `TestAggregate2`, `MockEventStore`, `MockEventBus`, `MockRepository`, `EventDataRegistry`). Their methods' contracts give each call's new state in full. The aggregate classes also expose their state as a value (`State()`). Their methods are tied to pure step functions (`Aggregates.Step`, `TestDomain.HandleTestCommand`, `TestDomain.ApplyTestEvent`, …). The lemmas about sequences of operations are stated over those functions: replay, versions, and the documented "one uncommitted event" limitation.

Modules:

- `Wrappers`: `Option`, `Result` and `Outcome`, for Go's nil, `(T, error)` and `error` returns.
- `Errors`: Go error values. An error is a message, or the sentinel `ErrEventDataNotRegistered`, which callers compare by identity.
- `Events`: the event datatype, `NewEvent`, and the `"<type>@<version>"` rendering. It also has a parser for that rendering, with the round-trip proof.
- `Registry`: the event-data registry.
- `Aggregates`: the aggregate base (a class), its value model and lemmas over runs of its operations.
- `TestDomain`: the test commands and the two test aggregates.
- `Mocks`: the mock event store, event bus and repository.

The implementations of `NewEvent`, `Event.String`, `RegisterEventData` and `CreateEventData` live in event.go, which is not part of this model. Their behaviour here is the behaviour event_test.go asserts. An event built by `NewEvent` has empty aggregate linkage: the zero values of the string-based identifier types.

## Model

| member | source | states |
|---|---|---|
| `Aggregates.AggregateBase.constructor` | aggregatebase.go:61-68 | a new base has the given type and id, version 0 and an empty uncommitted buffer |
| `Aggregates.AggregateBase.AggregateType` | aggregatebase.go:70-73 | returns the aggregate type and changes nothing |
| `Aggregates.AggregateBase.AggregateID` | aggregatebase.go:75-78 | returns the aggregate id and changes nothing |
| `Aggregates.AggregateBase.Version` | aggregatebase.go:80-83 | returns the version and changes nothing |
| `Aggregates.AggregateBase.IncrementVersion` | aggregatebase.go:85-89 | the version rises by exactly one; the buffer is unchanged, and type and id are constants |
| `Aggregates.AggregateBase.NewEvent` | aggregatebase.go:91-105 | the event has the given type and data, the aggregate's type and id, and version `Version()+1`; it reads the aggregate and changes nothing |
| `Aggregates.AggregateBase.StoreEvent` | aggregatebase.go:107-110 | the buffer becomes the old buffer followed by the event, so order and earlier contents are kept; the version is unchanged |
| `Aggregates.AggregateBase.UncommittedEvents` | aggregatebase.go:112-115 | returns the buffer and changes nothing |
| `Aggregates.AggregateBase.ClearUncommittedEvents` | aggregatebase.go:117-120 | the buffer becomes empty; the version is unchanged |
| `Aggregates.RunKeepsIdentity` | aggregatebase.go:54-68 | no sequence of base operations changes the aggregate type or id |
| `Aggregates.RunCountsIncrements` | aggregatebase.go:85-89 | after any sequence of base operations, the version has grown by exactly the number of IncrementVersion calls |
| `Aggregates.EventsBeforeApplyShareVersion` | aggregatebase.go:91-95 | events created and stored with no IncrementVersion between them are appended in order after the earlier buffer; each is the event NewEvent makes in the starting state, so all carry the same version, start + 1 |
| `Aggregates.NewEventVersionFixedWithoutIncrement` | aggregatebase.go:91-95 | over any run of base operations without IncrementVersion (stores, new events and clears in any order), an event NewEvent creates at the end is the very event it would have created at the start, so it carries the same version |
| `Aggregates.OneEventPerApplyGivesConsecutiveVersions` | aggregatebase.go:41-50 | when each new event is followed by one IncrementVersion, the stored events carry consecutive versions start+1, start+2, … and the version counts them |
| `TestDomain.CommandAggregateID` | eventhorizon_test.go:115-124 | a command is addressed to the id it carries |
| `TestDomain.CommandAggregateType` | eventhorizon_test.go:116-125 | a TestCommand names TestAggregate and a TestCommand2 names TestAggregate2, and nothing else does |
| `TestDomain.CommandTypeOf` | eventhorizon_test.go:117-126 | TestCommand and TestCommand2 have the distinct command types "TestCommand" and "TestCommand2" |
| `TestDomain.TestAggregate.constructor` | eventhorizon_test.go:50-54 | a fresh TestAggregate has a fresh base of type TestAggregate with the given id, version 0, nothing buffered, nothing dispatched or applied, and 0 handled |
| `TestDomain.TestAggregate.HandleCommand` | eventhorizon_test.go:56-69 | it records the command and counts it on every call. It succeeds iff the command is a TestCommand whose content is not "error", and then appends exactly one TestEvent carrying the content at version `Version()+1`. The "error" content yields "command error" and any other command yields "couldn't handle command", both with the buffer unchanged. The version never changes |
| `TestDomain.TestAggregate.ApplyEvent` | eventhorizon_test.go:71-75 | records the event as applied and raises the version by exactly one; the buffer and the command bookkeeping are unchanged |
| `TestDomain.TestAggregate2.constructor` | eventhorizon_test.go:85-89 | as for TestAggregate, with aggregate type TestAggregate2 |
| `TestDomain.TestAggregate2.HandleCommand` | eventhorizon_test.go:91-104 | like TestAggregate.HandleCommand for TestCommand2, with data TestEvent2Data under event type TestEvent; a TestCommand is refused with "couldn't handle command" |
| `TestDomain.TestAggregate2.ApplyEvent` | eventhorizon_test.go:106-108 | records the event as applied and leaves the base, the version included, unchanged |
| `TestDomain.ReplayCountsEvents` | eventhorizon_test.go:71-75 | applying N events to a TestAggregate raises its version by exactly N, records the last event, and changes nothing else |
| `TestDomain.FreshReplayVersion` | eventhorizon_test.go:50-75 | N applies on a fresh TestAggregate give version N |
| `TestDomain.Replay2KeepsVersion` | eventhorizon_test.go:106-108 | any number of applies on a TestAggregate2 leave its base and version unchanged |
| `TestDomain.HandleThenApplyMatchesVersion` | eventhorizon_test.go:56-75 | handling an accepted TestCommand and then applying the event it stored brings the version to exactly that event's version |
| `TestDomain.TwoCommandsBeforeApplyShareVersion` | eventhorizon_test.go:60-66 | two accepted TestCommands handled on a fresh TestAggregate with no apply between them both produce an event at version 1 |
| `Mocks.MockEventStore.constructor` | eventhorizon_test.go:149-154 | a new store holds no events, has loaded no id, and carries the injected error |
| `Mocks.MockEventStore.Save` | eventhorizon_test.go:156-164 | with an injected error, it returns that error and the events are unchanged. Otherwise the events become the old events followed by the saved ones in order. The original version is ignored |
| `Mocks.MockEventStore.Load` | eventhorizon_test.go:166-172 | with an injected error, it returns that error and `Loaded` is unchanged. Otherwise `Loaded` becomes the id and the whole event sequence is returned |
| `Mocks.MockEventBus.constructor` | eventhorizon_test.go:174-176 | a new bus has recorded no events |
| `Mocks.MockEventBus.PublishEvent` | eventhorizon_test.go:178-180 | the published event is appended to the recorded events |
| `Mocks.AggregateID` | eventhorizon_test.go:145 | a stored aggregate is keyed by its base's id |
| `Mocks.MockRepository.constructor` | eventhorizon_test.go:136-138 | a new repository holds no aggregates |
| `Mocks.MockRepository.Load` | eventhorizon_test.go:140-142 | returns the aggregate stored under the id, or none, and never an error; the aggregate type is not consulted |
| `Mocks.MockRepository.Save` | eventhorizon_test.go:144-147 | stores the aggregate under its id, replacing any earlier entry, and never fails |
| `Mocks.SaveThenLoad` | eventhorizon_test.go:140-147 | loading the id of a just-saved aggregate returns that aggregate |
| `Events.NewEvent` | event_test.go:22-33 | the event has the given type and data, version 0, and no aggregate linkage |
| `Events.NatDigits` | event_test.go:37-39 | the decimal rendering of a version is a non-empty string of digits with no leading zero: a rendering that starts with '0' is exactly "0", the rendering of 0 |
| `Events.DecimalString` | event_test.go:37-39 | the rendering of a version is non-empty, starts with '-' exactly when the version is negative, is digits otherwise, and has no leading zero; 0 renders as exactly "0", as in "TestEvent@0" |
| `Events.NatDigitsRoundTrip` | event_test.go:37-39 | reading back the digits of a natural number gives that number |
| `Events.DecimalRoundTrip` | event_test.go:37-39 | reading back the decimal rendering of any integer version gives that version |
| `Events.EventString` | event_test.go:37-39 | `String()`: the event's type, then '@', then the decimal version; that '@' is the last one in the rendering. `EventStringRoundTrip` and `NewEventString` below state what the rendering determines and its value for a fresh TestEvent |
| `Events.EventStringRoundTrip` | event_test.go:37-39 | the rendering `"<type>@<version>"` determines the event's type and version: splitting at the last '@' gives them back |
| `Events.NewEventString` | event_test.go:37-39 | a fresh TestEvent renders as "TestEvent@0" |
| `Registry.DuplicateEventTypeMessage` | event_test.go:72-84 | the duplicate-registration message is `eventhorizon: registering duplicate types for ` followed by the offending type between double quotes, and nothing else |
| `Registry.EventDataRegistry.constructor` | event_test.go:42-46 | a new registry has no registered types, so creating data for any type fails until it is registered |
| `Registry.EventDataRegistry.RegisterEventData` | event_test.go:61-84 | the empty type is refused with "eventhorizon: attempt to register empty event type". A type already registered is refused with the duplicate message. Both refusals leave the registry unchanged. Otherwise exactly that entry is added. Earlier entries are never removed or changed |
| `Registry.EventDataRegistry.CreateEventData` | event_test.go:42-58 | succeeds iff the type is registered, and then gives the registered payload; otherwise fails with ErrEventDataNotRegistered |
| `Registry.CreateBeforeAndAfterRegister` | event_test.go:42-58 | before registration, creating the data fails as not registered; after registration, it gives the registered payload |
| `Registry.RegisterTwice` | event_test.go:72-84 | the second registration of a type is refused and the first stays in effect |
| `Registry.RegisterTestEvents` | eventhorizon_test.go:26-29 | on a new registry, registering TestEvent and TestEvent2 both succeed, and each type then maps to its own payload |
| `Registry.CreateTestEventRegister` | event_test.go:42-58 | for "TestEventRegister" on a new registry: creation first fails as not registered, registration succeeds, and creation then gives a TestEventRegister payload |
| `Registry.RegisterTestEventEmpty` | event_test.go:61-70 | registering the empty type fails with "eventhorizon: attempt to register empty event type" and registers nothing |
| `Registry.RegisterTestEventTwice` | event_test.go:72-84 | registering "TestEventRegisterTwice" twice fails the second time with exactly `eventhorizon: registering duplicate types for "TestEventRegisterTwice"` |

## Left out

- Event timestamps come from the wall clock and are not modelled.
- event.go is not part of this model. `NewEvent`, `String`, `RegisterEventData` and `CreateEventData` follow what event_test.go asserts.
- Registration panics are modelled as a `Fail` result carrying the panic message. Startup code that gets such a result must stop.
- The process-wide registries and the `init()` registration (eventhorizon_test.go:19-29) become explicit `EventDataRegistry` objects. Registering aggregate constructors (`RegisterAggregate`) is not modelled.
- A factory is modelled by the payload value it returns. Go returns a new pointer on each call, which the model does not distinguish.
- Registry.DuplicateEventTypeMessage: quotes the type verbatim. Go's `%q` also escapes quotes, backslashes and non-printable characters inside the type.
- The version is Go's `int`; the model uses unbounded integers, so wrap-around after 2^63 − 1 increments is not modelled.
- `UncommittedEvents` returns the Go slice itself, so a caller could mutate the buffer through it. The model returns a value, which rules that aliasing out.
- `MockEventStore.Load` likewise returns the store's own `Events` slice, so a caller could mutate the store through it. The model returns a value.
- The type assertion `e.(event)` in `AggregateBase.NewEvent` (aggregatebase.go:98) is modelled only on its `ok` branch.
- Commands are a datatype with the two test commands. For each aggregate, "a command that is not mine" is the other aggregate's command.
- The Go type switches match only pointer commands (`*TestCommand`, `*TestCommand2`). A command passed by value is still a `Command`, because its methods have value receivers, and the aggregate refuses it with "couldn't handle command". The model has no pointer/value distinction: only pointer commands are modelled, and it accepts every `TestCommand` value as if it were one.
- `MockEventBus.AddHandler`, `AddObserver` and `SetHandlingStrategy` do nothing, and the handler, observer and strategy types are not modelled.
- The local event bus tests delegate to a shared test package that is not part of this model. Their distinguishing case, asynchronous delivery, is concurrency.
- The real repository, event store and event bus are not part of this model. That includes replay on load, publish-after-save and the optimistic-concurrency check: the mock store ignores `originalVersion`.
- `MockRepository.constructor` stands for a repository built with a made map. A zero-valued Go `MockRepository{}` has a nil `Aggregates` map, so its `Save` panics with "assignment to entry in nil map" (its `Load` still returns nil). The model's `Save` never fails.
- The map inside `MockRepository` holds either test aggregate, through the `AggregateRef` datatype. Go stores an `Aggregate` interface value, and a missing key gives a nil aggregate, modelled as `None`.
- The injected store error is any Go `error`; the model uses `Option<Error>`.
