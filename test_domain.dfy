/** The two test aggregates that exercise the base through a full
    command -> event -> apply cycle, and the commands they handle. */
module TestDomain {
  import opened Wrappers
  import opened Errors
  import opened Events
  import opened Aggregates

  const TestAggregateType: Events.AggregateType := "TestAggregate"
  const TestAggregate2Type: Events.AggregateType := "TestAggregate2"

  type CommandType = string

  const TestCommandType: CommandType := "TestCommand"
  const TestCommand2Type: CommandType := "TestCommand2"

  /** The two test commands; a TestAggregate handles the first, a TestAggregate2 the second. */
  datatype Command =
    | TestCommand(testID: UUID, content: string)
    | TestCommand2(testID: UUID, content: string)

  /** The aggregate a command is addressed to is the one whose id it carries. */
  function CommandAggregateID(c: Command): (id: UUID)
    ensures id == c.testID
  {
    match c
    case TestCommand(id, _) => id
    case TestCommand2(id, _) => id
  }

  /** A command names the aggregate type that handles it. */
  function CommandAggregateType(c: Command): (t: Events.AggregateType)
    ensures t == TestAggregateType <==> c.TestCommand?
    ensures t == TestAggregate2Type <==> c.TestCommand2?
  {
    match c
    case TestCommand(_, _) => TestAggregateType
    case TestCommand2(_, _) => TestAggregate2Type
  }

  /** Each command variant has its own command type. */
  function CommandTypeOf(c: Command): (t: CommandType)
    ensures t == TestCommandType <==> c.TestCommand?
    ensures t == TestCommand2Type <==> c.TestCommand2?
  {
    match c
    case TestCommand(_, _) => TestCommandType
    case TestCommand2(_, _) => TestCommand2Type
  }

  // ---------------------------------------------------------------------------
  // Value model of a test aggregate: its base and its own bookkeeping fields.

  datatype TestState = TestState(
    base: BaseState,
    dispatchedCommand: Option<Command>,
    appliedEvent: Option<Event>,
    numHandled: int)

  /** What HandleCommand returns together with the state it leaves behind. */
  datatype Handling = Handling(err: Outcome<Error>, state: TestState)

  function NewTestState(aggregateType: Events.AggregateType, id: UUID): TestState {
    TestState(BaseState(aggregateType, id, 0, []), None, None, 0)
  }

  /** Common start of both handlers: remember the command and count it. */
  function Dispatched(s: TestState, c: Command): TestState {
    s.(dispatchedCommand := Some(c), numHandled := s.numHandled + 1)
  }

  /** TestAggregate.HandleCommand. */
  function HandleTestCommand(s: TestState, c: Command): Handling {
    var s1 := Dispatched(s, c);
    match c
    case TestCommand(_, content) =>
      if content == "error" then Handling(Fail(CommandError), s1)
      else Handling(Pass, s1.(base := Step(s.base, StoreNew(TestEventType, TestEventData(content)))))
    case TestCommand2(_, _) => Handling(Fail(CouldNotHandleCommand), s1)
  }

  /** TestAggregate2.HandleCommand. */
  function HandleTestCommand2(s: TestState, c: Command): Handling {
    var s1 := Dispatched(s, c);
    match c
    case TestCommand2(_, content) =>
      if content == "error" then Handling(Fail(CommandError), s1)
      else Handling(Pass, s1.(base := Step(s.base, StoreNew(TestEventType, TestEvent2Data(content)))))
    case TestCommand(_, _) => Handling(Fail(CouldNotHandleCommand), s1)
  }

  /** TestAggregate.ApplyEvent: record the event, then (deferred) bump the version. */
  function ApplyTestEvent(s: TestState, e: Event): TestState {
    s.(appliedEvent := Some(e), base := Step(s.base, Increment))
  }

  /** TestAggregate2.ApplyEvent: record the event and nothing else. */
  function ApplyTestEvent2(s: TestState, e: Event): TestState {
    s.(appliedEvent := Some(e))
  }

  /** Applying events to a TestAggregate one after the other, in order. */
  function Replay(s: TestState, events: seq<Event>): TestState
    decreases |events|
  {
    if events == [] then s else Replay(ApplyTestEvent(s, events[0]), events[1..])
  }

  /** Applying events to a TestAggregate2 one after the other, in order. */
  function Replay2(s: TestState, events: seq<Event>): TestState
    decreases |events|
  {
    if events == [] then s else Replay2(ApplyTestEvent2(s, events[0]), events[1..])
  }

  /** Every apply of a TestAggregate bumps the version exactly once: after N applies
      the version has grown by N, the last event is the one recorded, and nothing
      else of the aggregate changed. */
  lemma {:induction false} ReplayCountsEvents(s: TestState, events: seq<Event>)
    ensures Replay(s, events).base.version == s.base.version + |events|
    ensures Replay(s, events).appliedEvent == if events == [] then s.appliedEvent else Some(events[|events| - 1])
    ensures Replay(s, events).base.(version := s.base.version) == s.base
    ensures Replay(s, events).numHandled == s.numHandled
    ensures Replay(s, events).dispatchedCommand == s.dispatchedCommand
    decreases |events|
  {
    if events != [] {
      var rest := events[1..];
      ReplayCountsEvents(ApplyTestEvent(s, events[0]), rest);
      if rest != [] {
        assert rest[|rest| - 1] == events[|events| - 1];
      }
    }
  }

  /** From a fresh TestAggregate, N applies give version N. */
  lemma FreshReplayVersion(id: UUID, events: seq<Event>)
    ensures Replay(NewTestState(TestAggregateType, id), events).base.version == |events|
  {
    ReplayCountsEvents(NewTestState(TestAggregateType, id), events);
  }

  /** A TestAggregate2 never bumps its version: applies record the last event only. */
  lemma {:induction false} Replay2KeepsVersion(s: TestState, events: seq<Event>)
    ensures Replay2(s, events).base == s.base
    ensures Replay2(s, events).appliedEvent == if events == [] then s.appliedEvent else Some(events[|events| - 1])
    decreases |events|
  {
    if events != [] {
      var rest := events[1..];
      Replay2KeepsVersion(ApplyTestEvent2(s, events[0]), rest);
      if rest != [] {
        assert rest[|rest| - 1] == events[|events| - 1];
      }
    }
  }

  /** Handling a command then applying the event it stored leaves the version
      equal to the version that event carries: the stream stays gapless. */
  lemma HandleThenApplyMatchesVersion(s: TestState, id: UUID, content: string)
    requires content != "error"
    ensures var h := HandleTestCommand(s, TestCommand(id, content));
      var e := h.state.base.uncommittedEvents[|h.state.base.uncommittedEvents| - 1];
      h.err == Pass && ApplyTestEvent(h.state, e).base.version == e.version
  {
  }

  /** The documented sharp edge, shown on a TestAggregate: two commands handled with
      no apply in between both produce an event at version 1. */
  lemma TwoCommandsBeforeApplyShareVersion(id: UUID)
    ensures var h1 := HandleTestCommand(NewTestState(TestAggregateType, id), TestCommand(id, "a"));
      var h2 := HandleTestCommand(h1.state, TestCommand(id, "b"));
      h2.err == Pass && |h2.state.base.uncommittedEvents| == 2
      && h2.state.base.uncommittedEvents[0].version == 1
      && h2.state.base.uncommittedEvents[1].version == 1
  {
  }

  // ---------------------------------------------------------------------------
  // The objects.

  /** An aggregate that stores one TestEvent per accepted TestCommand and bumps its
      version on every apply. */
  class TestAggregate {
    const base: AggregateBase
    var dispatchedCommand: Option<Command>
    var appliedEvent: Option<Event>
    var numHandled: int

    /** The embedded base was made for this aggregate type; both are constants. */
    predicate Valid() {
      base.aggregateType == TestAggregateType
    }

    function State(): TestState
      reads this, base
    {
      TestState(base.State(), dispatchedCommand, appliedEvent, numHandled)
    }

    constructor (id: UUID)
      ensures fresh(base)
      ensures State() == NewTestState(TestAggregateType, id)
      ensures Valid()
    {
      base := new AggregateBase(TestAggregateType, id);
      dispatchedCommand := None;
      appliedEvent := None;
      numHandled := 0;
    }

    method HandleCommand(command: Command) returns (err: Outcome<Error>)
      requires Valid()
      modifies this, base
      ensures dispatchedCommand == Some(command)
      ensures numHandled == old(numHandled) + 1
      ensures base.version == old(base.version)
      ensures err == Pass <==> command.TestCommand? && command.content != "error"
      ensures command.TestCommand? && command.content == "error" ==> err == Fail(CommandError)
      ensures command.TestCommand2? ==> err == Fail(CouldNotHandleCommand)
      ensures err.Fail? ==> base.uncommittedEvents == old(base.uncommittedEvents)
      ensures err.Pass? ==>
        base.uncommittedEvents == old(base.uncommittedEvents)
          + [Event(TestEventType, TestEventData(command.content), TestAggregateType, base.id, old(base.version) + 1)]
      ensures Handling(err, State()) == HandleTestCommand(old(State()), command)
    {
      dispatchedCommand := Some(command);
      numHandled := numHandled + 1;
      match command
      case TestCommand(_, content) =>
        if content == "error" {
          return Fail(CommandError);
        }
        base.StoreEvent(base.NewEvent(TestEventType, TestEventData(content)));
        return Pass;
      case TestCommand2(_, _) =>
        return Fail(CouldNotHandleCommand);
    }

    method ApplyEvent(event: Event)
      modifies this, base
      ensures appliedEvent == Some(event)
      ensures base.version == old(base.version) + 1
      ensures base.uncommittedEvents == old(base.uncommittedEvents)
      ensures dispatchedCommand == old(dispatchedCommand) && numHandled == old(numHandled)
      ensures State() == ApplyTestEvent(old(State()), event)
    {
      appliedEvent := Some(event);
      base.IncrementVersion();
    }
  }

  /** An aggregate that stores one TestEvent per accepted TestCommand2 and, unlike
      TestAggregate, does not bump its version when applying. */
  class TestAggregate2 {
    const base: AggregateBase
    var dispatchedCommand: Option<Command>
    var appliedEvent: Option<Event>
    var numHandled: int

    /** The embedded base was made for this aggregate type; both are constants. */
    predicate Valid() {
      base.aggregateType == TestAggregate2Type
    }

    function State(): TestState
      reads this, base
    {
      TestState(base.State(), dispatchedCommand, appliedEvent, numHandled)
    }

    constructor (id: UUID)
      ensures fresh(base)
      ensures State() == NewTestState(TestAggregate2Type, id)
      ensures Valid()
    {
      base := new AggregateBase(TestAggregate2Type, id);
      dispatchedCommand := None;
      appliedEvent := None;
      numHandled := 0;
    }

    method HandleCommand(command: Command) returns (err: Outcome<Error>)
      requires Valid()
      modifies this, base
      ensures dispatchedCommand == Some(command)
      ensures numHandled == old(numHandled) + 1
      ensures base.version == old(base.version)
      ensures err == Pass <==> command.TestCommand2? && command.content != "error"
      ensures command.TestCommand2? && command.content == "error" ==> err == Fail(CommandError)
      ensures command.TestCommand? ==> err == Fail(CouldNotHandleCommand)
      ensures err.Fail? ==> base.uncommittedEvents == old(base.uncommittedEvents)
      ensures err.Pass? ==>
        base.uncommittedEvents == old(base.uncommittedEvents)
          + [Event(TestEventType, TestEvent2Data(command.content), TestAggregate2Type, base.id, old(base.version) + 1)]
      ensures Handling(err, State()) == HandleTestCommand2(old(State()), command)
    {
      dispatchedCommand := Some(command);
      numHandled := numHandled + 1;
      match command
      case TestCommand2(_, content) =>
        if content == "error" {
          return Fail(CommandError);
        }
        base.StoreEvent(base.NewEvent(TestEventType, TestEvent2Data(content)));
        return Pass;
      case TestCommand(_, _) =>
        return Fail(CouldNotHandleCommand);
    }

    method ApplyEvent(event: Event)
      modifies this
      ensures appliedEvent == Some(event)
      ensures dispatchedCommand == old(dispatchedCommand) && numHandled == old(numHandled)
      ensures State() == ApplyTestEvent2(old(State()), event)
    {
      appliedEvent := Some(event);
    }
  }
}
