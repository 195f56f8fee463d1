/** The aggregate base: identity, version counter and the buffer of uncommitted
    events that every domain aggregate embeds. */
module Aggregates {
  import opened Events

  /** The value of an aggregate base at one moment. */
  datatype BaseState = BaseState(
    aggregateType: Events.AggregateType,
    id: UUID,
    version: int,
    uncommittedEvents: seq<Event>)

  /** The event NewEvent creates in state s: stamped with the aggregate's type and
      id and with the version it will take once applied, one past the current one. */
  function EventFor(s: BaseState, eventType: EventType, data: EventData): Event {
    var e := Events.NewEvent(eventType, data);
    e.(aggregateType := s.aggregateType, aggregateID := s.id, version := s.version + 1)
  }

  /** The state-changing operations of the base. StoreNew is the pattern domain
      handlers use: store the event NewEvent creates in the current state. */
  datatype Op =
    | Increment
    | Store(event: Event)
    | StoreNew(eventType: EventType, data: EventData)
    | Clear

  function Step(s: BaseState, op: Op): BaseState {
    match op
    case Increment => s.(version := s.version + 1)
    case Store(e) => s.(uncommittedEvents := s.uncommittedEvents + [e])
    case StoreNew(t, d) => s.(uncommittedEvents := s.uncommittedEvents + [EventFor(s, t, d)])
    case Clear => s.(uncommittedEvents := [])
  }

  /** The state after performing ops in order. */
  function Run(s: BaseState, ops: seq<Op>): BaseState
    decreases |ops|
  {
    if ops == [] then s else Run(Step(s, ops[0]), ops[1..])
  }

  /** The number of IncrementVersion calls among ops. */
  function Increments(ops: seq<Op>): nat {
    if ops == [] then 0 else (if ops[0].Increment? then 1 else 0) + Increments(ops[1..])
  }

  /** No operation changes the aggregate's type or id. */
  lemma {:induction false} RunKeepsIdentity(s: BaseState, ops: seq<Op>)
    ensures Run(s, ops).aggregateType == s.aggregateType
    ensures Run(s, ops).id == s.id
    decreases |ops|
  {
    if ops != [] {
      RunKeepsIdentity(Step(s, ops[0]), ops[1..]);
    }
  }

  /** The version moves only by IncrementVersion, by exactly one per call. */
  lemma {:induction false} RunCountsIncrements(s: BaseState, ops: seq<Op>)
    ensures Run(s, ops).version == s.version + Increments(ops)
    decreases |ops|
  {
    if ops != [] {
      RunCountsIncrements(Step(s, ops[0]), ops[1..]);
    }
  }

  /** The documented limitation: events created and stored with no IncrementVersion
      in between are all created as if each were the next one, so all of them carry
      the same version, one past the version at the start. */
  lemma {:induction false} EventsBeforeApplyShareVersion(s: BaseState, ops: seq<Op>)
    requires forall i :: 0 <= i < |ops| ==> ops[i].StoreNew?
    ensures Run(s, ops).version == s.version
    ensures |Run(s, ops).uncommittedEvents| == |s.uncommittedEvents| + |ops|
    ensures Run(s, ops).uncommittedEvents[..|s.uncommittedEvents|] == s.uncommittedEvents
    ensures forall i :: 0 <= i < |ops| ==>
      Run(s, ops).uncommittedEvents[|s.uncommittedEvents| + i] == EventFor(s, ops[i].eventType, ops[i].data)
    ensures forall i :: |s.uncommittedEvents| <= i < |Run(s, ops).uncommittedEvents| ==>
      Run(s, ops).uncommittedEvents[i].version == s.version + 1
    decreases |ops|
  {
    if ops != [] {
      var s1 := Step(s, ops[0]);
      var rest := ops[1..];
      assert s1.uncommittedEvents == s.uncommittedEvents + [EventFor(s, ops[0].eventType, ops[0].data)];
      assert forall t, d :: EventFor(s1, t, d) == EventFor(s, t, d);
      EventsBeforeApplyShareVersion(s1, rest);
      var r := Run(s, ops).uncommittedEvents;
      var n := |s.uncommittedEvents|;
      assert r[..n + 1] == s1.uncommittedEvents;
      assert r[..n] == r[..n + 1][..n];
      forall i | 0 <= i < |ops|
        ensures r[n + i] == EventFor(s, ops[i].eventType, ops[i].data)
      {
        if i > 0 {
          assert ops[i] == rest[i - 1];
        }
      }
    }
  }

  /** The documented limitation in general: whatever else happens to the buffer
      (stores, new events, clears), as long as IncrementVersion is not called, an
      event NewEvent creates afterwards carries the same version as one it would
      have created at the start. */
  lemma NewEventVersionFixedWithoutIncrement(s: BaseState, ops: seq<Op>, eventType: EventType, data: EventData)
    requires Increments(ops) == 0
    ensures EventFor(Run(s, ops), eventType, data).version == EventFor(s, eventType, data).version
    ensures EventFor(Run(s, ops), eventType, data) == EventFor(s, eventType, data)
  {
    RunCountsIncrements(s, ops);
    RunKeepsIdentity(s, ops);
  }

  /** Store one new event, then IncrementVersion, for each (type, data) in order:
      the usage the base supports, one uncommitted event in front of each apply. */
  function Cycles(events: seq<(EventType, EventData)>): seq<Op> {
    if events == [] then []
    else [StoreNew(events[0].0, events[0].1), Increment] + Cycles(events[1..])
  }

  /** With one apply after each new event, the stored events carry consecutive
      versions following the starting version, and the version counts them. */
  lemma {:induction false} OneEventPerApplyGivesConsecutiveVersions(s: BaseState, events: seq<(EventType, EventData)>)
    ensures Run(s, Cycles(events)).version == s.version + |events|
    ensures |Run(s, Cycles(events)).uncommittedEvents| == |s.uncommittedEvents| + |events|
    ensures Run(s, Cycles(events)).uncommittedEvents[..|s.uncommittedEvents|] == s.uncommittedEvents
    ensures forall i :: |s.uncommittedEvents| <= i < |Run(s, Cycles(events)).uncommittedEvents| ==>
      Run(s, Cycles(events)).uncommittedEvents[i].version == s.version + (i - |s.uncommittedEvents|) + 1
    decreases |events|
  {
    if events != [] {
      var a, b, rest := StoreNew(events[0].0, events[0].1), Increment, Cycles(events[1..]);
      var ops := [a, b] + rest;
      assert Cycles(events) == ops;
      assert ops[0] == a && ops[1..] == [b] + rest;
      assert ([b] + rest)[0] == b && ([b] + rest)[1..] == rest;
      var s2 := Step(Step(s, a), b);
      assert Run(s, ops) == Run(s2, rest);
      OneEventPerApplyGivesConsecutiveVersions(s2, events[1..]);
      var r := Run(s, ops).uncommittedEvents;
      var n := |s.uncommittedEvents|;
      assert r[..n + 1] == s2.uncommittedEvents;
      assert r[..n] == r[..n + 1][..n];
      assert r[n] == r[..n + 1][n];
    }
  }

  /** The base every domain aggregate embeds. The type and id are fixed at
      construction; the version and the uncommitted buffer are updated in place. */
  class AggregateBase {
    const aggregateType: Events.AggregateType
    const id: UUID
    var version: int
    var uncommittedEvents: seq<Event>

    function State(): BaseState
      reads this
    {
      BaseState(aggregateType, id, version, uncommittedEvents)
    }

    constructor (aggregateType: Events.AggregateType, id: UUID)
      ensures this.aggregateType == aggregateType && this.id == id
      ensures version == 0 && uncommittedEvents == []
    {
      this.aggregateType := aggregateType;
      this.id := id;
      version := 0;
      uncommittedEvents := [];
    }

    method AggregateType() returns (t: Events.AggregateType)
      ensures t == aggregateType
    {
      t := aggregateType;
    }

    method AggregateID() returns (i: UUID)
      ensures i == id
    {
      i := id;
    }

    method Version() returns (v: int)
      ensures v == version
    {
      v := version;
    }

    /** Called once per applied event, after the event has been applied. */
    method IncrementVersion()
      modifies this
      ensures version == old(version) + 1
      ensures uncommittedEvents == old(uncommittedEvents)
      ensures State() == Step(old(State()), Increment)
    {
      version := version + 1;
    }

    /** An event of the given type and data, linked to this aggregate at the version
      it will take once applied. Only valid for the current version. */
    function NewEvent(eventType: EventType, data: EventData): (e: Event)
      reads this
      ensures e.eventType == eventType && e.data == data
      ensures e.aggregateType == aggregateType && e.aggregateID == id
      ensures e.version == version + 1
    {
      EventFor(State(), eventType, data)
    }

    method StoreEvent(event: Event)
      modifies this
      ensures uncommittedEvents == old(uncommittedEvents) + [event]
      ensures version == old(version)
      ensures State() == Step(old(State()), Store(event))
    {
      uncommittedEvents := uncommittedEvents + [event];
    }

    method UncommittedEvents() returns (events: seq<Event>)
      ensures events == uncommittedEvents
    {
      events := uncommittedEvents;
    }

    method ClearUncommittedEvents()
      modifies this
      ensures uncommittedEvents == []
      ensures version == old(version)
      ensures State() == Step(old(State()), Clear)
    {
      uncommittedEvents := [];
    }
  }
}
