/** Events: the immutable value an aggregate produces, its diagnostic rendering
    "<type>@<version>", and the event payloads used by the test domain. */
module Events {
  import opened Wrappers

  /** Symbolic identifiers; all three are string types in the source. */
  type EventType = string
  type AggregateType = string
  type UUID = string

  const TestEventType: EventType := "TestEvent"
  const TestEvent2Type: EventType := "TestEvent2"

  /** Event payloads, one variant per concrete payload type of the source. */
  datatype EventData =
    | TestEventData(content: string)
    | TestEvent2Data(content: string)
    | TestEventRegister
    | TestEventRegisterEmpty
    | TestEventRegisterTwice

  /** An event: what happened (type and data), to which aggregate, and at which
      position of that aggregate's stream. The wall-clock timestamp is not modelled. */
  datatype Event = Event(
    eventType: EventType,
    data: EventData,
    aggregateType: AggregateType,
    aggregateID: UUID,
    version: int)

  /** An event not yet attached to an aggregate: version 0 and empty linkage. */
  function NewEvent(eventType: EventType, data: EventData): (e: Event)
    ensures e.eventType == eventType && e.data == data
    ensures e.version == 0
    ensures e.aggregateType == "" && e.aggregateID == ""
  {
    Event(eventType, data, "", "", 0)
  }

  // ---------------------------------------------------------------------------
  // Decimal rendering of the version (Go's %d verb) and its inverse.

  predicate IsDigit(c: char) {
    '0' <= c <= '9'
  }

  function DigitChar(d: nat): (c: char)
    requires d < 10
    ensures IsDigit(c)
  {
    (('0' as int) + d) as char
  }

  function DigitValue(c: char): nat
    requires IsDigit(c)
  {
    (c as int) - ('0' as int)
  }

  /** The decimal digits of n, most significant first, without leading zeros. */
  function NatDigits(n: nat): (s: string)
    ensures |s| >= 1
    ensures forall i :: 0 <= i < |s| ==> IsDigit(s[i])
    ensures s[0] == '0' ==> n == 0
    ensures s[0] == '0' ==> s == "0"
    decreases n
  {
    if n < 10 then [DigitChar(n)] else NatDigits(n / 10) + [DigitChar(n % 10)]
  }

  /** The decimal rendering of an integer: a '-' exactly when it is negative,
      followed by digits only (so never an '@'). */
  function DecimalString(n: int): (s: string)
    ensures |s| >= 1
    ensures s[0] == '-' <==> n < 0
    ensures n >= 0 ==> IsDigit(s[0])
    ensures forall j :: 0 < j < |s| ==> IsDigit(s[j])
    ensures n > 0 ==> s[0] != '0'
    ensures n == 0 ==> s == "0"
    ensures n < 0 ==> |s| >= 2 && s[1] != '0'
  {
    if n < 0 then "-" + NatDigits(-n) else NatDigits(n)
  }

  /** Reads a non-empty string of decimal digits. */
  function ParseNat(s: string): Option<nat>
    decreases |s|
  {
    if |s| == 0 || !IsDigit(s[|s| - 1]) then None
    else if |s| == 1 then Some(DigitValue(s[0]))
    else match ParseNat(s[..|s| - 1])
      case None => None
      case Some(p) => Some(p * 10 + DigitValue(s[|s| - 1]))
  }

  /** Reads an optionally negative decimal integer. */
  function ParseDecimal(s: string): Option<int> {
    if |s| > 0 && s[0] == '-' then
      match ParseNat(s[1..])
      case None => None
      case Some(p) => Some(0 - p)
    else
      match ParseNat(s)
      case None => None
      case Some(p) => Some(p)
  }

  lemma {:induction false} NatDigitsRoundTrip(n: nat)
    ensures ParseNat(NatDigits(n)) == Some(n)
    decreases n
  {
    var s := NatDigits(n);
    if n >= 10 {
      NatDigitsRoundTrip(n / 10);
      assert s[..|s| - 1] == NatDigits(n / 10);
      assert DigitValue(s[|s| - 1]) == n % 10;
    }
  }

  /** Parsing the decimal rendering of any integer gives that integer back. */
  lemma DecimalRoundTrip(n: int)
    ensures ParseDecimal(DecimalString(n)) == Some(n)
  {
    if n < 0 {
      NatDigitsRoundTrip(-n);
      assert DecimalString(n)[1..] == NatDigits(-n);
    } else {
      NatDigitsRoundTrip(n);
    }
  }

  // ---------------------------------------------------------------------------
  // Event.String(): "<type>@<version>".

  /** The diagnostic rendering of an event: its type, '@', and its version in decimal;
      the '@' written here is the last one of the rendering. */
  function EventString(e: Event): (s: string)
    ensures |s| > |e.eventType| + 1
    ensures s[..|e.eventType|] == e.eventType && s[|e.eventType|] == '@'
    ensures forall j :: |e.eventType| < j < |s| ==> s[j] != '@'
    ensures s[|e.eventType| + 1..] == DecimalString(e.version)
  {
    e.eventType + "@" + DecimalString(e.version)
  }

  /** The position of the last '@' of s, if any. */
  function LastAt(s: string): (r: Option<nat>)
    ensures r.Some? ==> r.value < |s| && s[r.value] == '@'
    ensures r.Some? ==> forall j :: r.value < j < |s| ==> s[j] != '@'
    ensures r.None? ==> forall j :: 0 <= j < |s| ==> s[j] != '@'
    decreases |s|
  {
    if |s| == 0 then None
    else if s[|s| - 1] == '@' then Some(|s| - 1)
    else LastAt(s[..|s| - 1])
  }

  /** Splits a rendering "<type>@<version>" back into its type and version; the type
      may itself contain '@', the version never does, so the split is at the last '@'. */
  function ParseEventString(s: string): Option<(EventType, int)> {
    match LastAt(s)
    case None => None
    case Some(i) =>
      match ParseDecimal(s[i + 1..])
      case None => None
      case Some(v) => Some((s[..i], v))
  }

  /** The rendering of an event determines its type and version: reading it back
      gives exactly the event's type and version. */
  lemma EventStringRoundTrip(e: Event)
    ensures ParseEventString(EventString(e)) == Some((e.eventType, e.version))
  {
    var t, d := e.eventType, DecimalString(e.version);
    var s := EventString(e);
    assert s == t + "@" + d;
    var r := LastAt(s);
    assert s[|t|] == '@';
    assert r.Some?;
    assert r.value == |t|;
    assert s[|t| + 1..] == d;
    assert s[..|t|] == t;
    DecimalRoundTrip(e.version);
  }

  /** The rendering asserted for a fresh TestEvent. */
  lemma NewEventString()
    ensures EventString(NewEvent(TestEventType, TestEventData("event1"))) == "TestEvent@0"
  {
  }
}
