/**
 * events.go: decoding a JSON array of events, each element dispatched on its `name`
 * field to one of seven event kinds. JSON itself is abstracted: each element says
 * whether it decodes as an object, what its `name` field holds, and whether it decodes
 * as the kind its name selects.
 */
module Events {
  import opened Wrappers
  import opened Errors

  /** The `name` field of an element decoded as a map. */
  datatype NameField = Absent | NotAString | Name(value: string)

  datatype RawElement = RawElement(
    isObject: bool,      // decodes as map[string]interface{}
    name: NameField,
    fitsKind: bool,      // decodes as the struct its kind selects
    text: string)        // how the decoded object prints with %v

  datatype Kind =
    | ExecutionRegistered
    | ExecutionStateChanged
    | GatewaySynchronizationStarted
    | GatewaySynchronizationEnded
    | RefreshAllDevicesStatesCompleted
    | DeviceStateChanged
    | EndUserLogin

  /** The discriminator of each kind. */
  function KindName(k: Kind): string {
    match k
    case ExecutionRegistered => "ExecutionRegisteredEvent"
    case ExecutionStateChanged => "ExecutionStateChangedEvent"
    case GatewaySynchronizationStarted => "GatewaySynchronizationStartedEvent"
    case GatewaySynchronizationEnded => "GatewaySynchronizationEndedEvent"
    case RefreshAllDevicesStatesCompleted => "RefreshAllDevicesStatesCompletedEvent"
    case DeviceStateChanged => "DeviceStateChangedEvent"
    case EndUserLogin => "EndUserLoginEvent"
  }

  /** The switch on the discriminator: exact, case-sensitive equality with one of seven names. */
  function KindOf(eventType: string): Option<Kind> {
    if eventType == "ExecutionRegisteredEvent" then Some(ExecutionRegistered)
    else if eventType == "ExecutionStateChangedEvent" then Some(ExecutionStateChanged)
    else if eventType == "GatewaySynchronizationStartedEvent" then Some(GatewaySynchronizationStarted)
    else if eventType == "GatewaySynchronizationEndedEvent" then Some(GatewaySynchronizationEnded)
    else if eventType == "RefreshAllDevicesStatesCompletedEvent" then Some(RefreshAllDevicesStatesCompleted)
    else if eventType == "DeviceStateChangedEvent" then Some(DeviceStateChanged)
    else if eventType == "EndUserLoginEvent" then Some(EndUserLogin)
    else None
  }

  /** The seven names have seven different lengths, so no two of them are equal. */
  lemma NameLengths()
    ensures |KindName(ExecutionRegistered)| == 24
    ensures |KindName(ExecutionStateChanged)| == 26
    ensures |KindName(GatewaySynchronizationStarted)| == 34
    ensures |KindName(GatewaySynchronizationEnded)| == 32
    ensures |KindName(RefreshAllDevicesStatesCompleted)| == 37
    ensures |KindName(DeviceStateChanged)| == 23
    ensures |KindName(EndUserLogin)| == 17
  {
  }

  /** Each kind's name selects that kind. */
  lemma KindNameSelects(k: Kind)
    ensures KindOf(KindName(k)) == Some(k)
  {
    NameLengths();
  }

  /** The seven names and no other select a kind, each its own. */
  lemma KindOfIsExact(eventType: string, k: Kind)
    ensures KindOf(KindName(k)) == Some(k)
    ensures KindOf(eventType) == Some(k) <==> eventType == KindName(k)
  {
    KindNameSelects(k);
    if KindOf(eventType).Some? {
      KindOfOnlyNames(eventType);
    }
  }

  /** A name that selects a kind is that kind's name. */
  lemma KindOfOnlyNames(eventType: string)
    requires KindOf(eventType).Some?
    ensures eventType == KindName(KindOf(eventType).value)
  {
  }

  /** A missing or non-string name is read as "". */
  function EventType(f: NameField): (t: string)
    ensures f.Name? ==> t == f.value
    ensures !f.Name? ==> t == ""
  {
    if f.Name? then f.value else ""
  }

  /** An empty discriminator selects no kind, so an element without a string name fails. */
  lemma NamelessIsUnknown(e: RawElement)
    requires !e.name.Name?
    ensures KindOf(EventType(e.name)) == None
  {
  }

  /** A decoded event: its kind and the element it was decoded from. */
  datatype Event = Event(kind: Kind, raw: RawElement)

  /** One element: decode as an object, read the name, dispatch, decode as the selected kind. */
  function DecodeElement(e: RawElement): (r: Result<Event, Error>)
    ensures r.Success? <==> e.isObject && KindOf(EventType(e.name)).Some? && e.fitsKind
    ensures r.Success? ==> r.value == Event(KindOf(EventType(e.name)).value, e)
    ensures !e.isObject ==> r == Failure(EventObjectDecode)
    ensures e.isObject && KindOf(EventType(e.name)).None? ==> r == Failure(UnknownEvent(EventType(e.name), e.text))
    ensures e.isObject && KindOf(EventType(e.name)).Some? && !e.fitsKind ==> r == Failure(EventFieldsDecode)
  {
    if !e.isObject then Failure(EventObjectDecode)
    else
      match KindOf(EventType(e.name))
      case None => Failure(UnknownEvent(EventType(e.name), e.text))
      case Some(k) => if e.fitsKind then Success(Event(k, e)) else Failure(EventFieldsDecode)
  }

  /** The events decoded before the first failure, and that failure. */
  datatype Decoding = Decoding(events: seq<Event>, error: Option<Error>)

  /** Decoding the elements from index `n` on with `decode`: element by element, stopping at the first failure. */
  function DecodeFrom(decode: RawElement -> Result<Event, Error>, elems: seq<RawElement>, n: nat): (d: Decoding)
    requires n <= |elems|
    ensures |d.events| <= |elems| - n
    ensures forall i :: 0 <= i < |d.events| ==> decode(elems[n + i]) == Success(d.events[i])
    ensures d.error.None? <==> |d.events| == |elems| - n
    ensures d.error.Some? ==> decode(elems[n + |d.events|]) == Failure(d.error.value)
    decreases |elems| - n
  {
    if n == |elems| then Decoding([], None)
    else
      match decode(elems[n])
      case Failure(e) => Decoding([], Some(e))
      case Success(ev) =>
        var rest := DecodeFrom(decode, elems, n + 1);
        Decoding([ev] + rest.events, rest.error)
  }

  /** One step of the decoding: a failing element ends it, a decoded one comes first. */
  lemma DecodeStep(decode: RawElement -> Result<Event, Error>, elems: seq<RawElement>, n: nat)
    requires n < |elems|
    ensures decode(elems[n]).Failure? ==> DecodeFrom(decode, elems, n) == Decoding([], Some(decode(elems[n]).error))
    ensures decode(elems[n]).Success? ==>
      DecodeFrom(decode, elems, n).events == [decode(elems[n]).value] + DecodeFrom(decode, elems, n + 1).events &&
      DecodeFrom(decode, elems, n).error == DecodeFrom(decode, elems, n + 1).error
  {
  }

  /** Decoding a whole array. */
  function DecodeAll(elems: seq<RawElement>): (d: Decoding)
    ensures |d.events| <= |elems|
    ensures forall i :: 0 <= i < |d.events| ==> DecodeElement(elems[i]) == Success(d.events[i])
    ensures d.error.None? <==> |d.events| == |elems|
    ensures d.error.Some? ==> DecodeElement(elems[|d.events|]) == Failure(d.error.value)
  {
    var d := DecodeFrom(DecodeElement, elems, 0);
    assert forall i :: 0 <= i < |d.events| ==> elems[0 + i] == elems[i];
    d
  }

  /** When the first `n` elements decode, the first `n` events are theirs. */
  lemma DecodedFront(elems: seq<RawElement>, n: nat)
    requires n <= |elems|
    requires forall i :: 0 <= i < n ==> DecodeElement(elems[i]).Success?
    ensures |DecodeAll(elems).events| >= n
    ensures forall i :: 0 <= i < n ==> DecodeAll(elems).events[i] == DecodeElement(elems[i]).value
  {
    var d := DecodeAll(elems);
    assert d.error.Some? ==> DecodeElement(elems[|d.events|]).Failure?;
  }

  /** Decoding is determined element by element: a prefix that decodes fully decodes to the front of the whole. */
  lemma DecodeAllPrefix(elems: seq<RawElement>, n: nat)
    requires n <= |elems|
    requires forall i :: 0 <= i < n ==> DecodeElement(elems[i]).Success?
    ensures |DecodeAll(elems).events| >= n
    ensures DecodeAll(elems).events[..n] == DecodeAll(elems[..n]).events
  {
    var pre := elems[..n];
    assert forall i :: 0 <= i < n ==> pre[i] == elems[i];
    DecodedFront(elems, n);
    DecodedFront(pre, n);
  }

  /** The events read so far, as the Go slice the decoder appends to. */
  class Events {
    var items: seq<Event>

    constructor ()
      ensures items == []
    {
      items := [];
    }

    /**
     * UnmarshalJSON: `data` is None when it is not a JSON array. Each decoded event is
     * appended at once, so on a failure the events before it stay.
     */
    method UnmarshalJSON(data: Option<seq<RawElement>>) returns (err: Option<Error>)
      modifies this
      ensures data.None? ==> err == Some(EventArrayDecode) && items == old(items)
      ensures data.Some? ==> items == old(items) + DecodeAll(data.value).events && err == DecodeAll(data.value).error
    {
      if data.None? {
        return Some(EventArrayDecode);
      }
      var raw := data.value;
      ghost var whole := DecodeAll(raw);
      var n := 0;
      while n < |raw|
        invariant 0 <= n <= |raw|
        invariant items + DecodeFrom(DecodeElement, raw, n).events == old(items) + whole.events
        invariant DecodeFrom(DecodeElement, raw, n).error == whole.error
      {
        DecodeStep(DecodeElement, raw, n);
        var e := raw[n];
        if !e.isObject {
          return Some(EventObjectDecode);
        }
        var eventType := EventType(e.name);
        var kind := KindOf(eventType);
        if kind.None? {
          return Some(UnknownEvent(eventType, e.text));
        }
        if !e.fitsKind {
          return Some(EventFieldsDecode);
        }
        ghost var rest := DecodeFrom(DecodeElement, raw, n + 1).events;
        assert items + ([Event(kind.value, e)] + rest) == (items + [Event(kind.value, e)]) + rest;
        items := items + [Event(kind.value, e)];
        n := n + 1;
      }
      err := None;
    }
  }
}
