/**
 * evaluation-app/synthesis.py: `filter_events_by_type` keeps, in input
 * order, the paragraphs that hold at least one event of a given type, each
 * cut down to those events; `create_event_type_files` gathers every event
 * type that occurs and files the filtered paragraphs under the lower-cased
 * type.
 */
module Synthesis {
  import opened PyBuiltins

  /**
   * An event; `kind` is its `type`, None when the key is absent. `payload`
   * stands for the event's other keys, which are copied and never read.
   */
  datatype Event = Event(kind: Option<string>, payload: string)

  /** A paragraph; `events` is None when the key is absent. */
  datatype Paragraph = Paragraph(paragraphIndex: int, paragraphText: string, events: Option<seq<Event>>)

  /**
   * The argument of `filter_events_by_type`: already decoded data, or a JSON
   * string given with the result of decoding it (None when it is invalid).
   */
  datatype Input = Data(paragraphs: seq<Paragraph>) | JsonText(decoded: Option<seq<Paragraph>>)

  /** `paragraph.get('events', [])` */
  function EventsOf(p: Paragraph): seq<Event>
  {
    if p.events.Some? then p.events.value else []
  }

  /** `[event for event in events if event.get('type') == event_type]` */
  function MatchingEvents(es: seq<Event>, eventType: Option<string>): (r: seq<Event>)
    ensures |r| <= |es|
    decreases |es|
  {
    if es == [] then []
    else
      var init, last := es[..|es| - 1], es[|es| - 1];
      assert es == init + [last];
      MatchingEvents(init, eventType) + (if last.kind == eventType then [last] else [])
  }

  /** Only events of the type are selected. */
  lemma {:induction false} MatchingEventsSound(es: seq<Event>, eventType: Option<string>, e: Event)
    requires e in MatchingEvents(es, eventType)
    ensures e in es && e.kind == eventType
    decreases |es|
  {
    var init, last := es[..|es| - 1], es[|es| - 1];
    assert es == init + [last];
    if e in MatchingEvents(init, eventType) {
      MatchingEventsSound(init, eventType, e);
    }
  }

  /** No event of the type is lost. */
  lemma {:induction false} MatchingEventsComplete(es: seq<Event>, eventType: Option<string>, e: Event)
    requires e in es && e.kind == eventType
    ensures e in MatchingEvents(es, eventType)
    decreases |es|
  {
    var init, last := es[..|es| - 1], es[|es| - 1];
    assert es == init + [last];
    if e != last {
      MatchingEventsComplete(init, eventType, e);
    }
  }

  /** A paragraph is kept when it has an event of the type. */
  predicate HasMatch(p: Paragraph, eventType: Option<string>)
  {
    MatchingEvents(EventsOf(p), eventType) != []
  }

  /** The paragraph kept: index and text copied, events cut down to the matching ones. */
  function Project(p: Paragraph, eventType: Option<string>): Paragraph
  {
    Paragraph(p.paragraphIndex, p.paragraphText, Some(MatchingEvents(EventsOf(p), eventType)))
  }

  /** What the loop of `filter_events_by_type` appends for one paragraph. */
  function Step(p: Paragraph, eventType: Option<string>): seq<Paragraph>
  {
    if HasMatch(p, eventType) then [Project(p, eventType)] else []
  }

  /** The paragraphs the loop produces from `ps`. */
  function Filtered(ps: seq<Paragraph>, eventType: Option<string>): seq<Paragraph>
    decreases |ps|
  {
    if ps == [] then [] else Filtered(ps[..|ps| - 1], eventType) + Step(ps[|ps| - 1], eventType)
  }

  /** `filter_events_by_type(input_json, event_type)`: an invalid JSON string gives []. */
  function FilterEventsByTypeSpec(input: Input, eventType: Option<string>): seq<Paragraph>
  {
    match input
    case Data(ps) => Filtered(ps, eventType)
    case JsonText(None) => []
    case JsonText(Some(ps)) => Filtered(ps, eventType)
  }

  /** The number of paragraphs of `ps` that are kept. */
  function KeptCount(ps: seq<Paragraph>, eventType: Option<string>): nat
    decreases |ps|
  {
    if ps == [] then 0
    else KeptCount(ps[..|ps| - 1], eventType) + (if HasMatch(ps[|ps| - 1], eventType) then 1 else 0)
  }

  /** A paragraph is kept exactly when some event's `type` equals the requested type. */
  lemma HasMatchIff(p: Paragraph, eventType: Option<string>)
    ensures HasMatch(p, eventType) <==> exists e :: e in EventsOf(p) && e.kind == eventType
  {
    var r := MatchingEvents(EventsOf(p), eventType);
    if exists e :: e in EventsOf(p) && e.kind == eventType {
      var e :| e in EventsOf(p) && e.kind == eventType;
      MatchingEventsComplete(EventsOf(p), eventType, e);
    }
    if r != [] {
      MatchingEventsSound(EventsOf(p), eventType, r[0]);
    }
  }

  /** A paragraph without an `events` key is dropped, whatever the type. */
  lemma NoEventsKeyDropped(p: Paragraph, eventType: Option<string>)
    requires p.events.None?
    ensures Step(p, eventType) == []
  {
  }

  /** Selecting from a concatenation selects from each part. */
  lemma {:induction false} MatchingEventsAppend(a: seq<Event>, b: seq<Event>, eventType: Option<string>)
    ensures MatchingEvents(a + b, eventType) == MatchingEvents(a, eventType) + MatchingEvents(b, eventType)
    decreases |b|
  {
    if b == [] {
      assert a + b == a;
    } else {
      var ab, init, last := a + b, b[..|b| - 1], b[|b| - 1];
      var tail := if last.kind == eventType then [last] else [];
      assert ab[..|ab| - 1] == a + init;
      assert ab[|ab| - 1] == last;
      assert MatchingEvents(ab, eventType) == MatchingEvents(a + init, eventType) + tail;
      assert MatchingEvents(b, eventType) == MatchingEvents(init, eventType) + tail;
      MatchingEventsAppend(a, init, eventType);
    }
  }

  /** The selection keeps the matching events in their order: it is determined by what it does to one event and to a concatenation. */
  lemma MatchingEventsOrder(a: seq<Event>, e: Event, b: seq<Event>, eventType: Option<string>)
    ensures MatchingEvents(a + [e] + b, eventType) ==
      MatchingEvents(a, eventType) + (if e.kind == eventType then [e] else []) + MatchingEvents(b, eventType)
  {
    MatchingEventsAppend(a + [e], b, eventType);
    MatchingEventsAppend(a, [e], eventType);
    assert [e][..0] == [];
  }

  /** Selecting again with the same type changes nothing. */
  lemma MatchingEventsIdempotent(es: seq<Event>, eventType: Option<string>)
    ensures MatchingEvents(MatchingEvents(es, eventType), eventType) == MatchingEvents(es, eventType)
  {
    var r := MatchingEvents(es, eventType);
    forall e | e in r
      ensures e.kind == eventType
    {
      MatchingEventsSound(es, eventType, e);
    }
    AllMatchingKept(r, eventType);
  }

  /** A list whose events all have the type is selected whole. */
  lemma {:induction false} AllMatchingKept(es: seq<Event>, eventType: Option<string>)
    requires forall e :: e in es ==> e.kind == eventType
    ensures MatchingEvents(es, eventType) == es
    decreases |es|
  {
    if es != [] {
      var init, last := es[..|es| - 1], es[|es| - 1];
      assert es == init + [last];
      forall e | e in init
        ensures e.kind == eventType
      {
        assert e in es;
      }
      AllMatchingKept(init, eventType);
      assert last in es;
    }
  }

  /** The output has one paragraph per kept input paragraph. */
  lemma {:induction false} FilteredLength(ps: seq<Paragraph>, eventType: Option<string>)
    ensures |Filtered(ps, eventType)| == KeptCount(ps, eventType)
    decreases |ps|
  {
    if ps != [] {
      FilteredLength(ps[..|ps| - 1], eventType);
    }
  }

  /**
   * Kept paragraph `i` is output at the position given by the number of kept
   * paragraphs before it: the output is the kept paragraphs, in input order,
   * each with index and text copied and events cut down.
   */
  lemma {:induction false} FilteredAt(ps: seq<Paragraph>, eventType: Option<string>, i: nat)
    requires i < |ps| && HasMatch(ps[i], eventType)
    ensures KeptCount(ps[..i], eventType) < |Filtered(ps, eventType)|
    ensures Filtered(ps, eventType)[KeptCount(ps[..i], eventType)] == Project(ps[i], eventType)
    decreases |ps|
  {
    var init := ps[..|ps| - 1];
    if i < |ps| - 1 {
      assert init[..i] == ps[..i];
      FilteredAt(init, eventType, i);
    } else {
      assert ps[..i] == init;
      FilteredLength(init, eventType);
    }
  }

  /** Kept paragraphs keep their relative order: a later kept paragraph is output later. */
  lemma KeptCountIncreases(ps: seq<Paragraph>, eventType: Option<string>, i: nat, j: nat)
    requires i < j <= |ps| && HasMatch(ps[i], eventType)
    ensures KeptCount(ps[..i], eventType) < KeptCount(ps[..j], eventType)
    decreases j
  {
    var pre := ps[..j];
    assert pre[..j - 1] == ps[..j - 1];
    if i < j - 1 {
      KeptCountIncreases(ps, eventType, i, j - 1);
    } else {
      assert pre[j - 1] == ps[i];
    }
  }

  /** Every output paragraph is the cut-down copy of a kept input paragraph. */
  lemma {:induction false} FilteredFrom(ps: seq<Paragraph>, eventType: Option<string>, k: nat)
    requires k < |Filtered(ps, eventType)|
    ensures exists i :: 0 <= i < |ps| && HasMatch(ps[i], eventType) && Filtered(ps, eventType)[k] == Project(ps[i], eventType)
    decreases |ps|
  {
    var init := ps[..|ps| - 1];
    if k < |Filtered(init, eventType)| {
      FilteredFrom(init, eventType, k);
      var i :| 0 <= i < |init| && HasMatch(init[i], eventType) && Filtered(init, eventType)[k] == Project(init[i], eventType);
      assert ps[i] == init[i];
    } else {
      assert Filtered(ps, eventType)[k] == Project(ps[|ps| - 1], eventType);
    }
  }

  /** A cut-down paragraph is kept again and cut down to itself. */
  lemma ProjectIdempotent(p: Paragraph, eventType: Option<string>)
    requires HasMatch(p, eventType)
    ensures Step(Project(p, eventType), eventType) == [Project(p, eventType)]
  {
    MatchingEventsIdempotent(EventsOf(p), eventType);
  }

  /** Appending one paragraph to the input appends what the loop does with it. */
  lemma FilteredSnoc(ps: seq<Paragraph>, p: Paragraph, eventType: Option<string>)
    ensures Filtered(ps + [p], eventType) == Filtered(ps, eventType) + Step(p, eventType)
  {
    assert (ps + [p])[..|ps|] == ps;
  }

  /** Filtering the output again with the same type returns it unchanged. */
  lemma {:induction false} FilteredIdempotent(ps: seq<Paragraph>, eventType: Option<string>)
    ensures Filtered(Filtered(ps, eventType), eventType) == Filtered(ps, eventType)
    decreases |ps|
  {
    if ps != [] {
      var init, last := ps[..|ps| - 1], ps[|ps| - 1];
      assert ps == init + [last];
      FilteredSnoc(init, last, eventType);
      FilteredIdempotent(init, eventType);
      if HasMatch(last, eventType) {
        var out, q := Filtered(init, eventType), Project(last, eventType);
        assert Filtered(ps, eventType) == out + [q];
        ProjectIdempotent(last, eventType);
        FilteredSnoc(out, q, eventType);
      } else {
        assert Filtered(ps, eventType) == Filtered(init, eventType);
      }
    }
  }

  /** `filter_events_by_type` is idempotent on every input. */
  lemma FilterIdempotent(input: Input, eventType: Option<string>)
    ensures FilterEventsByTypeSpec(Data(FilterEventsByTypeSpec(input, eventType)), eventType)
      == FilterEventsByTypeSpec(input, eventType)
  {
    match input
    case Data(ps) => FilteredIdempotent(ps, eventType);
    case JsonText(None) =>
    case JsonText(Some(ps)) => FilteredIdempotent(ps, eventType);
  }

  /** `filter_events_by_type(input_json, event_type)` */
  method FilterEventsByType(input: Input, eventType: Option<string>) returns (filtered: seq<Paragraph>)
    ensures filtered == FilterEventsByTypeSpec(input, eventType)
  {
    var data: seq<Paragraph>;
    match input {
      case Data(ps) =>
        data := ps;
      case JsonText(decoded) =>
        if decoded.None? {
          return [];
        }
        data := decoded.value;
    }
    filtered := [];
    for i := 0 to |data|
      invariant filtered == Filtered(data[..i], eventType)
    {
      var paragraph := data[i];
      assert data[..i + 1] == data[..i] + [paragraph];
      FilteredSnoc(data[..i], paragraph, eventType);
      var filteredEvents := MatchingEvents(EventsOf(paragraph), eventType);
      if filteredEvents != [] {
        filtered := filtered + [Paragraph(paragraph.paragraphIndex, paragraph.paragraphText, Some(filteredEvents))];
      }
    }
    assert data[..|data|] == data;
  }

  /** The `type` values present among the events of `ps`. */
  function EventTypes(ps: seq<Paragraph>): set<string>
    decreases |ps|
  {
    if ps == [] then {} else EventTypes(ps[..|ps| - 1]) + TypesOf(EventsOf(ps[|ps| - 1]))
  }

  /** The `type` values present among `es`. */
  function TypesOf(es: seq<Event>): set<string>
  {
    set e | e in es && e.kind.Some? :: e.kind.value
  }

  /** A type is gathered exactly when some event of some paragraph has it. */
  lemma {:induction false} EventTypesIff(ps: seq<Paragraph>, t: string)
    ensures t in EventTypes(ps) <==> exists i, e :: 0 <= i < |ps| && e in EventsOf(ps[i]) && e.kind == Some(t)
    decreases |ps|
  {
    if ps != [] {
      var init := ps[..|ps| - 1];
      EventTypesIff(init, t);
      if exists i, e :: 0 <= i < |ps| && e in EventsOf(ps[i]) && e.kind == Some(t) {
        var i, e :| 0 <= i < |ps| && e in EventsOf(ps[i]) && e.kind == Some(t);
        if i < |ps| - 1 {
          assert init[i] == ps[i];
        } else {
          assert t in TypesOf(EventsOf(ps[i]));
        }
      }
      if t in EventTypes(init) {
        var i, e :| 0 <= i < |init| && e in EventsOf(init[i]) && e.kind == Some(t);
        assert ps[i] == init[i];
      }
    }
  }

  /** The event-type loop of `create_event_type_files`. */
  method CollectEventTypes(ps: seq<Paragraph>) returns (eventTypes: set<string>)
    ensures eventTypes == EventTypes(ps)
  {
    eventTypes := {};
    for i := 0 to |ps|
      invariant eventTypes == EventTypes(ps[..i])
    {
      var es := EventsOf(ps[i]);
      for j := 0 to |es|
        invariant eventTypes == EventTypes(ps[..i]) + TypesOf(es[..j])
      {
        if es[j].kind.Some? {
          eventTypes := eventTypes + {es[j].kind.value};
        }
        assert es[..j + 1] == es[..j] + [es[j]];
      }
      assert es[..|es|] == es;
      assert ps[..i + 1][..i] == ps[..i];
    }
    assert ps[..|ps|] == ps;
  }

  /**
   * `create_event_type_files(input_json)` without the file writes: every
   * gathered type, taken in an unspecified order, files its filtered
   * paragraphs under its lower-cased name; types that lower-case alike
   * overwrite each other.
   */
  method CreateEventTypeFiles(ps: seq<Paragraph>) returns (result: map<string, seq<Paragraph>>)
    ensures result.Keys == set t | t in EventTypes(ps) :: Lower(t)
    ensures forall k :: k in result ==>
      exists t :: t in EventTypes(ps) && Lower(t) == k && result[k] == Filtered(ps, Some(t))
  {
    var eventTypes := CollectEventTypes(ps);
    result := map[];
    var remaining := eventTypes;
    while remaining != {}
      invariant remaining <= eventTypes
      invariant result.Keys == set t | t in eventTypes - remaining :: Lower(t)
      invariant forall k :: k in result ==>
        exists t :: t in eventTypes && Lower(t) == k && result[k] == Filtered(ps, Some(t))
      decreases |remaining|
    {
      var eventType :| eventType in remaining;
      var filteredData := FilterEventsByType(Data(ps), Some(eventType));
      result := result[Lower(eventType) := filteredData];
      remaining := remaining - {eventType};
    }
  }

  /** When no two gathered types lower-case alike, every type's filtered paragraphs are filed under its lower-cased name. */
  lemma FilesWithoutCollision(ps: seq<Paragraph>, result: map<string, seq<Paragraph>>, t: string)
    requires forall t1, t2 :: t1 in EventTypes(ps) && t2 in EventTypes(ps) && Lower(t1) == Lower(t2) ==> t1 == t2
    requires result.Keys == set t | t in EventTypes(ps) :: Lower(t)
    requires forall k :: k in result ==>
      exists t :: t in EventTypes(ps) && Lower(t) == k && result[k] == Filtered(ps, Some(t))
    requires t in EventTypes(ps)
    ensures Lower(t) in result && result[Lower(t)] == Filtered(ps, Some(t))
  {
    assert Lower(t) in result;
    var t' :| t' in EventTypes(ps) && Lower(t') == Lower(t) && result[Lower(t)] == Filtered(ps, Some(t'));
  }
}
