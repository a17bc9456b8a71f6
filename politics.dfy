/**
 * politics_events/politics_mapping.py: one political-situation event becomes
 * an RiC-O `Activity` with an optional activity type and dates, a
 * `PerformanceRelation` per participant and a `PlaceRelation` per labelled
 * location. Only the first entry of `actions` is read.
 */
module Politics {
  import opened PyBuiltins
  import opened DateTime
  import opened Rdf

  /** `EX = Namespace("http://example.org/#")` */
  const EX: Namespace := ExampleHash

  /** The replace chain every `create_uri_safe_string` of this shape applies. */
  function ReplaceChain(t: string): string
  {
    Replace(Replace(Replace(Replace(Replace(Replace(Replace(
      t, ' ', "_"), '\'', ""), ',', ""), '.', ""), '(', ""), ')', ""), '/', "_")
  }

  /** The chain removes ' , . ( ), turns spaces and slashes into underscores, and adds no upper-case letter. */
  lemma ReplaceChainChars(t: string)
    ensures forall c :: c in ReplaceChain(t) ==> c !in " ',.()/"
    ensures forall c :: c in ReplaceChain(t) ==> c in t || c == '_'
  {
    var s1 := Replace(t, ' ', "_");
    var s2 := Replace(s1, '\'', "");
    var s3 := Replace(s2, ',', "");
    var s4 := Replace(s3, '.', "");
    var s5 := Replace(s4, '(', "");
    var s6 := Replace(s5, ')', "");
    ReplaceStep(t, ' ', "_", t, {});
    ReplaceStep(s1, '\'', "", t, {' '});
    ReplaceStep(s2, ',', "", t, {' ', '\''});
    ReplaceStep(s3, '.', "", t, {' ', '\'', ','});
    ReplaceStep(s4, '(', "", t, {' ', '\'', ',', '.'});
    ReplaceStep(s5, ')', "", t, {' ', '\'', ',', '.', '('});
    ReplaceStep(s6, '/', "_", t, {' ', '\'', ',', '.', '(', ')'});
  }



  /**
   * `create_uri_safe_string`: None for a falsy text, otherwise spaces and
   * slashes become underscores, `' , . ( )` are removed and the result is
   * lower-cased.
   */
  function CreateUriSafeString(text: Option<string>): (r: Option<string>)
    ensures r.None? <==> !Truthy(text)
  {
    if !Truthy(text) then None else Some(Lower(ReplaceChain(text.value)))
  }

  /** A slug holds none of ` ',.()/` and no upper-case letter. */
  lemma SlugChars(text: Option<string>)
    requires Truthy(text)
    ensures forall c :: c in CreateUriSafeString(text).value ==> c !in " ',.()/" && !IsUpper(c)
  {
    ReplaceChainChars(text.value);
    LowerKeepsAbsent(ReplaceChain(text.value), " ',.()/");
  }

  /** A non-empty slug is a fixed point; an empty one (the text was all removed characters) slugs to None. */
  lemma SlugIdempotent(text: Option<string>)
    requires CreateUriSafeString(text).Some?
    ensures CreateUriSafeString(text).value != "" ==>
      CreateUriSafeString(CreateUriSafeString(text)) == CreateUriSafeString(text)
    ensures CreateUriSafeString(text).value == "" ==> CreateUriSafeString(CreateUriSafeString(text)) == None
  {
    var r := CreateUriSafeString(text).value;
    if r != "" {
      SlugChars(text);
      ReplaceChars(r, ' ', "_");
      ReplaceChars(r, '\'', "");
      ReplaceChars(r, ',', "");
      ReplaceChars(r, '.', "");
      ReplaceChars(r, '(', "");
      ReplaceChars(r, ')', "");
      ReplaceChars(r, '/', "_");
      LowerNoUpper(r);
    }
  }

  /** The text ".." is made only of removed characters. */
  lemma SlugOfRemovedOnly()
    ensures CreateUriSafeString(Some("..")) == Some("")
    ensures CreateUriSafeString(Some("")) == None
    ensures CreateUriSafeString(None) == None
  {
  }

  /**
   * `parse_date`: None for a falsy input; a text holding `/` is read as
   * DD/MM/YYYY and written as YYYY-MM-DD (None when it does not parse); four
   * digits become January 1st of that year; any other text holding `-` is
   * passed through; everything else is None.
   */
  function ParseDate(s: Option<string>): (r: Option<string>)
    ensures !Truthy(s) ==> r.None?
    ensures r.Some? ==> '-' in r.value && '/' !in r.value
    ensures r.Some? ==> IsFullDate(r.value) || r == s
  {
    if !Truthy(s) then None
    else if '/' in s.value then
      match StrptimeDMY(s.value)
      case Some(d) =>
        var iso := StrftimeISO(d);
        FullDateShape(iso);
        Some(iso)
      case None => None
    else if IsDigitStr(s.value) && |s.value| == 4 then
      YearStartIsFullDate(s.value);
      FullDateShape(s.value + "-01-01");
      Some(s.value + "-01-01")
    else if '-' in s.value then s
    else None
  }

  /** A slashed date is read back to the date it names, or None when no such date exists. */
  lemma ParseDateSlashed(d: Date)
    requires d.day < 100 && d.month < 100 && d.year < 10000
    ensures ParseDate(Some(SlashedDMY(d))) == if IsValidDate(d) then Some(StrftimeISO(d)) else None
    ensures IsValidDate(d) ==> ReadFullDate(ParseDate(Some(SlashedDMY(d))).value) == d
  {
    StrptimeSlashed(d);
    SlashedHasSlash(d);
  }

  /** Four digits denote January 1st of that year. */
  lemma ParseDateYear(y: string)
    requires IsYearField(y)
    ensures ParseDate(Some(y)) == Some(y + "-01-01")
  {
    assert '/' !in y by {
      forall i | 0 <= i < |y| ensures y[i] != '/' { assert IsDigit(y[i]); }
    }
  }

  /** Every output is read back unchanged, so parsing twice is parsing once. */
  lemma ParseDateIdempotent(s: Option<string>)
    ensures ParseDate(ParseDate(s)) == ParseDate(s)
  {
    var r := ParseDate(s);
    if r.Some? {
      NotDigitsWithDash(r.value);
    }
  }

  /** Text holding `-` but no `/` is passed through unchanged, whatever else it holds. */
  lemma ParseDateDashed(s: string)
    requires '/' !in s && '-' in s
    ensures ParseDate(Some(s)) == Some(s)
  {
    NotDigitsWithDash(s);
  }

  /** Non-empty text with no `/`, no `-`, and not four digits is not a date. */
  lemma ParseDateOther(s: string)
    requires s != "" && '/' !in s && '-' !in s && !(IsDigitStr(s) && |s| == 4)
    ensures ParseDate(Some(s)) == None
  {
  }

  /** A slashed date is rewritten as YYYY-MM-DD. */
  lemma ParseDateSlashedExample()
    ensures ParseDate(Some("11/06/1984")) == Some("1984-06-11")
  {
    ParseDateSlashed(Date(1984, 6, 11));
    SlashedExample();
  }

  /** A bare year, a dashed date and the empty text. */
  lemma ParseDateOtherExamples()
    ensures ParseDate(Some("1945")) == Some("1945-01-01")
    ensures ParseDate(Some("1984-06-11")) == Some("1984-06-11")
    ensures ParseDate(Some("")) == None
  {
    ParseDateYear("1945");
    assert "1945" + "-01-01" == "1945-01-01";
    var d := "1984-06-11";
    assert d[4] == '-';
    assert forall i | 0 <= i < |d| :: d[i] != '/';
    NotDigitsWithDash(d);
  }

  datatype DateRange = DateRange(startDate: Option<string>, endDate: Option<string>)

  /** A participant; `role` is None when the key is absent. */
  datatype Participant = Participant(name: string, kind: string, role: Option<string>)

  datatype Location = Location(labelText: Option<string>, description: Option<string>)

  /** One entry of `actions`; each field is None when its key is absent. */
  datatype Action = Action(
    action: Option<string>,
    date: Option<DateRange>,
    participants: Option<seq<Participant>>,
    location: Option<seq<Location>>)

  /** `event["data"]`: the description and `properties["actions"]`. */
  datatype Event = Event(description: string, actions: Option<seq<Action>>)

  /** `"actions" in properties and properties["actions"]` */
  predicate HasAction(ev: Event)
  {
    ev.actions.Some? && |ev.actions.value| > 0
  }

  function ActivityId(ev: Event): Option<string>
  {
    CreateUriSafeString(Some(ev.description))
  }

  function ActivityIri(aid: Option<string>, counter: nat): Term
  {
    Iri(EX, "activity_" + Show(aid) + "_" + NatToString(counter))
  }

  function ActivityTypeIri(action: string): Term
  {
    Iri(EX, "activity_type_" + Show(CreateUriSafeString(Some(action))))
  }

  function ParticipantIri(p: Participant): Term
  {
    Lookup(EX, CreateUriSafeString(Some(p.name)))
  }

  function PerformanceIri(p: Participant, aid: Option<string>, counter: nat): Term
  {
    Iri(EX, Show(CreateUriSafeString(Some(p.name))) + "_" + Show(aid) + "_" + NatToString(counter))
  }

  function PlaceIri(placeLabel: string): Term
  {
    Iri(EX, "place_" + Show(CreateUriSafeString(Some(placeLabel))))
  }

  function PlaceRelationIri(placeLabel: string, aid: Option<string>, counter: nat): Term
  {
    Iri(EX, Show(CreateUriSafeString(Some(placeLabel))) + "_" + Show(aid) + "_" + NatToString(counter))
  }

  function ActivityTriples(ev: Event, counter: nat): set<Triple>
  {
    var a := ActivityIri(ActivityId(ev), counter);
    {Triple(a, RDF_TYPE, Rico("Activity")), Triple(a, Rico("name"), Lit(ev.description))}
  }

  function ActivityTypeTriples(action: Action, a: Term): set<Triple>
  {
    if action.action.Some? then
      var t := ActivityTypeIri(action.action.value);
      {Triple(t, RDF_TYPE, Rico("ActivityType")), Triple(t, Rico("name"), Lit(action.action.value)),
       Triple(a, Rico("hasActivityType"), t)}
    else {}
  }

  /** A date triple when the field is present, truthy and parses. */
  function DateTriple(a: Term, pred: string, raw: Option<string>): set<Triple>
  {
    if Truthy(raw) && ParseDate(raw).Some? then {Triple(a, Rico(pred), DateLit(ParseDate(raw).value))} else {}
  }

  function DateTriples(action: Action, a: Term): set<Triple>
  {
    if action.date.Some? then
      DateTriple(a, "beginningDate", action.date.value.startDate) + DateTriple(a, "endDate", action.date.value.endDate)
    else {}
  }

  /** The participant's node: typed by its kind, and named. */
  function AgentTriples(p: Participant): set<Triple>
  {
    var pu := ParticipantIri(p);
    (if p.kind == "person" then {Triple(pu, RDF_TYPE, Rico("Person"))}
     else if (p.kind == "organization" || p.kind == "group") then {Triple(pu, RDF_TYPE, Rico("CorporateBody"))}
     else {})
    + {Triple(pu, Rico("name"), Lit(p.name))}
  }

  /** The PerformanceRelation from the activity to the participant, described by its role. */
  function PerformanceTriples(p: Participant, aid: Option<string>, counter: nat): set<Triple>
  {
    var r := PerformanceIri(p, aid, counter);
    {Triple(r, RDF_TYPE, Rico("PerformanceRelation")),
     Triple(r, Rico("relationHasSource"), ActivityIri(aid, counter)),
     Triple(r, Rico("relationHasTarget"), ParticipantIri(p))}
    + (if p.role.Some? then {Triple(r, Rico("description"), Lit(p.role.value))} else {})
  }

  /** What one turn of the participants loop adds. */
  function ParticipantTriples(p: Participant, aid: Option<string>, counter: nat): set<Triple>
  {
    AgentTriples(p) + PerformanceTriples(p, aid, counter)
  }

  function ParticipantsTriples(ps: seq<Participant>, aid: Option<string>, counter: nat): set<Triple>
    decreases |ps|
  {
    if ps == [] then {}
    else ParticipantsTriples(ps[..|ps| - 1], aid, counter) + ParticipantTriples(ps[|ps| - 1], aid, counter)
  }

  /** The Place node of a labelled location: typed, named by the placeName, described when there is a description. */
  function PlaceTriples(placeName: string, description: Option<string>): set<Triple>
  {
    var place := PlaceIri(placeName);
    {Triple(place, RDF_TYPE, Rico("Place")), Triple(place, Rico("name"), Lit(placeName))}
    + (if Truthy(description) then {Triple(place, Rico("description"), Lit(description.value))} else {})
  }

  /** The PlaceRelation from the place to the activity. */
  function PlaceRelationTriples(placeName: string, aid: Option<string>, counter: nat): set<Triple>
  {
    var rel := PlaceRelationIri(placeName, aid, counter);
    {Triple(rel, RDF_TYPE, Rico("PlaceRelation")),
     Triple(rel, Rico("relationHasSource"), PlaceIri(placeName)),
     Triple(rel, Rico("relationHasTarget"), ActivityIri(aid, counter))}
  }

  /** What one turn of the locations loop adds: nothing for a falsy label. */
  function LocationTriples(loc: Location, aid: Option<string>, counter: nat): set<Triple>
  {
    if Truthy(loc.labelText) then
      PlaceTriples(loc.labelText.value, loc.description) + PlaceRelationTriples(loc.labelText.value, aid, counter)
    else {}
  }

  function LocationsTriples(ls: seq<Location>, aid: Option<string>, counter: nat): set<Triple>
    decreases |ls|
  {
    if ls == [] then {}
    else LocationsTriples(ls[..|ls| - 1], aid, counter) + LocationTriples(ls[|ls| - 1], aid, counter)
  }

  /** Everything `actions[0]` contributes. */
  function ActionTriples(action: Action, aid: Option<string>, counter: nat): set<Triple>
  {
    var a := ActivityIri(aid, counter);
    ActivityTypeTriples(action, a) + DateTriples(action, a)
    + (if action.participants.Some? then ParticipantsTriples(action.participants.value, aid, counter) else {})
    + (if action.location.Some? then LocationsTriples(action.location.value, aid, counter) else {})
  }

  /** The graph `create_political_situation_graph(event, counter)` returns. */
  function PoliticalSituationTriples(ev: Event, counter: nat): set<Triple>
  {
    ActivityTriples(ev, counter)
    + (if HasAction(ev) then ActionTriples(ev.actions.value[0], ActivityId(ev), counter) else {})
  }

  /** The participants of `actions[0]`, empty when there are none. */
  function Participants(ev: Event): seq<Participant>
  {
    if HasAction(ev) && ev.actions.value[0].participants.Some? then ev.actions.value[0].participants.value else []
  }

  /** The locations of `actions[0]`, empty when there are none. */
  function Locations(ev: Event): seq<Location>
  {
    if HasAction(ev) && ev.actions.value[0].location.Some? then ev.actions.value[0].location.value else []
  }

  lemma {:induction false} ParticipantsTriplesMember(ps: seq<Participant>, aid: Option<string>, counter: nat, t: Triple)
    ensures t in ParticipantsTriples(ps, aid, counter) <==>
      exists i :: 0 <= i < |ps| && t in ParticipantTriples(ps[i], aid, counter)
    decreases |ps|
  {
    if ps != [] {
      var init := ps[..|ps| - 1];
      ParticipantsTriplesMember(init, aid, counter, t);
      if t in ParticipantsTriples(init, aid, counter) {
        var i :| 0 <= i < |init| && t in ParticipantTriples(init[i], aid, counter);
        assert ps[i] == init[i];
      }
      if exists i :: 0 <= i < |ps| && t in ParticipantTriples(ps[i], aid, counter) {
        var i :| 0 <= i < |ps| && t in ParticipantTriples(ps[i], aid, counter);
        if i < |ps| - 1 {
          assert init[i] == ps[i];
        }
      }
    }
  }

  lemma {:induction false} LocationsTriplesMember(ls: seq<Location>, aid: Option<string>, counter: nat, t: Triple)
    ensures t in LocationsTriples(ls, aid, counter) <==>
      exists j :: 0 <= j < |ls| && t in LocationTriples(ls[j], aid, counter)
    decreases |ls|
  {
    if ls != [] {
      var init := ls[..|ls| - 1];
      LocationsTriplesMember(init, aid, counter, t);
      if t in LocationsTriples(init, aid, counter) {
        var j :| 0 <= j < |init| && t in LocationTriples(init[j], aid, counter);
        assert ls[j] == init[j];
      }
      if exists j :: 0 <= j < |ls| && t in LocationTriples(ls[j], aid, counter) {
        var j :| 0 <= j < |ls| && t in LocationTriples(ls[j], aid, counter);
        if j < |ls| - 1 {
          assert init[j] == ls[j];
        }
      }
    }
  }

  /** A triple of the graph is the activity's own, comes from `actions[0]`'s type or dates, or from one participant or location. */
  lemma GraphMember(ev: Event, counter: nat, t: Triple)
    ensures var a := ActivityIri(ActivityId(ev), counter);
      t in PoliticalSituationTriples(ev, counter) <==>
      || t in ActivityTriples(ev, counter)
      || (HasAction(ev) && t in ActivityTypeTriples(ev.actions.value[0], a) + DateTriples(ev.actions.value[0], a))
      || (exists i :: 0 <= i < |Participants(ev)| && t in ParticipantTriples(Participants(ev)[i], ActivityId(ev), counter))
      || (exists j :: 0 <= j < |Locations(ev)| && t in LocationTriples(Locations(ev)[j], ActivityId(ev), counter))
  {
    ParticipantsTriplesMember(Participants(ev), ActivityId(ev), counter, t);
    LocationsTriplesMember(Locations(ev), ActivityId(ev), counter, t);
  }

  /** A node typed with any class but Activity and ActivityType was typed by a participant or a location. */
  lemma TypedByParticipantOrLocation(ev: Event, counter: nat, s: Term, cls: string)
    requires cls != "Activity" && cls != "ActivityType"
    ensures Triple(s, RDF_TYPE, Rico(cls)) in PoliticalSituationTriples(ev, counter) <==>
      || (exists i :: 0 <= i < |Participants(ev)| && Triple(s, RDF_TYPE, Rico(cls)) in ParticipantTriples(Participants(ev)[i], ActivityId(ev), counter))
      || (exists j :: 0 <= j < |Locations(ev)| && Triple(s, RDF_TYPE, Rico(cls)) in LocationTriples(Locations(ev)[j], ActivityId(ev), counter))
  {
    var t := Triple(s, RDF_TYPE, Rico(cls));
    GraphMember(ev, counter, t);
    assert t !in ActivityTriples(ev, counter);
    if HasAction(ev) {
      var action, a := ev.actions.value[0], ActivityIri(ActivityId(ev), counter);
      assert t !in ActivityTypeTriples(action, a);
      DatePredicates(action, a, t);
    }
  }

  /** A triple whose predicate no participant or location uses comes from the activity, its type or its dates. */
  lemma NotFromParticipantsOrLocations(ev: Event, counter: nat, t: Triple)
    requires t.p !in {RDF_TYPE, Rico("name"), Rico("relationHasSource"), Rico("relationHasTarget"), Rico("description")}
    ensures forall i :: 0 <= i < |Participants(ev)| ==> t !in ParticipantTriples(Participants(ev)[i], ActivityId(ev), counter)
    ensures forall j :: 0 <= j < |Locations(ev)| ==> t !in LocationTriples(Locations(ev)[j], ActivityId(ev), counter)
  {
    forall i | 0 <= i < |Participants(ev)|
      ensures t !in ParticipantTriples(Participants(ev)[i], ActivityId(ev), counter)
    {
      ParticipantPredicates(Participants(ev)[i], ActivityId(ev), counter, t);
    }
    forall j | 0 <= j < |Locations(ev)|
      ensures t !in LocationTriples(Locations(ev)[j], ActivityId(ev), counter)
    {
      LocationPredicates(Locations(ev)[j], ActivityId(ev), counter, t);
    }
  }

  /** A triple whose predicate no participant or location uses is in the graph exactly when the activity or `actions[0]` adds it. */
  lemma FromActivityOrFirstAction(ev: Event, counter: nat, t: Triple)
    requires t.p !in {RDF_TYPE, Rico("name"), Rico("relationHasSource"), Rico("relationHasTarget"), Rico("description")}
    ensures var a := ActivityIri(ActivityId(ev), counter);
      t in PoliticalSituationTriples(ev, counter) <==>
      HasAction(ev) && t in ActivityTypeTriples(ev.actions.value[0], a) + DateTriples(ev.actions.value[0], a)
  {
    GraphMember(ev, counter, t);
    NotFromParticipantsOrLocations(ev, counter, t);
  }

  /** The activity-type block only uses the type, name and hasActivityType predicates. */
  lemma ActivityTypePredicates(action: Action, a: Term, t: Triple)
    ensures t in ActivityTypeTriples(action, a) ==> t.p in {RDF_TYPE, Rico("name"), Rico("hasActivityType")}
  {
  }

  /** A date triple is there exactly when the raw date parses, and then carries the parsed date. */
  lemma DateTripleMember(a: Term, pred: string, raw: Option<string>, t: Triple)
    ensures t in DateTriple(a, pred, raw) <==>
      ParseDate(raw).Some? && t == Triple(a, Rico(pred), DateLit(ParseDate(raw).value))
  {
  }

  /** The date block only uses the two date predicates. */
  lemma DatePredicates(action: Action, a: Term, t: Triple)
    ensures t in DateTriples(action, a) ==> t.p == Rico("beginningDate") || t.p == Rico("endDate")
  {
  }

  /** The predicates a participant's triples use. */
  lemma ParticipantPredicates(p: Participant, aid: Option<string>, counter: nat, t: Triple)
    ensures t in ParticipantTriples(p, aid, counter) ==>
      t.p in {RDF_TYPE, Rico("name"), Rico("relationHasSource"), Rico("relationHasTarget"), Rico("description")}
  {
  }

  /** The predicates a location's triples use. */
  lemma LocationPredicates(loc: Location, aid: Option<string>, counter: nat, t: Triple)
    ensures t in LocationTriples(loc, aid, counter) ==>
      t.p in {RDF_TYPE, Rico("name"), Rico("relationHasSource"), Rico("relationHasTarget"), Rico("description")}
  {
  }

  lemma PersonTripleOfParticipant(p: Participant, aid: Option<string>, counter: nat, s: Term)
    ensures Triple(s, RDF_TYPE, Rico("Person")) in ParticipantTriples(p, aid, counter) <==>
      p.kind == "person" && ParticipantIri(p) == s
  {
  }

  lemma CorporateBodyTripleOfParticipant(p: Participant, aid: Option<string>, counter: nat, s: Term)
    ensures Triple(s, RDF_TYPE, Rico("CorporateBody")) in ParticipantTriples(p, aid, counter) <==>
      ParticipantIri(p) == s && (p.kind == "organization" || p.kind == "group")
  {
  }

  /** A participant only types nodes as Person, CorporateBody or PerformanceRelation. */
  lemma ParticipantTypes(p: Participant, aid: Option<string>, counter: nat, t: Triple)
    ensures t in ParticipantTriples(p, aid, counter) && t.p == RDF_TYPE ==>
      t.o == Rico("Person") || t.o == Rico("CorporateBody") || t.o == Rico("PerformanceRelation")
  {
  }

  lemma DescriptionOfParticipant(p: Participant, aid: Option<string>, counter: nat, s: Term, x: string)
    ensures Triple(s, Rico("description"), Lit(x)) in ParticipantTriples(p, aid, counter) <==>
      p.role == Some(x) && PerformanceIri(p, aid, counter) == s
  {
  }

  lemma DescriptionOfLocation(loc: Location, aid: Option<string>, counter: nat, s: Term, x: string)
    ensures Triple(s, Rico("description"), Lit(x)) in LocationTriples(loc, aid, counter) <==>
      Truthy(loc.labelText) && Truthy(loc.description) && loc.description.value == x && PlaceIri(loc.labelText.value) == s
  {
  }

  lemma PlaceTripleOfLocation(loc: Location, aid: Option<string>, counter: nat, s: Term)
    ensures Triple(s, RDF_TYPE, Rico("Place")) in LocationTriples(loc, aid, counter) <==>
      Truthy(loc.labelText) && PlaceIri(loc.labelText.value) == s
  {
  }

  /** A location only types nodes as Place or PlaceRelation. */
  lemma LocationTypes(loc: Location, aid: Option<string>, counter: nat, t: Triple)
    ensures t in LocationTriples(loc, aid, counter) && t.p == RDF_TYPE ==> t.o == Rico("Place") || t.o == Rico("PlaceRelation")
  {
  }

  /** Without a non-empty `actions` list the graph is the activity's type and name only. */
  lemma NoActionOnlyActivity(ev: Event, counter: nat)
    requires !HasAction(ev)
    ensures var a := ActivityIri(ActivityId(ev), counter);
      PoliticalSituationTriples(ev, counter) == {Triple(a, RDF_TYPE, Rico("Activity")), Triple(a, Rico("name"), Lit(ev.description))}
  {
  }

  /** Only `actions[0]` is read: dropping the other actions changes nothing. */
  lemma OnlyFirstActionRead(ev: Event, counter: nat)
    requires HasAction(ev)
    ensures PoliticalSituationTriples(ev, counter) == PoliticalSituationTriples(Event(ev.description, Some([ev.actions.value[0]])), counter)
  {
  }

  /** The activity is typed and named in every graph. */
  lemma ActivityAlwaysPresent(ev: Event, counter: nat)
    ensures var a := ActivityIri(ActivityId(ev), counter);
      Triple(a, RDF_TYPE, Rico("Activity")) in PoliticalSituationTriples(ev, counter)
      && Triple(a, Rico("name"), Lit(ev.description)) in PoliticalSituationTriples(ev, counter)
  {
  }

  /** The activity-type link appears exactly when `actions[0]` has an `action` key. */
  lemma ActivityTypeOnlyWithActionKey(ev: Event, counter: nat, s: Term, o: Term)
    ensures Triple(s, Rico("hasActivityType"), o) in PoliticalSituationTriples(ev, counter) <==>
      HasAction(ev) && ev.actions.value[0].action.Some?
      && s == ActivityIri(ActivityId(ev), counter) && o == ActivityTypeIri(ev.actions.value[0].action.value)
  {
    var t := Triple(s, Rico("hasActivityType"), o);
    FromActivityOrFirstAction(ev, counter, t);
    if HasAction(ev) {
      DatePredicates(ev.actions.value[0], ActivityIri(ActivityId(ev), counter), t);
    }
  }

  /** A beginning date appears exactly when the field is present and parses. */
  lemma BeginningDateOnlyWhenParsed(ev: Event, counter: nat, s: Term, o: Term)
    ensures Triple(s, Rico("beginningDate"), o) in PoliticalSituationTriples(ev, counter) <==>
      HasAction(ev) && ev.actions.value[0].date.Some? && ParseDate(ev.actions.value[0].date.value.startDate).Some?
      && s == ActivityIri(ActivityId(ev), counter) && o == DateLit(ParseDate(ev.actions.value[0].date.value.startDate).value)
  {
    var t := Triple(s, Rico("beginningDate"), o);
    FromActivityOrFirstAction(ev, counter, t);
    if HasAction(ev) {
      var action, a := ev.actions.value[0], ActivityIri(ActivityId(ev), counter);
      ActivityTypePredicates(action, a, t);
      if action.date.Some? {
        DateTripleMember(a, "beginningDate", action.date.value.startDate, t);
        DateTripleMember(a, "endDate", action.date.value.endDate, t);
      }
    }
  }

  /** An end date appears exactly when the field is present and parses. */
  lemma EndDateOnlyWhenParsed(ev: Event, counter: nat, s: Term, o: Term)
    ensures Triple(s, Rico("endDate"), o) in PoliticalSituationTriples(ev, counter) <==>
      HasAction(ev) && ev.actions.value[0].date.Some? && ParseDate(ev.actions.value[0].date.value.endDate).Some?
      && s == ActivityIri(ActivityId(ev), counter) && o == DateLit(ParseDate(ev.actions.value[0].date.value.endDate).value)
  {
    var t := Triple(s, Rico("endDate"), o);
    FromActivityOrFirstAction(ev, counter, t);
    if HasAction(ev) {
      var action, a := ev.actions.value[0], ActivityIri(ActivityId(ev), counter);
      ActivityTypePredicates(action, a, t);
      if action.date.Some? {
        DateTripleMember(a, "endDate", action.date.value.endDate, t);
        DateTripleMember(a, "beginningDate", action.date.value.startDate, t);
      }
    }
  }

  /** Every participant is named and gets a performance relation from the activity to it. */
  lemma EveryParticipantPerforms(ev: Event, counter: nat, i: nat)
    requires i < |Participants(ev)|
    ensures var p := Participants(ev)[i];
      var r := PerformanceIri(p, ActivityId(ev), counter);
      var g := PoliticalSituationTriples(ev, counter);
      && Triple(ParticipantIri(p), Rico("name"), Lit(p.name)) in g
      && Triple(r, RDF_TYPE, Rico("PerformanceRelation")) in g
      && Triple(r, Rico("relationHasSource"), ActivityIri(ActivityId(ev), counter)) in g
      && Triple(r, Rico("relationHasTarget"), ParticipantIri(p)) in g
  {
    var p := Participants(ev)[i];
    forall t | t in ParticipantTriples(p, ActivityId(ev), counter)
      ensures t in PoliticalSituationTriples(ev, counter)
    {
      GraphMember(ev, counter, t);
    }
  }

  /** A node is typed Person exactly when some participant with that IRI has type 'person'. */
  lemma PersonOnlyForPersonType(ev: Event, counter: nat, s: Term)
    ensures Triple(s, RDF_TYPE, Rico("Person")) in PoliticalSituationTriples(ev, counter) <==>
      exists i :: 0 <= i < |Participants(ev)| && Participants(ev)[i].kind == "person" && ParticipantIri(Participants(ev)[i]) == s
  {
    var t := Triple(s, RDF_TYPE, Rico("Person"));
    TypedByParticipantOrLocation(ev, counter, s, "Person");
    forall i | 0 <= i < |Participants(ev)|
      ensures t in ParticipantTriples(Participants(ev)[i], ActivityId(ev), counter) <==>
        Participants(ev)[i].kind == "person" && ParticipantIri(Participants(ev)[i]) == s
    {
      PersonTripleOfParticipant(Participants(ev)[i], ActivityId(ev), counter, s);
    }
    forall j | 0 <= j < |Locations(ev)|
      ensures t !in LocationTriples(Locations(ev)[j], ActivityId(ev), counter)
    {
      LocationTypes(Locations(ev)[j], ActivityId(ev), counter, t);
    }
  }

  /** A node is typed CorporateBody exactly when some participant with that IRI has type 'organization' or 'group'. */
  lemma CorporateBodyOnlyForGroups(ev: Event, counter: nat, s: Term)
    ensures Triple(s, RDF_TYPE, Rico("CorporateBody")) in PoliticalSituationTriples(ev, counter) <==>
      exists i :: 0 <= i < |Participants(ev)| && ParticipantIri(Participants(ev)[i]) == s
        && (Participants(ev)[i].kind == "organization" || Participants(ev)[i].kind == "group")
  {
    var t := Triple(s, RDF_TYPE, Rico("CorporateBody"));
    TypedByParticipantOrLocation(ev, counter, s, "CorporateBody");
    forall i | 0 <= i < |Participants(ev)|
      ensures t in ParticipantTriples(Participants(ev)[i], ActivityId(ev), counter) <==>
        ParticipantIri(Participants(ev)[i]) == s
        && (Participants(ev)[i].kind == "organization" || Participants(ev)[i].kind == "group")
    {
      CorporateBodyTripleOfParticipant(Participants(ev)[i], ActivityId(ev), counter, s);
    }
    forall j | 0 <= j < |Locations(ev)|
      ensures t !in LocationTriples(Locations(ev)[j], ActivityId(ev), counter)
    {
      LocationTypes(Locations(ev)[j], ActivityId(ev), counter, t);
    }
  }

  /** Descriptions come only from participant roles and truthy location descriptions. */
  lemma DescriptionsFromRolesAndPlaces(ev: Event, counter: nat, s: Term, x: string)
    ensures Triple(s, Rico("description"), Lit(x)) in PoliticalSituationTriples(ev, counter) <==>
      || (exists i :: 0 <= i < |Participants(ev)| && Participants(ev)[i].role == Some(x)
            && PerformanceIri(Participants(ev)[i], ActivityId(ev), counter) == s)
      || (exists j :: 0 <= j < |Locations(ev)| && Truthy(Locations(ev)[j].labelText)
            && Truthy(Locations(ev)[j].description) && Locations(ev)[j].description.value == x
            && PlaceIri(Locations(ev)[j].labelText.value) == s)
  {
    var t := Triple(s, Rico("description"), Lit(x));
    GraphMember(ev, counter, t);
    forall i | 0 <= i < |Participants(ev)|
      ensures t in ParticipantTriples(Participants(ev)[i], ActivityId(ev), counter) <==>
        Participants(ev)[i].role == Some(x) && PerformanceIri(Participants(ev)[i], ActivityId(ev), counter) == s
    {
      DescriptionOfParticipant(Participants(ev)[i], ActivityId(ev), counter, s, x);
    }
    forall j | 0 <= j < |Locations(ev)|
      ensures t in LocationTriples(Locations(ev)[j], ActivityId(ev), counter) <==>
        Truthy(Locations(ev)[j].labelText) && Truthy(Locations(ev)[j].description)
        && Locations(ev)[j].description.value == x && PlaceIri(Locations(ev)[j].labelText.value) == s
    {
      DescriptionOfLocation(Locations(ev)[j], ActivityId(ev), counter, s, x);
    }
  }

  /** A node is a Place exactly when some location with a truthy label names it; unlabelled locations add nothing. */
  lemma PlacesOnlyForLabels(ev: Event, counter: nat, s: Term)
    ensures Triple(s, RDF_TYPE, Rico("Place")) in PoliticalSituationTriples(ev, counter) <==>
      exists j :: 0 <= j < |Locations(ev)| && Truthy(Locations(ev)[j].labelText) && PlaceIri(Locations(ev)[j].labelText.value) == s
  {
    var t := Triple(s, RDF_TYPE, Rico("Place"));
    TypedByParticipantOrLocation(ev, counter, s, "Place");
    forall i | 0 <= i < |Participants(ev)|
      ensures t !in ParticipantTriples(Participants(ev)[i], ActivityId(ev), counter)
    {
      ParticipantTypes(Participants(ev)[i], ActivityId(ev), counter, t);
    }
    forall j | 0 <= j < |Locations(ev)|
      ensures t in LocationTriples(Locations(ev)[j], ActivityId(ev), counter) <==>
        Truthy(Locations(ev)[j].labelText) && PlaceIri(Locations(ev)[j].labelText.value) == s
    {
      PlaceTripleOfLocation(Locations(ev)[j], ActivityId(ev), counter, s);
    }
  }

  /** `create_political_situation_graph`: builds the graph triple by triple. */
  method CreatePoliticalSituationGraph(ev: Event, counter: nat) returns (g: Graph)
    ensures fresh(g) && g.triples == PoliticalSituationTriples(ev, counter)
  {
    g := new Graph();
    var activityId := CreateUriSafeString(Some(ev.description));
    var activity := ActivityIri(activityId, counter);
    g.Add(activity, RDF_TYPE, Rico("Activity"));
    g.Add(activity, Rico("name"), Lit(ev.description));
    if ev.actions.Some? && |ev.actions.value| > 0 {
      var action := ev.actions.value[0];
      AddActivityType(g, action, activity);
      AddDates(g, action, activity);
      if action.participants.Some? {
        AddParticipants(g, action.participants.value, activityId, counter);
      }
      if action.location.Some? {
        AddLocations(g, action.location.value, activityId, counter);
      }
    }
  }

  /** The participants loop of `create_political_situation_graph`. */
  method AddParticipants(g: Graph, ps: seq<Participant>, activityId: Option<string>, counter: nat)
    modifies g
    ensures g.triples == old(g.triples) + ParticipantsTriples(ps, activityId, counter)
  {
    for i := 0 to |ps|
      invariant g.triples == old(g.triples) + ParticipantsTriples(ps[..i], activityId, counter)
    {
      AddParticipant(g, ps[i], activityId, counter);
      assert ps[..i + 1][..i] == ps[..i];
    }
    assert ps[..|ps|] == ps;
  }

  /** The locations loop of `create_political_situation_graph`. */
  method AddLocations(g: Graph, ls: seq<Location>, activityId: Option<string>, counter: nat)
    modifies g
    ensures g.triples == old(g.triples) + LocationsTriples(ls, activityId, counter)
  {
    for i := 0 to |ls|
      invariant g.triples == old(g.triples) + LocationsTriples(ls[..i], activityId, counter)
    {
      AddLocation(g, ls[i], activityId, counter);
      assert ls[..i + 1][..i] == ls[..i];
    }
    assert ls[..|ls|] == ls;
  }

  /** The activity type block of `create_political_situation_graph`. */
  method AddActivityType(g: Graph, action: Action, activity: Term)
    modifies g
    ensures g.triples == old(g.triples) + ActivityTypeTriples(action, activity)
  {
    if action.action.Some? {
      var activityType := ActivityTypeIri(action.action.value);
      g.Add(activityType, RDF_TYPE, Rico("ActivityType"));
      g.Add(activityType, Rico("name"), Lit(action.action.value));
      g.Add(activity, Rico("hasActivityType"), activityType);
    }
  }

  /** The date block of `create_political_situation_graph`. */
  method AddDates(g: Graph, action: Action, activity: Term)
    modifies g
    ensures g.triples == old(g.triples) + DateTriples(action, activity)
  {
    if action.date.Some? {
      if Truthy(action.date.value.startDate) {
        var startDate := ParseDate(action.date.value.startDate);
        if startDate.Some? {
          g.Add(activity, Rico("beginningDate"), DateLit(startDate.value));
        }
      }
      if Truthy(action.date.value.endDate) {
        var endDate := ParseDate(action.date.value.endDate);
        if endDate.Some? {
          g.Add(activity, Rico("endDate"), DateLit(endDate.value));
        }
      }
    }
  }

  /** One turn of the participants loop. */
  method AddParticipant(g: Graph, p: Participant, activityId: Option<string>, counter: nat)
    modifies g
    ensures g.triples == old(g.triples) + ParticipantTriples(p, activityId, counter)
  {
    var participant := AddAgent(g, p);
    AddPerformance(g, p, participant, activityId, counter);
  }

  /** The participant's type and name. */
  method AddAgent(g: Graph, p: Participant) returns (participant: Term)
    modifies g
    ensures participant == ParticipantIri(p)
    ensures g.triples == old(g.triples) + AgentTriples(p)
  {
    participant := ParticipantIri(p);
    if p.kind == "person" {
      g.Add(participant, RDF_TYPE, Rico("Person"));
    } else if p.kind == "organization" || p.kind == "group" {
      g.Add(participant, RDF_TYPE, Rico("CorporateBody"));
    }
    g.Add(participant, Rico("name"), Lit(p.name));
  }

  /** The performance relation of one participant. */
  method AddPerformance(g: Graph, p: Participant, participant: Term, activityId: Option<string>, counter: nat)
    requires participant == ParticipantIri(p)
    modifies g
    ensures g.triples == old(g.triples) + PerformanceTriples(p, activityId, counter)
  {
    var relation := PerformanceIri(p, activityId, counter);
    g.Add(relation, RDF_TYPE, Rico("PerformanceRelation"));
    g.Add(relation, Rico("relationHasSource"), ActivityIri(activityId, counter));
    g.Add(relation, Rico("relationHasTarget"), participant);
    if p.role.Some? {
      g.Add(relation, Rico("description"), Lit(p.role.value));
    }
  }

  /** One turn of the locations loop. */
  method AddLocation(g: Graph, loc: Location, activityId: Option<string>, counter: nat)
    modifies g
    ensures g.triples == old(g.triples) + LocationTriples(loc, activityId, counter)
  {
    if Truthy(loc.labelText) {
      var place := AddPlace(g, loc.labelText.value, loc.description);
      AddPlaceRelation(g, loc.labelText.value, place, activityId, counter);
    }
  }

  /** The place node of a labelled location. */
  method AddPlace(g: Graph, placeName: string, description: Option<string>) returns (place: Term)
    modifies g
    ensures place == PlaceIri(placeName)
    ensures g.triples == old(g.triples) + PlaceTriples(placeName, description)
  {
    place := PlaceIri(placeName);
    g.Add(place, RDF_TYPE, Rico("Place"));
    g.Add(place, Rico("name"), Lit(placeName));
    if Truthy(description) {
      g.Add(place, Rico("description"), Lit(description.value));
    }
  }

  /** The place relation of a labelled location. */
  method AddPlaceRelation(g: Graph, placeName: string, place: Term, activityId: Option<string>, counter: nat)
    requires place == PlaceIri(placeName)
    modifies g
    ensures g.triples == old(g.triples) + PlaceRelationTriples(placeName, activityId, counter)
  {
    var placeRelation := PlaceRelationIri(placeName, activityId, counter);
    g.Add(placeRelation, RDF_TYPE, Rico("PlaceRelation"));
    g.Add(placeRelation, Rico("relationHasSource"), place);
    g.Add(placeRelation, Rico("relationHasTarget"), ActivityIri(activityId, counter));
  }
}
