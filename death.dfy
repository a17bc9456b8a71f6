/**
 * death_events/death_mapping.py: every participant of a death event becomes
 * a Person with an optional death date and death place, and a death Event
 * named after them with the event description and the cause of death as
 * descriptions. Its `parse_date` is the same as the politics converter's, so
 * `Politics.ParseDate` models it.
 */
module Death {
  import opened PyBuiltins
  import opened Rdf
  import Politics
  import Education

  /** `EX = Namespace("http://example.org/")` */
  const EX: Namespace := Example

  /**
   * `create_uri_safe_string`: None only for None; otherwise lower-cased,
   * spaces and slashes turned into underscores and ' , . ( ) removed. The
   * empty text is kept as the empty slug.
   */
  function CreateUriSafeString(text: Option<string>): (r: Option<string>)
    ensures r.None? <==> text.None?
  {
    if text.None? then None else Some(Politics.ReplaceChain(Lower(text.value)))
  }

  /** A slug holds none of ` ',.()/` and no upper-case letter. */
  lemma SlugChars(text: string)
    ensures forall c :: c in CreateUriSafeString(Some(text)).value ==> c !in " ',.()/" && !IsUpper(c)
  {
    Politics.ReplaceChainChars(Lower(text));
  }

  /** Slugging is idempotent on every input, the empty text included. */
  lemma SlugIdempotent(text: Option<string>)
    ensures CreateUriSafeString(CreateUriSafeString(text)) == CreateUriSafeString(text)
  {
    if text.Some? {
      var r := CreateUriSafeString(text).value;
      SlugChars(text.value);
      LowerNoUpper(r);
      ReplaceChars(r, ' ', "_");
      ReplaceChars(r, '\'', "");
      ReplaceChars(r, ',', "");
      ReplaceChars(r, '.', "");
      ReplaceChars(r, '(', "");
      ReplaceChars(r, ')', "");
      ReplaceChars(r, '/', "_");
    }
  }

  /** The slug agrees with the education converter's everywhere except on the empty text, which that one maps to None. */
  lemma SlugAgreesWithEducation(text: Option<string>)
    ensures CreateUriSafeString(text) == Education.CreateUriSafeString(text) <==> text != Some("")
  {
  }

  /** The slug of a name, as the f-strings render it. */
  function NameSlug(name: string): string
  {
    Show(CreateUriSafeString(Some(name)))
  }

  /** `participant["deathLocation"]`: None when absent; its `label` and `description` may be missing. */
  datatype DeathLocation = DeathLocation(labelText: Option<string>, description: Option<string>)

  /** A participant; the optional keys are None when absent. */
  datatype Participant = Participant(name: string, deathDate: Option<string>,
                                     deathLocation: Option<DeathLocation>, reason: Option<string>)

  /** `event["data"]`: the optional description and the participants. */
  datatype DeathEvent = DeathEvent(description: Option<string>, participants: seq<Participant>)

  function PersonIri(name: string): Term
  {
    Iri(EX, "person/" + NameSlug(name))
  }

  function EventIri(name: string, counter: nat): Term
  {
    Iri(EX, "event/death_" + NameSlug(name) + "_" + NatToString(counter))
  }

  function PlaceIri(placeLabel: string): Term
  {
    Iri(EX, "place/" + NameSlug(placeLabel))
  }

  /** The death date, parsed only when the raw value is truthy. */
  function DeathDate(p: Participant): Option<string>
  {
    if Truthy(p.deathDate) then Politics.ParseDate(p.deathDate) else None
  }

  /** The death location is used when it is present and its label is truthy. */
  predicate HasDeathPlace(p: Participant)
  {
    p.deathLocation.Some? && Truthy(p.deathLocation.value.labelText)
  }

  function DeathPlaceLabel(p: Participant): string
    requires HasDeathPlace(p)
  {
    p.deathLocation.value.labelText.value
  }

  /** The person and its name. */
  function PersonTriples(p: Participant): set<Triple>
  {
    {Triple(PersonIri(p.name), RDF_TYPE, Rico("Person")), Triple(PersonIri(p.name), Rico("name"), Lit(p.name))}
  }

  /** The death date, when it parses. */
  function DeathDateTriples(p: Participant, deathDate: Option<string>): set<Triple>
  {
    if Truthy(deathDate) then {Triple(PersonIri(p.name), Rico("deathDate"), DateLit(deathDate.value))} else {}
  }

  /** The place of death, with its optional description, for a labelled location. */
  function DeathPlaceTriples(p: Participant): set<Triple>
  {
    if HasDeathPlace(p) then
      var loc, place := p.deathLocation.value, PlaceIri(DeathPlaceLabel(p));
      {Triple(place, RDF_TYPE, Rico("Place")), Triple(place, Rico("name"), Lit(DeathPlaceLabel(p))),
       Triple(PersonIri(p.name), Rico("hasDeathPlace"), place)}
      + (if Truthy(loc.description) then {Triple(place, Rico("description"), Lit(loc.description.value))} else {})
    else {}
  }

  /** The death event, its descriptions and its participant. */
  function EventTriples(description: Option<string>, p: Participant, counter: nat): set<Triple>
  {
    var e := EventIri(p.name, counter);
    {Triple(e, RDF_TYPE, Rico("Event")), Triple(e, Rico("name"), Lit("Death of " + p.name))}
    + (if Truthy(description) then {Triple(e, Rico("description"), Lit(description.value))} else {})
    + (if Truthy(p.reason) then {Triple(e, Rico("description"), Lit("Cause of death: " + p.reason.value))} else {})
    + {Triple(e, Rico("hasOrHadParticipant"), PersonIri(p.name))}
  }

  /** What one turn of the participants loop adds, given the participant's parsed death date. */
  function TurnTriples(description: Option<string>, p: Participant, deathDate: Option<string>, counter: nat): set<Triple>
  {
    PersonTriples(p) + DeathDateTriples(p, deathDate) + DeathPlaceTriples(p) + EventTriples(description, p, counter)
  }

  /** `create_death_graph(event, counter)`: the turns of all participants. */
  function DeathTriples(description: Option<string>, ps: seq<Participant>, counter: nat): set<Triple>
    decreases |ps|
  {
    if ps == [] then {}
    else DeathTriples(description, ps[..|ps| - 1], counter) + TurnTriples(description, ps[|ps| - 1], DeathDate(ps[|ps| - 1]), counter)
  }

  /** A triple of the graph is added by the turn of some participant. */
  lemma {:induction false} GraphMember(description: Option<string>, ps: seq<Participant>, counter: nat, t: Triple)
    ensures t in DeathTriples(description, ps, counter) <==> exists p :: p in ps && t in TurnTriples(description, p, DeathDate(p), counter)
    decreases |ps|
  {
    if ps != [] {
      var init := ps[..|ps| - 1];
      GraphMember(description, init, counter, t);
      if t in DeathTriples(description, init, counter) {
        var p :| p in init && t in TurnTriples(description, p, DeathDate(p), counter);
        assert p in ps;
      }
      if exists p :: p in ps && t in TurnTriples(description, p, DeathDate(p), counter) {
        var p :| p in ps && t in TurnTriples(description, p, DeathDate(p), counter);
        var i :| 0 <= i < |ps| && ps[i] == p;
        if i < |ps| - 1 {
          assert init[i] == p;
        }
      }
    }
  }

  /** The person part holds the person's type and name. */
  lemma PersonShape(p: Participant, t: Triple)
    ensures t in PersonTriples(p) ==>
      t.s == PersonIri(p.name) && ((t.p == RDF_TYPE && t.o == Rico("Person")) || (t.p == Rico("name") && t.o == Lit(p.name)))
  {
  }

  /** The date part holds at most the death date. */
  lemma DateShape(p: Participant, deathDate: Option<string>, t: Triple)
    ensures t in DeathDateTriples(p, deathDate) <==>
      Truthy(deathDate) && t == Triple(PersonIri(p.name), Rico("deathDate"), DateLit(deathDate.value))
  {
  }

  /** The place part, for a labelled location: the place's type, name and description, and the person's place of death. */
  lemma PlaceShape(p: Participant, t: Triple)
    ensures t in DeathPlaceTriples(p) ==>
      && HasDeathPlace(p)
      && (|| t == Triple(PlaceIri(DeathPlaceLabel(p)), RDF_TYPE, Rico("Place"))
          || t == Triple(PlaceIri(DeathPlaceLabel(p)), Rico("name"), Lit(DeathPlaceLabel(p)))
          || t == Triple(PersonIri(p.name), Rico("hasDeathPlace"), PlaceIri(DeathPlaceLabel(p)))
          || (Truthy(p.deathLocation.value.description)
              && t == Triple(PlaceIri(DeathPlaceLabel(p)), Rico("description"), Lit(p.deathLocation.value.description.value))))
  {
  }

  /** The event part: the event's type, name, descriptions and participant. */
  lemma EventShape(description: Option<string>, p: Participant, counter: nat, t: Triple)
    ensures t in EventTriples(description, p, counter) ==>
      && t.s == EventIri(p.name, counter)
      && (|| (t.p == RDF_TYPE && t.o == Rico("Event"))
          || (t.p == Rico("name") && t.o == Lit("Death of " + p.name))
          || (t.p == Rico("description") && DescribedBy(description, p, counter, t.s, t.o))
          || (t.p == Rico("hasOrHadParticipant") && t.o == PersonIri(p.name)))
  {
  }

  /** The classes one turn types. */
  lemma TurnTypes(description: Option<string>, p: Participant, deathDate: Option<string>, counter: nat, s: Term, cls: string)
    ensures Triple(s, RDF_TYPE, Rico(cls)) in TurnTriples(description, p, deathDate, counter) <==>
      || (cls == "Person" && s == PersonIri(p.name))
      || (cls == "Event" && s == EventIri(p.name, counter))
      || (cls == "Place" && HasDeathPlace(p) && s == PlaceIri(DeathPlaceLabel(p)))
  {
    var t := Triple(s, RDF_TYPE, Rico(cls));
    PersonShape(p, t);
    DateShape(p, deathDate, t);
    PlaceShape(p, t);
    EventShape(description, p, counter, t);
  }

  /** One turn's death date. */
  lemma TurnDeathDate(description: Option<string>, p: Participant, deathDate: Option<string>, counter: nat, s: Term, o: Term)
    ensures Triple(s, Rico("deathDate"), o) in TurnTriples(description, p, deathDate, counter) <==>
      s == PersonIri(p.name) && Truthy(deathDate) && o == DateLit(deathDate.value)
  {
    var t := Triple(s, Rico("deathDate"), o);
    PersonShape(p, t);
    DateShape(p, deathDate, t);
    PlaceShape(p, t);
    EventShape(description, p, counter, t);
  }

  /** One turn's place of death. */
  lemma TurnDeathPlace(description: Option<string>, p: Participant, deathDate: Option<string>, counter: nat, s: Term, o: Term)
    ensures Triple(s, Rico("hasDeathPlace"), o) in TurnTriples(description, p, deathDate, counter) <==>
      HasDeathPlace(p) && s == PersonIri(p.name) && o == PlaceIri(DeathPlaceLabel(p))
  {
    var t := Triple(s, Rico("hasDeathPlace"), o);
    PersonShape(p, t);
    DateShape(p, deathDate, t);
    PlaceShape(p, t);
    EventShape(description, p, counter, t);
  }

  /** One turn's descriptions. */
  lemma TurnDescriptions(description: Option<string>, p: Participant, deathDate: Option<string>, counter: nat, s: Term, o: Term)
    ensures Triple(s, Rico("description"), o) in TurnTriples(description, p, deathDate, counter) <==>
      DescribedBy(description, p, counter, s, o)
  {
    var t := Triple(s, Rico("description"), o);
    PersonShape(p, t);
    DateShape(p, deathDate, t);
    PlaceShape(p, t);
    EventShape(description, p, counter, t);
    if DescribedBy(description, p, counter, s, o) {
      if s == EventIri(p.name, counter) && ((Truthy(description) && o == Lit(description.value))
          || (Truthy(p.reason) && o == Lit("Cause of death: " + p.reason.value))) {
        assert t in EventTriples(description, p, counter);
      } else {
        assert t in DeathPlaceTriples(p);
      }
    }
  }

  /** Every participant is a named Person taking part in a death event named after them. */
  lemma EveryParticipantRecorded(description: Option<string>, ps: seq<Participant>, counter: nat, p: Participant)
    requires p in ps
    ensures var person, e, g := PersonIri(p.name), EventIri(p.name, counter), DeathTriples(description, ps, counter);
      && Triple(person, RDF_TYPE, Rico("Person")) in g && Triple(person, Rico("name"), Lit(p.name)) in g
      && Triple(e, RDF_TYPE, Rico("Event")) in g && Triple(e, Rico("name"), Lit("Death of " + p.name)) in g
      && Triple(e, Rico("hasOrHadParticipant"), person) in g
  {
    forall t | t in PersonTriples(p) + EventTriples(description, p, counter)
      ensures t in DeathTriples(description, ps, counter)
    {
      GraphMember(description, ps, counter, t);
    }
  }

  /** Exactly the participants' death events are typed Event. */
  lemma EventTyped(description: Option<string>, ps: seq<Participant>, counter: nat, s: Term)
    ensures Triple(s, RDF_TYPE, Rico("Event")) in DeathTriples(description, ps, counter) <==>
      exists p :: p in ps && s == EventIri(p.name, counter)
  {
    var t := Triple(s, RDF_TYPE, Rico("Event"));
    GraphMember(description, ps, counter, t);
    if exists p :: p in ps && t in TurnTriples(description, p, DeathDate(p), counter) {
      var p :| p in ps && t in TurnTriples(description, p, DeathDate(p), counter);
      TurnTypes(description, p, DeathDate(p), counter, s, "Event");
    }
    if exists p :: p in ps && s == EventIri(p.name, counter) {
      var p :| p in ps && s == EventIri(p.name, counter);
      TurnTypes(description, p, DeathDate(p), counter, s, "Event");
    }
  }

  /** Exactly the participants are typed Person. */
  lemma PersonTyped(description: Option<string>, ps: seq<Participant>, counter: nat, s: Term)
    ensures Triple(s, RDF_TYPE, Rico("Person")) in DeathTriples(description, ps, counter) <==>
      exists p :: p in ps && s == PersonIri(p.name)
  {
    var t := Triple(s, RDF_TYPE, Rico("Person"));
    GraphMember(description, ps, counter, t);
    if exists p :: p in ps && t in TurnTriples(description, p, DeathDate(p), counter) {
      var p :| p in ps && t in TurnTriples(description, p, DeathDate(p), counter);
      TurnTypes(description, p, DeathDate(p), counter, s, "Person");
    }
    if exists p :: p in ps && s == PersonIri(p.name) {
      var p :| p in ps && s == PersonIri(p.name);
      TurnTypes(description, p, DeathDate(p), counter, s, "Person");
    }
  }

  /** A person has a death date exactly when some participant of that name has one that parses. */
  lemma DeathDateOnlyWhenParsed(description: Option<string>, ps: seq<Participant>, counter: nat, s: Term, o: Term)
    ensures Triple(s, Rico("deathDate"), o) in DeathTriples(description, ps, counter) <==>
      exists p :: p in ps && s == PersonIri(p.name) && Truthy(DeathDate(p)) && o == DateLit(DeathDate(p).value)
  {
    var t := Triple(s, Rico("deathDate"), o);
    GraphMember(description, ps, counter, t);
    if exists p :: p in ps && t in TurnTriples(description, p, DeathDate(p), counter) {
      var p :| p in ps && t in TurnTriples(description, p, DeathDate(p), counter);
      TurnDeathDate(description, p, DeathDate(p), counter, s, o);
    }
    if exists p :: p in ps && s == PersonIri(p.name) && Truthy(DeathDate(p)) && o == DateLit(DeathDate(p).value) {
      var p :| p in ps && s == PersonIri(p.name) && Truthy(DeathDate(p)) && o == DateLit(DeathDate(p).value);
      TurnDeathDate(description, p, DeathDate(p), counter, s, o);
    }
  }

  /** A date parse_date returns holds a dash, so a death date that parses is truthy. */
  lemma DeathDateParsed(p: Participant)
    ensures Truthy(DeathDate(p)) <==> Politics.ParseDate(p.deathDate).Some?
  {
  }

  /** A Place appears exactly for the labelled death location of some participant. */
  lemma PlaceTyped(description: Option<string>, ps: seq<Participant>, counter: nat, s: Term)
    ensures Triple(s, RDF_TYPE, Rico("Place")) in DeathTriples(description, ps, counter) <==>
      exists p :: p in ps && HasDeathPlace(p) && s == PlaceIri(DeathPlaceLabel(p))
  {
    var t := Triple(s, RDF_TYPE, Rico("Place"));
    GraphMember(description, ps, counter, t);
    if exists p :: p in ps && t in TurnTriples(description, p, DeathDate(p), counter) {
      var p :| p in ps && t in TurnTriples(description, p, DeathDate(p), counter);
      TurnTypes(description, p, DeathDate(p), counter, s, "Place");
    }
    if exists p :: p in ps && HasDeathPlace(p) && s == PlaceIri(DeathPlaceLabel(p)) {
      var p :| p in ps && HasDeathPlace(p) && s == PlaceIri(DeathPlaceLabel(p));
      TurnTypes(description, p, DeathDate(p), counter, s, "Place");
    }
  }

  /** A person has a place of death exactly for a participant of that name with a labelled death location. */
  lemma DeathPlaceOnlyWithLabel(description: Option<string>, ps: seq<Participant>, counter: nat, s: Term, o: Term)
    ensures Triple(s, Rico("hasDeathPlace"), o) in DeathTriples(description, ps, counter) <==>
      exists p :: p in ps && HasDeathPlace(p) && s == PersonIri(p.name) && o == PlaceIri(DeathPlaceLabel(p))
  {
    var t := Triple(s, Rico("hasDeathPlace"), o);
    GraphMember(description, ps, counter, t);
    if exists p :: p in ps && t in TurnTriples(description, p, DeathDate(p), counter) {
      var p :| p in ps && t in TurnTriples(description, p, DeathDate(p), counter);
      TurnDeathPlace(description, p, DeathDate(p), counter, s, o);
    }
    if exists p :: p in ps && HasDeathPlace(p) && s == PersonIri(p.name) && o == PlaceIri(DeathPlaceLabel(p)) {
      var p :| p in ps && HasDeathPlace(p) && s == PersonIri(p.name) && o == PlaceIri(DeathPlaceLabel(p));
      TurnDeathPlace(description, p, DeathDate(p), counter, s, o);
    }
  }

  /**
   * The descriptions participant `p`'s turn adds: the event description and
   * the cause of death on the death event, and the place's description, each
   * only when present.
   */
  predicate DescribedBy(description: Option<string>, p: Participant, counter: nat, s: Term, o: Term)
  {
    || (s == EventIri(p.name, counter) && Truthy(description) && o == Lit(description.value))
    || (s == EventIri(p.name, counter) && Truthy(p.reason) && o == Lit("Cause of death: " + p.reason.value))
    || (HasDeathPlace(p) && Truthy(p.deathLocation.value.description)
        && s == PlaceIri(DeathPlaceLabel(p)) && o == Lit(p.deathLocation.value.description.value))
  }

  /** Every description in the graph is one a participant's turn adds, and each of those is there. */
  lemma DescriptionsOnlyWhenPresent(description: Option<string>, ps: seq<Participant>, counter: nat, s: Term, o: Term)
    ensures Triple(s, Rico("description"), o) in DeathTriples(description, ps, counter) <==>
      exists p :: p in ps && DescribedBy(description, p, counter, s, o)
  {
    var t := Triple(s, Rico("description"), o);
    GraphMember(description, ps, counter, t);
    if exists p :: p in ps && t in TurnTriples(description, p, DeathDate(p), counter) {
      var p :| p in ps && t in TurnTriples(description, p, DeathDate(p), counter);
      TurnDescriptions(description, p, DeathDate(p), counter, s, o);
    }
    if exists p :: p in ps && DescribedBy(description, p, counter, s, o) {
      var p :| p in ps && DescribedBy(description, p, counter, s, o);
      TurnDescriptions(description, p, DeathDate(p), counter, s, o);
    }
  }

  /** `create_death_graph(event, counter)` */
  method CreateDeathGraph(ev: DeathEvent, counter: nat) returns (g: Graph)
    ensures fresh(g) && g.triples == DeathTriples(ev.description, ev.participants, counter)
  {
    g := new Graph();
    var ps := ev.participants;
    for i := 0 to |ps|
      invariant g.triples == DeathTriples(ev.description, ps[..i], counter)
    {
      AddParticipant(g, ev.description, ps[i], counter);
      assert ps[..i + 1][..i] == ps[..i];
    }
    assert ps[..|ps|] == ps;
  }

  /** One turn of the participants loop. */
  method AddParticipant(g: Graph, description: Option<string>, p: Participant, counter: nat)
    modifies g
    ensures g.triples == old(g.triples) + TurnTriples(description, p, DeathDate(p), counter)
  {
    var personUri := PersonIri(p.name);
    g.Add(personUri, RDF_TYPE, Rico("Person"));
    g.Add(personUri, Rico("name"), Lit(p.name));
    AddDeathDate(g, p);
    AddDeathPlace(g, p);
    AddDeathEvent(g, description, p, counter);
  }

  method AddDeathDate(g: Graph, p: Participant)
    modifies g
    ensures g.triples == old(g.triples) + DeathDateTriples(p, DeathDate(p))
  {
    if Truthy(p.deathDate) {
      var deathDate := Politics.ParseDate(p.deathDate);
      if Truthy(deathDate) {
        g.Add(PersonIri(p.name), Rico("deathDate"), DateLit(deathDate.value));
      }
    }
  }

  method AddDeathPlace(g: Graph, p: Participant)
    modifies g
    ensures g.triples == old(g.triples) + DeathPlaceTriples(p)
  {
    if p.deathLocation.Some? && Truthy(p.deathLocation.value.labelText) {
      var loc := p.deathLocation.value;
      var placeUri := PlaceIri(loc.labelText.value);
      g.Add(placeUri, RDF_TYPE, Rico("Place"));
      g.Add(placeUri, Rico("name"), Lit(loc.labelText.value));
      g.Add(PersonIri(p.name), Rico("hasDeathPlace"), placeUri);
      if Truthy(loc.description) {
        g.Add(placeUri, Rico("description"), Lit(loc.description.value));
      }
    }
  }

  method AddDeathEvent(g: Graph, description: Option<string>, p: Participant, counter: nat)
    modifies g
    ensures g.triples == old(g.triples) + EventTriples(description, p, counter)
  {
    var eventUri := EventIri(p.name, counter);
    g.Add(eventUri, RDF_TYPE, Rico("Event"));
    g.Add(eventUri, Rico("name"), Lit("Death of " + p.name));
    if Truthy(description) {
      g.Add(eventUri, Rico("description"), Lit(description.value));
    }
    if Truthy(p.reason) {
      g.Add(eventUri, Rico("description"), Lit("Cause of death: " + p.reason.value));
    }
    g.Add(eventUri, Rico("hasOrHadParticipant"), PersonIri(p.name));
  }
}
