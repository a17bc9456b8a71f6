/**
 * relations_events/relation_mapping.py: a relationship event becomes an
 * RiC-O `AgentToAgentRelation` between the first relation's person and the
 * first party it has a relationship with, typed by role, dated, located and
 * named by the event description. Its `parse_date` is the same as the birth
 * converter's, so `Birth.ParseDate` models it.
 */
module Relations {
  import opened PyBuiltins
  import opened Rdf
  import Politics
  import Birth
  import DateTime

  /** `EX = Namespace("http://example.org/")` */
  const EX: Namespace := Example

  /**
   * `create_uri_safe_string`: spaces become underscores and ' , . are
   * removed. Parentheses and `/` are kept, nothing is lower-cased, and there
   * is no None guard.
   */
  function CreateUriSafeString(text: string): (r: string)
  {
    Replace(Replace(Replace(Replace(text, ' ', "_"), '\'', ""), ',', ""), '.', "")
  }

  /** A slug holds none of ` ',.`, and every other character of the text is kept. */
  lemma SlugChars(text: string)
    ensures forall c :: c in CreateUriSafeString(text) ==> c !in " ',."
    ensures forall c :: c in CreateUriSafeString(text) ==> c in text || c == '_'
    ensures forall c :: c in text && c !in " ',." ==> c in CreateUriSafeString(text)
  {
    var s1 := Replace(text, ' ', "_");
    var s2 := Replace(s1, '\'', "");
    var s3 := Replace(s2, ',', "");
    ReplaceStep(text, ' ', "_", text, {});
    ReplaceStep(s1, '\'', "", text, {' '});
    ReplaceStep(s2, ',', "", text, {' ', '\''});
    ReplaceStep(s3, '.', "", text, {' ', '\'', ','});
  }

  /** A text without ` ',.` is its own slug: case, parentheses and `/` survive. */
  lemma SlugKeepsOtherText(text: string)
    requires forall c :: c in text ==> c !in " ',."
    ensures CreateUriSafeString(text) == text
  {
    var s1 := Replace(text, ' ', "_");
    var s2 := Replace(s1, '\'', "");
    var s3 := Replace(s2, ',', "");
    ReplaceChars(text, ' ', "_");
    ReplaceChars(s1, '\'', "");
    ReplaceChars(s2, ',', "");
    ReplaceChars(s3, '.', "");
  }

  /** Slugging twice is slugging once, for every text. */
  lemma SlugIdempotent(text: string)
    ensures CreateUriSafeString(CreateUriSafeString(text)) == CreateUriSafeString(text)
  {
    SlugChars(text);
    SlugKeepsOtherText(CreateUriSafeString(text));
  }

  /** `relation["hasRelationshipWith"][i]`: only its name is read. */
  datatype Party = Party(name: string)

  /** One entry of `relations`; the location is reduced to its `label`. */
  datatype Relation = Relation(name: string, role: string, hasRelationshipWith: seq<Party>,
                               date: Politics.DateRange, locationLabel: Option<string>)

  /** `event_data`: the description and the relations. */
  datatype RelationshipEvent = RelationshipEvent(description: string, relations: seq<Relation>)

  function PersonIri(name: string): Term
  {
    Iri(EX, "person/" + CreateUriSafeString(name))
  }

  function RelationIri(counter: nat): Term
  {
    Iri(EX, "AgentToAgentRelation/relation_" + NatToString(counter))
  }

  function PlaceIri(placeLabel: string): Term
  {
    Iri(EX, "place/" + CreateUriSafeString(placeLabel))
  }

  /** The relation type a role maps to; None for every other role. */
  function RelationType(role: string): (r: Option<string>)
    ensures r.Some? <==> role == "husband" || role == "wife" || role == "partner" || role == "political ally"
    ensures r.Some? ==> Truthy(r)
  {
    if role == "husband" || role == "wife" then Some("marriage")
    else if role == "partner" then Some("romantic relation")
    else if role == "political ally" then Some("political alliance")
    else None
  }

  function StartDate(rel: Relation): Option<string>
  {
    Birth.ParseDate(rel.date.startDate)
  }

  function EndDate(rel: Relation): Option<string>
  {
    Birth.ParseDate(rel.date.endDate)
  }

  /** A person typed, named and pointing at the relation. */
  function PersonTriples(name: string, counter: nat): set<Triple>
  {
    var p := PersonIri(name);
    {Triple(p, RDF_TYPE, Rico("Person")), Triple(p, Rico("name"), Lit(name)),
     Triple(p, Rico("thigIsConnectedToRelation"), RelationIri(counter))}
  }

  /** The relation node connecting both persons. */
  function ConnectTriples(name1: string, name2: string, counter: nat): set<Triple>
  {
    var r := RelationIri(counter);
    {Triple(r, RDF_TYPE, Rico("AgentToAgentRelation")), Triple(r, Rico("relationConnects"), PersonIri(name1)),
     Triple(r, Rico("relationConnects"), PersonIri(name2))}
  }

  /** The relation type, for a role that maps to one. */
  function TypeTriples(role: string, counter: nat): set<Triple>
  {
    var relType := RelationType(role);
    if Truthy(relType) then {Triple(RelationIri(counter), Rico("type"), Lit(relType.value))} else {}
  }

  /** The parsed start date, and the parsed end date when it differs from the start. */
  function DateTriples(startDate: Option<string>, endDate: Option<string>, counter: nat): set<Triple>
  {
    var r := RelationIri(counter);
    (if Truthy(startDate) then {Triple(r, Rico("beginningDate"), DateLit(startDate.value))} else {})
    + (if Truthy(endDate) && endDate != startDate then {Triple(r, Rico("endDate"), DateLit(endDate.value))} else {})
  }

  /** The place, linked both ways to the relation, for a truthy label. */
  function PlaceTriples(locationLabel: Option<string>, counter: nat): set<Triple>
  {
    if Truthy(locationLabel) then
      var place, r := PlaceIri(locationLabel.value), RelationIri(counter);
      {Triple(place, RDF_TYPE, Rico("Place")), Triple(place, Rico("name"), Lit(locationLabel.value)),
       Triple(r, Rico("hasOrHadLocation"), place), Triple(place, Rico("isOrWasLocationOf"), r)}
    else {}
  }

  /**
   * The graph of a relation with its first party, given its parsed start and
   * end dates, in the order the converter adds the parts.
   */
  function RelationshipGraph(description: string, rel: Relation, party: Party,
                             startDate: Option<string>, endDate: Option<string>, counter: nat): set<Triple>
  {
    PersonTriples(rel.name, counter) + PersonTriples(party.name, counter)
    + ConnectTriples(rel.name, party.name, counter) + TypeTriples(rel.role, counter)
    + DateTriples(startDate, endDate, counter) + PlaceTriples(rel.locationLabel, counter)
    + {Triple(RelationIri(counter), Rico("name"), Lit(description))}
  }

  /** `create_relationship_graph`: IndexError without a relation or without a party, else the graph of the first ones. */
  function RelationshipTriples(ev: RelationshipEvent, counter: nat): Result<set<Triple>>
  {
    if |ev.relations| == 0 || |ev.relations[0].hasRelationshipWith| == 0 then Raised(IndexError)
    else
      var rel := ev.relations[0];
      Ok(RelationshipGraph(ev.description, rel, rel.hasRelationshipWith[0], StartDate(rel), EndDate(rel), counter))
  }

  /** The event with every relation but the first, and every party but the first, dropped. */
  function FirstOnly(ev: RelationshipEvent): RelationshipEvent
    requires |ev.relations| > 0 && |ev.relations[0].hasRelationshipWith| > 0
  {
    var rel := ev.relations[0];
    ev.(relations := [rel.(hasRelationshipWith := [rel.hasRelationshipWith[0]])])
  }

  /** The graph is built exactly when there is a first relation with a first party; otherwise IndexError. */
  lemma RaisesOnlyWithoutParty(ev: RelationshipEvent, counter: nat)
    ensures RelationshipTriples(ev, counter).Raised? <==>
      |ev.relations| == 0 || |ev.relations[0].hasRelationshipWith| == 0
    ensures RelationshipTriples(ev, counter).Raised? ==> RelationshipTriples(ev, counter).error == IndexError
  {
  }

  /** Further relations and further parties change nothing. */
  lemma OnlyFirstPartiesRead(ev: RelationshipEvent, counter: nat)
    requires |ev.relations| > 0 && |ev.relations[0].hasRelationshipWith| > 0
    ensures RelationshipTriples(FirstOnly(ev), counter) == RelationshipTriples(ev, counter)
  {
  }

  /** The relation node, the person nodes and the place nodes are pairwise distinct IRIs. */
  lemma IrisDistinct(name: string, placeLabel: string, counter: nat)
    ensures RelationIri(counter) != PersonIri(name)
    ensures RelationIri(counter) != PlaceIri(placeLabel)
    ensures PersonIri(name) != PlaceIri(placeLabel)
  {
    PrefixesDiffer("AgentToAgentRelation/relation_", NatToString(counter), "person/", CreateUriSafeString(name), 0);
    PrefixesDiffer("AgentToAgentRelation/relation_", NatToString(counter), "place/", CreateUriSafeString(placeLabel), 0);
    PrefixesDiffer("person/", CreateUriSafeString(name), "place/", CreateUriSafeString(placeLabel), 1);
  }

  /** A triple of the graph is in one of its parts. */
  lemma GraphMember(description: string, rel: Relation, party: Party, startDate: Option<string>, endDate: Option<string>, counter: nat, t: Triple)
    ensures t in RelationshipGraph(description, rel, party, startDate, endDate, counter) <==>
      || t in PersonTriples(rel.name, counter) || t in PersonTriples(party.name, counter)
      || t in ConnectTriples(rel.name, party.name, counter) || t in TypeTriples(rel.role, counter)
      || t in DateTriples(startDate, endDate, counter) || t in PlaceTriples(rel.locationLabel, counter)
      || t == Triple(RelationIri(counter), Rico("name"), Lit(description))
  {
  }

  /** Exactly the two persons are typed Person. */
  lemma PersonsTyped(description: string, rel: Relation, party: Party, startDate: Option<string>, endDate: Option<string>, counter: nat, s: Term)
    ensures Triple(s, RDF_TYPE, Rico("Person")) in RelationshipGraph(description, rel, party, startDate, endDate, counter) <==>
      s == PersonIri(rel.name) || s == PersonIri(party.name)
  {
    var t := Triple(s, RDF_TYPE, Rico("Person"));
    GraphMember(description, rel, party, startDate, endDate, counter, t);
    assert t !in ConnectTriples(rel.name, party.name, counter) && t !in TypeTriples(rel.role, counter);
    assert t !in DateTriples(startDate, endDate, counter) && t !in PlaceTriples(rel.locationLabel, counter);
    assert t in PersonTriples(rel.name, counter) <==> s == PersonIri(rel.name);
    assert t in PersonTriples(party.name, counter) <==> s == PersonIri(party.name);
  }

  /** The relation connects exactly the two persons. */
  lemma ConnectsBothPersons(description: string, rel: Relation, party: Party, startDate: Option<string>, endDate: Option<string>, counter: nat, s: Term, o: Term)
    ensures Triple(s, Rico("relationConnects"), o) in RelationshipGraph(description, rel, party, startDate, endDate, counter) <==>
      s == RelationIri(counter) && (o == PersonIri(rel.name) || o == PersonIri(party.name))
  {
    var t := Triple(s, Rico("relationConnects"), o);
    GraphMember(description, rel, party, startDate, endDate, counter, t);
    assert t !in PersonTriples(rel.name, counter) && t !in PersonTriples(party.name, counter);
    assert t !in TypeTriples(rel.role, counter);
    assert t !in DateTriples(startDate, endDate, counter) && t !in PlaceTriples(rel.locationLabel, counter);
  }

  /** Each person points back at the relation, and nothing else does. */
  lemma PersonsPointBack(description: string, rel: Relation, party: Party, startDate: Option<string>, endDate: Option<string>, counter: nat, s: Term, o: Term)
    ensures Triple(s, Rico("thigIsConnectedToRelation"), o) in RelationshipGraph(description, rel, party, startDate, endDate, counter) <==>
      o == RelationIri(counter) && (s == PersonIri(rel.name) || s == PersonIri(party.name))
  {
    GraphMember(description, rel, party, startDate, endDate, counter, Triple(s, Rico("thigIsConnectedToRelation"), o));
  }

  /** The role decides the type: husband and wife a marriage, partner a romantic relation, political ally a political alliance. */
  lemma TypeByRole(description: string, rel: Relation, party: Party, startDate: Option<string>, endDate: Option<string>, counter: nat, s: Term, o: Term)
    ensures Triple(s, Rico("type"), o) in RelationshipGraph(description, rel, party, startDate, endDate, counter) <==>
      && s == RelationIri(counter)
      && (|| ((rel.role == "husband" || rel.role == "wife") && o == Lit("marriage"))
          || (rel.role == "partner" && o == Lit("romantic relation"))
          || (rel.role == "political ally" && o == Lit("political alliance")))
  {
    var t := Triple(s, Rico("type"), o);
    GraphMember(description, rel, party, startDate, endDate, counter, t);
    assert t !in PersonTriples(rel.name, counter) && t !in PersonTriples(party.name, counter);
    assert t !in ConnectTriples(rel.name, party.name, counter);
    assert t !in DateTriples(startDate, endDate, counter) && t !in PlaceTriples(rel.locationLabel, counter);
    TypeTriplesByRole(rel.role, counter, s, o);
  }

  /** The type triple a role adds, case by case. */
  lemma TypeTriplesByRole(role: string, counter: nat, s: Term, o: Term)
    ensures Triple(s, Rico("type"), o) in TypeTriples(role, counter) <==>
      && s == RelationIri(counter)
      && (|| ((role == "husband" || role == "wife") && o == Lit("marriage"))
          || (role == "partner" && o == Lit("romantic relation"))
          || (role == "political ally" && o == Lit("political alliance")))
  {
  }

  /** The relation begins at the start date exactly when it parsed (a parsed date is never empty). */
  lemma BeginningDateOnlyWhenParsed(description: string, rel: Relation, party: Party, startDate: Option<string>, endDate: Option<string>, counter: nat, s: Term, o: Term)
    ensures Triple(s, Rico("beginningDate"), o) in RelationshipGraph(description, rel, party, startDate, endDate, counter) <==>
      s == RelationIri(counter) && Truthy(startDate) && o == DateLit(startDate.value)
  {
    GraphMember(description, rel, party, startDate, endDate, counter, Triple(s, Rico("beginningDate"), o));
  }

  /** The relation ends at the end date exactly when it parsed, to something other than the parsed start date. */
  lemma EndDateOnlyWhenDifferent(description: string, rel: Relation, party: Party, startDate: Option<string>, endDate: Option<string>, counter: nat, s: Term, o: Term)
    ensures Triple(s, Rico("endDate"), o) in RelationshipGraph(description, rel, party, startDate, endDate, counter) <==>
      s == RelationIri(counter) && Truthy(endDate) && endDate != startDate && o == DateLit(endDate.value)
  {
    GraphMember(description, rel, party, startDate, endDate, counter, Triple(s, Rico("endDate"), o));
  }

  /** The graph never carries the same date as both beginning and end. */
  lemma NeverEndsWhenItBegins(description: string, rel: Relation, party: Party, startDate: Option<string>, endDate: Option<string>, counter: nat, s: Term, d: string)
    ensures !(Triple(s, Rico("beginningDate"), DateLit(d)) in RelationshipGraph(description, rel, party, startDate, endDate, counter)
              && Triple(s, Rico("endDate"), DateLit(d)) in RelationshipGraph(description, rel, party, startDate, endDate, counter))
  {
    BeginningDateOnlyWhenParsed(description, rel, party, startDate, endDate, counter, s, DateLit(d));
    EndDateOnlyWhenDifferent(description, rel, party, startDate, endDate, counter, s, DateLit(d));
  }

  /** A date parse_date returns is never empty, so it is truthy exactly when it parsed. */
  lemma ParsedDateTruthy(raw: Option<string>)
    ensures Truthy(Birth.ParseDate(raw)) <==> Birth.ParseDate(raw).Some?
  {
    if Birth.ParseDate(raw).Some? {
      DateTime.FullDateShape(Birth.ParseDate(raw).value);
    }
  }

  /** On the converter's own graph: it begins at the start date when that parses, and ends at the end date when that parses to another date. */
  lemma EventDates(ev: RelationshipEvent, counter: nat, s: Term, o: Term)
    requires RelationshipTriples(ev, counter).Ok?
    ensures var rel, g := ev.relations[0], RelationshipTriples(ev, counter).value;
      && (Triple(s, Rico("beginningDate"), o) in g <==>
            s == RelationIri(counter) && StartDate(rel).Some? && o == DateLit(StartDate(rel).value))
      && (Triple(s, Rico("endDate"), o) in g <==>
            s == RelationIri(counter) && EndDate(rel).Some? && EndDate(rel) != StartDate(rel) && o == DateLit(EndDate(rel).value))
  {
    var rel := ev.relations[0];
    var party := rel.hasRelationshipWith[0];
    ParsedDateTruthy(rel.date.startDate);
    ParsedDateTruthy(rel.date.endDate);
    BeginningDateOnlyWhenParsed(ev.description, rel, party, StartDate(rel), EndDate(rel), counter, s, o);
    EndDateOnlyWhenDifferent(ev.description, rel, party, StartDate(rel), EndDate(rel), counter, s, o);
  }

  /** A Place appears exactly when the location label is truthy. */
  lemma PlaceOnlyWithLabel(description: string, rel: Relation, party: Party, startDate: Option<string>, endDate: Option<string>, counter: nat, s: Term)
    ensures Triple(s, RDF_TYPE, Rico("Place")) in RelationshipGraph(description, rel, party, startDate, endDate, counter) <==>
      Truthy(rel.locationLabel) && s == PlaceIri(rel.locationLabel.value)
  {
    GraphMember(description, rel, party, startDate, endDate, counter, Triple(s, RDF_TYPE, Rico("Place")));
  }

  /** The relation is located at the place exactly when the place says it is the location of the relation. */
  lemma LocationBothWays(description: string, rel: Relation, party: Party, startDate: Option<string>, endDate: Option<string>, counter: nat, s: Term, o: Term)
    ensures Triple(s, Rico("hasOrHadLocation"), o) in RelationshipGraph(description, rel, party, startDate, endDate, counter) <==>
      Triple(o, Rico("isOrWasLocationOf"), s) in RelationshipGraph(description, rel, party, startDate, endDate, counter)
    ensures Triple(s, Rico("hasOrHadLocation"), o) in RelationshipGraph(description, rel, party, startDate, endDate, counter) <==>
      Truthy(rel.locationLabel) && s == RelationIri(counter) && o == PlaceIri(rel.locationLabel.value)
  {
    GraphMember(description, rel, party, startDate, endDate, counter, Triple(s, Rico("hasOrHadLocation"), o));
    GraphMember(description, rel, party, startDate, endDate, counter, Triple(o, Rico("isOrWasLocationOf"), s));
  }

  /** The relation's only name is the event description. */
  lemma RelationNamedByDescription(description: string, rel: Relation, party: Party, startDate: Option<string>, endDate: Option<string>, counter: nat, o: Term)
    ensures Triple(RelationIri(counter), Rico("name"), o) in RelationshipGraph(description, rel, party, startDate, endDate, counter) <==>
      o == Lit(description)
  {
    var r := RelationIri(counter);
    IrisDistinct(rel.name, if rel.locationLabel.Some? then rel.locationLabel.value else "", counter);
    IrisDistinct(party.name, "", counter);
    GraphMember(description, rel, party, startDate, endDate, counter, Triple(r, Rico("name"), o));
  }

  /** `create_relationship_graph(event_data, counter)` */
  method CreateRelationshipGraph(ev: RelationshipEvent, counter: nat) returns (r: Result<Graph>)
    ensures r.Raised? ==> RelationshipTriples(ev, counter) == Raised(r.error)
    ensures r.Ok? ==> fresh(r.value) && RelationshipTriples(ev, counter) == Ok(r.value.triples)
  {
    if |ev.relations| == 0 {
      return Raised(IndexError);
    }
    var relation := ev.relations[0];
    if |relation.hasRelationshipWith| == 0 {
      return Raised(IndexError);
    }
    var party := relation.hasRelationshipWith[0];
    var g := new Graph();
    AddPerson(g, relation.name, counter);
    assert g.triples == PersonTriples(relation.name, counter);
    AddPerson(g, party.name, counter);
    AddConnection(g, relation.name, party.name, counter);
    AddRelationType(g, relation.role, counter);
    AddDates(g, relation, counter);
    AddPlace(g, relation.locationLabel, counter);
    g.Add(RelationIri(counter), Rico("name"), Lit(ev.description));
    assert g.triples == RelationshipGraph(ev.description, relation, party, StartDate(relation), EndDate(relation), counter);
    return Ok(g);
  }

  method AddPerson(g: Graph, name: string, counter: nat)
    modifies g
    ensures g.triples == old(g.triples) + PersonTriples(name, counter)
  {
    var personUri := PersonIri(name);
    g.Add(personUri, RDF_TYPE, Rico("Person"));
    g.Add(personUri, Rico("name"), Lit(name));
    g.Add(personUri, Rico("thigIsConnectedToRelation"), RelationIri(counter));
  }

  method AddConnection(g: Graph, name1: string, name2: string, counter: nat)
    modifies g
    ensures g.triples == old(g.triples) + ConnectTriples(name1, name2, counter)
  {
    var relationUri := RelationIri(counter);
    g.Add(relationUri, RDF_TYPE, Rico("AgentToAgentRelation"));
    g.Add(relationUri, Rico("relationConnects"), PersonIri(name1));
    g.Add(relationUri, Rico("relationConnects"), PersonIri(name2));
  }

  method AddRelationType(g: Graph, role: string, counter: nat)
    modifies g
    ensures g.triples == old(g.triples) + TypeTriples(role, counter)
  {
    var relType: Option<string> := None;
    if role == "husband" || role == "wife" {
      relType := Some("marriage");
    } else if role == "partner" {
      relType := Some("romantic relation");
    } else if role == "political ally" {
      relType := Some("political alliance");
    }
    if Truthy(relType) {
      g.Add(RelationIri(counter), Rico("type"), Lit(relType.value));
    }
  }

  method AddDates(g: Graph, rel: Relation, counter: nat)
    modifies g
    ensures g.triples == old(g.triples) + DateTriples(StartDate(rel), EndDate(rel), counter)
  {
    var startDate := Birth.ParseDate(rel.date.startDate);
    var endDate := Birth.ParseDate(rel.date.endDate);
    if Truthy(startDate) {
      g.Add(RelationIri(counter), Rico("beginningDate"), DateLit(startDate.value));
    }
    if Truthy(endDate) && endDate != startDate {
      g.Add(RelationIri(counter), Rico("endDate"), DateLit(endDate.value));
    }
  }

  method AddPlace(g: Graph, locationLabel: Option<string>, counter: nat)
    modifies g
    ensures g.triples == old(g.triples) + PlaceTriples(locationLabel, counter)
  {
    if Truthy(locationLabel) {
      var locationUri, relationUri := PlaceIri(locationLabel.value), RelationIri(counter);
      g.Add(locationUri, RDF_TYPE, Rico("Place"));
      g.Add(locationUri, Rico("name"), Lit(locationLabel.value));
      g.Add(relationUri, Rico("hasOrHadLocation"), locationUri);
      g.Add(locationUri, Rico("isOrWasLocationOf"), relationUri);
    }
  }
}
