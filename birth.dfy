/**
 * birth_events/birth_mapping.py: one birth event becomes an RiC-O `Event`
 * with the newborn as participant, an optional `Date` node, a `Family` with
 * the newborn and every parent as members, a `FamilyRelation` per parent, and
 * a birth `PlaceRelation` when the location is known. The `counter` argument
 * is accepted and never read.
 */
module Birth {
  import opened PyBuiltins
  import opened DateTime
  import opened Rdf

  /** `EX = Namespace("http://example.org/")` */
  const EX: Namespace := Example

  /**
   * `create_uri_safe_string`: spaces become underscores and ' , . ( ) are
   * removed. There is no None guard, no lower-casing, and `/` is kept.
   */
  function CreateUriSafeString(text: string): (r: string)
  {
    Replace(Replace(Replace(Replace(Replace(Replace(
      text, ' ', "_"), '\'', ""), ',', ""), '.', ""), '(', ""), ')', "")
  }

  /** A slug holds none of ` ',.()`, and every other character of the text is kept. */
  lemma SlugChars(text: string)
    ensures forall c :: c in CreateUriSafeString(text) ==> c !in " ',.()"
    ensures forall c :: c in CreateUriSafeString(text) ==> c in text || c == '_'
    ensures forall c :: c in text && c !in " ',.()" ==> c in CreateUriSafeString(text)
  {
    var s1 := Replace(text, ' ', "_");
    var s2 := Replace(s1, '\'', "");
    var s3 := Replace(s2, ',', "");
    var s4 := Replace(s3, '.', "");
    var s5 := Replace(s4, '(', "");
    ReplaceStep(text, ' ', "_", text, {});
    ReplaceStep(s1, '\'', "", text, {' '});
    ReplaceStep(s2, ',', "", text, {' ', '\''});
    ReplaceStep(s3, '.', "", text, {' ', '\'', ','});
    ReplaceStep(s4, '(', "", text, {' ', '\'', ',', '.'});
    ReplaceStep(s5, ')', "", text, {' ', '\'', ',', '.', '('});
  }

  /** A text without ` ',.()` is its own slug: upper case and `/` survive. */
  lemma SlugKeepsOtherText(text: string)
    requires forall c :: c in text ==> c !in " ',.()"
    ensures CreateUriSafeString(text) == text
  {
    var s1 := Replace(text, ' ', "_");
    var s2 := Replace(s1, '\'', "");
    var s3 := Replace(s2, ',', "");
    var s4 := Replace(s3, '.', "");
    var s5 := Replace(s4, '(', "");
    ReplaceChars(text, ' ', "_");
    ReplaceChars(s1, '\'', "");
    ReplaceChars(s2, ',', "");
    ReplaceChars(s3, '.', "");
    ReplaceChars(s4, '(', "");
    ReplaceChars(s5, ')', "");
  }

  /** Slugging twice is slugging once, for every text. */
  lemma SlugIdempotent(text: string)
    ensures CreateUriSafeString(CreateUriSafeString(text)) == CreateUriSafeString(text)
  {
    SlugChars(text);
    SlugKeepsOtherText(CreateUriSafeString(text));
  }

  /**
   * `parse_date`: None for a falsy input; a text holding `/` is read as
   * DD/MM/YYYY and written as YYYY-MM-DD (None when it does not parse); four
   * digits become January 1st of that year; everything else, dashed dates
   * included, is None.
   */
  function ParseDate(s: Option<string>): (r: Option<string>)
    ensures !Truthy(s) ==> r.None?
    ensures r.Some? ==> IsFullDate(r.value)
  {
    if !Truthy(s) then None
    else if '/' in s.value then
      match StrptimeDMY(s.value)
      case Some(d) => Some(StrftimeISO(d))
      case None => None
    else if IsDigitStr(s.value) && |s.value| == 4 then
      YearStartIsFullDate(s.value);
      Some(s.value + "-01-01")
    else None
  }

  /** A slashed date is read back to the date it names, or None when no such date exists. */
  lemma ParseDateSlashed(d: Date)
    requires d.day < 100 && d.month < 100 && d.year < 10000
    ensures ParseDate(Some(SlashedDMY(d))) == if IsValidDate(d) then Some(StrftimeISO(d)) else None
  {
    StrptimeSlashed(d);
    SlashedHasSlash(d);
  }

  /** Four digits denote January 1st of that year. */
  lemma ParseDateYear(y: string)
    requires IsYearField(y)
    ensures ParseDate(Some(y)) == Some(y + "-01-01")
  {
    assert '/' !in y by {
      forall i | 0 <= i < |y| ensures y[i] != '/' { assert IsDigit(y[i]); }
    }
  }

  /** There is no pass-through: an output of parse_date, fed back in, is rejected. */
  lemma ParseDateRejectsItsOutput(s: Option<string>)
    requires ParseDate(s).Some?
    ensures ParseDate(ParseDate(s)) == None
  {
    FullDateShape(ParseDate(s).value);
  }

  /** Non-empty text with no `/` that is not four digits is not a date: the final `return None`. */
  lemma ParseDateOther(s: string)
    requires s != "" && '/' !in s && !(IsDigitStr(s) && |s| == 4)
    ensures ParseDate(Some(s)) == None
  {
  }

  /** A dashed date is not passed through. */
  lemma ParseDateDashedExample()
    ensures ParseDate(Some("1984-06-11")) == None
  {
    var s := "1984-06-11";
    assert s[4] == '-';
    assert forall i | 0 <= i < |s| :: s[i] != '/';
    NotDigitsWithDash(s);
  }

  /** A participant of the event; `birthDate` is None when the key is absent. */
  datatype Participant = Participant(name: string, role: string, birthDate: Option<string>)

  /** `event_data["location"]`: only its `label` is read. */
  datatype Location = Location(labelText: Option<string>)

  /** `event_data`: the description, the participants and the location. */
  datatype BirthEvent = BirthEvent(description: string, participants: seq<Participant>, location: Location)

  /** `next(p for p in participants if p["role"] == "newborn")`, as an index; None is the StopIteration. */
  function FirstNewborn(ps: seq<Participant>): (r: Option<nat>)
    ensures r.Some? ==> r.value < |ps| && ps[r.value].role == "newborn"
    ensures r.Some? ==> forall j :: 0 <= j < r.value ==> ps[j].role != "newborn"
    ensures r.None? ==> forall j :: 0 <= j < |ps| ==> ps[j].role != "newborn"
  {
    if ps == [] then None
    else if ps[0].role == "newborn" then Some(0)
    else
      match FirstNewborn(ps[1..])
      case None => None
      case Some(i) => Some(i + 1)
  }

  /** `[p for p in participants if p["role"] == "parent"]` */
  function Parents(ps: seq<Participant>): (r: seq<Participant>)
    ensures forall p :: p in r <==> p in ps && p.role == "parent"
    decreases |ps|
  {
    if ps == [] then []
    else
      var last := ps[|ps| - 1];
      assert ps == ps[..|ps| - 1] + [last];
      Parents(ps[..|ps| - 1]) + (if last.role == "parent" then [last] else [])
  }

  /** The newborn's birth date, as parse_date gives it. */
  function BirthDate(nb: Participant): Option<string>
  {
    ParseDate(nb.birthDate)
  }

  function EventIri(nb: Participant): Term
  {
    Iri(EX, "event/Birth_" + CreateUriSafeString(nb.name))
  }

  function PersonIri(name: string): Term
  {
    Iri(EX, "person/" + CreateUriSafeString(name))
  }

  function DateIri(iso: string): Term
  {
    Iri(EX, "date/" + iso)
  }

  function FamilyIri(nb: Participant): Term
  {
    Iri(EX, "family/" + CreateUriSafeString(nb.name) + "_Family")
  }

  function FamilyRelationIri(parent: Participant, nb: Participant): Term
  {
    Iri(EX, "relation/family_" + CreateUriSafeString(parent.name) + "_" + CreateUriSafeString(nb.name))
  }

  function PlaceIri(placeName: string): Term
  {
    Iri(EX, "place/" + CreateUriSafeString(placeName))
  }

  function PlaceRelationIri(nb: Participant): Term
  {
    Iri(EX, "relation/birth_place_" + CreateUriSafeString(nb.name))
  }

  /** The location is used when its label is truthy and not "Unknown Location". */
  predicate KnownLocation(loc: Location)
  {
    Truthy(loc.labelText) && loc.labelText.value != "Unknown Location"
  }

  /** The event, its name, the newborn and its participation. */
  function EventTriples(ev: BirthEvent, nb: Participant): set<Triple>
  {
    var e, n := EventIri(nb), PersonIri(nb.name);
    {Triple(e, RDF_TYPE, Rico("Event")), Triple(e, Rico("name"), Lit(ev.description)),
     Triple(n, RDF_TYPE, Rico("Person")), Triple(n, Rico("name"), Lit(nb.name)),
     Triple(e, Rico("hasOrHadParticipant"), n)}
  }

  /** The Date node, added only when the birth date parsed. */
  function DateTriples(nb: Participant): set<Triple>
  {
    var bd := BirthDate(nb);
    if Truthy(bd) then
      var d := DateIri(bd.value);
      {Triple(d, RDF_TYPE, Rico("Date")), Triple(d, Rico("normalizedDateValue"), DateLit(bd.value)),
       Triple(EventIri(nb), Rico("occurredAtDate"), d)}
    else {}
  }

  /** The Family node with the newborn as member. */
  function FamilyTriples(nb: Participant): set<Triple>
  {
    var f := FamilyIri(nb);
    {Triple(f, RDF_TYPE, Rico("Family")), Triple(f, Rico("name"), Lit(nb.name + " Family")),
     Triple(f, Rico("hasOrHadMember"), PersonIri(nb.name))}
  }

  /** The parent as a person linked to the newborn, the event and the family. */
  function ParentTriples(parent: Participant, nb: Participant): set<Triple>
  {
    var p, n := PersonIri(parent.name), PersonIri(nb.name);
    {Triple(p, RDF_TYPE, Rico("Person")), Triple(p, Rico("name"), Lit(parent.name)),
     Triple(p, Rico("hasChild"), n), Triple(n, Rico("hasParent"), p),
     Triple(EventIri(nb), Rico("hasOrHadParticipant"), p), Triple(FamilyIri(nb), Rico("hasOrHadMember"), p)}
  }

  /** The parent-child FamilyRelation, dated when the birth date parsed. */
  function FamilyRelationTriples(parent: Participant, nb: Participant): set<Triple>
  {
    var r, bd := FamilyRelationIri(parent, nb), BirthDate(nb);
    {Triple(r, RDF_TYPE, Rico("FamilyRelation")), Triple(r, Rico("relationHasSource"), PersonIri(parent.name)),
     Triple(r, Rico("relationHasTarget"), PersonIri(nb.name)), Triple(r, Rico("familyRelationType"), Lit("parent-child"))}
    + (if Truthy(bd) then {Triple(r, Rico("hasBeginningDate"), DateLit(bd.value))} else {})
  }

  /** What one turn of the parents loop adds. */
  function ParentTurnTriples(parent: Participant, nb: Participant): set<Triple>
  {
    ParentTriples(parent, nb) + FamilyRelationTriples(parent, nb)
  }

  function ParentsTriples(parents: seq<Participant>, nb: Participant): set<Triple>
    decreases |parents|
  {
    if parents == [] then {}
    else ParentsTriples(parents[..|parents| - 1], nb) + ParentTurnTriples(parents[|parents| - 1], nb)
  }

  /** The birth place and its PlaceRelation to the newborn, for a known location. */
  function PlaceTriples(loc: Location, nb: Participant): set<Triple>
  {
    if KnownLocation(loc) then
      var place, r, bd := PlaceIri(loc.labelText.value), PlaceRelationIri(nb), BirthDate(nb);
      {Triple(place, RDF_TYPE, Rico("Place")), Triple(place, Rico("name"), Lit(loc.labelText.value)),
       Triple(r, RDF_TYPE, Rico("PlaceRelation")), Triple(r, Rico("relationHasSource"), place),
       Triple(r, Rico("relationHasTarget"), PersonIri(nb.name)), Triple(r, Rico("placeRelationType"), Lit("birthPlace"))}
      + (if Truthy(bd) then {Triple(r, Rico("date"), DateLit(bd.value))} else {})
    else {}
  }

  /** The graph built around the newborn `nb`, in the order the converter adds the parts. */
  function BirthGraph(ev: BirthEvent, nb: Participant): set<Triple>
  {
    EventTriples(ev, nb) + DateTriples(nb) + FamilyTriples(nb) + ParentsTriples(Parents(ev.participants), nb)
    + PlaceTriples(ev.location, nb)
  }

  /** `create_birth_graph`: StopIteration without a newborn, otherwise the graph around the first one. */
  function BirthTriples(ev: BirthEvent): Result<set<Triple>>
  {
    match FirstNewborn(ev.participants)
    case None => Raised(StopIteration)
    case Some(i) => Ok(BirthGraph(ev, ev.participants[i]))
  }

  /** The graph is built exactly when some participant is a newborn. */
  lemma RaisesOnlyWithoutNewborn(ev: BirthEvent)
    ensures BirthTriples(ev).Raised? <==> forall j :: 0 <= j < |ev.participants| ==> ev.participants[j].role != "newborn"
    ensures BirthTriples(ev).Raised? ==> BirthTriples(ev).error == StopIteration
  {
    var r := FirstNewborn(ev.participants);
    if r.Some? {
      assert ev.participants[r.value].role == "newborn";
    }
  }

  lemma {:induction false} ParentsTriplesMember(parents: seq<Participant>, nb: Participant, t: Triple)
    ensures t in ParentsTriples(parents, nb) <==> exists p :: p in parents && t in ParentTurnTriples(p, nb)
    decreases |parents|
  {
    if parents != [] {
      var init, last := parents[..|parents| - 1], parents[|parents| - 1];
      assert parents == init + [last];
      ParentsTriplesMember(init, nb, t);
      if t in ParentsTriples(init, nb) {
        var p :| p in init && t in ParentTurnTriples(p, nb);
        assert p in parents;
      }
      if exists p :: p in parents && t in ParentTurnTriples(p, nb) {
        var p :| p in parents && t in ParentTurnTriples(p, nb);
        if p != last {
          assert p in init;
        }
      }
    }
  }


  /** A triple of the graph comes from one of the fixed parts, or from one participant whose role is "parent". */
  lemma GraphMember(ev: BirthEvent, nb: Participant, t: Triple)
    ensures t in BirthGraph(ev, nb) <==>
      || t in EventTriples(ev, nb) || t in DateTriples(nb) || t in FamilyTriples(nb) || t in PlaceTriples(ev.location, nb)
      || exists p :: p in ev.participants && p.role == "parent" && t in ParentTurnTriples(p, nb)
  {
    ParentsPartMember(ev.participants, nb, t);
  }

  /** The parents loop adds a triple iff the turn of some participant with role "parent" does. */
  lemma ParentsPartMember(ps: seq<Participant>, nb: Participant, t: Triple)
    ensures t in ParentsTriples(Parents(ps), nb) <==>
      exists p :: p in ps && p.role == "parent" && t in ParentTurnTriples(p, nb)
  {
    ParentsTriplesMember(Parents(ps), nb, t);
  }



  /** The event part types the event and the newborn. */
  lemma TypesInEvent(ev: BirthEvent, nb: Participant, s: Term, cls: string)
    ensures Triple(s, RDF_TYPE, Rico(cls)) in EventTriples(ev, nb) <==>
      (cls == "Event" && s == EventIri(nb)) || (cls == "Person" && s == PersonIri(nb.name))
  {
  }

  /** The date part types the Date node, when the birth date parsed. */
  lemma TypesInDate(nb: Participant, s: Term, cls: string)
    ensures Triple(s, RDF_TYPE, Rico(cls)) in DateTriples(nb) <==>
      cls == "Date" && BirthDate(nb).Some? && s == DateIri(BirthDate(nb).value)
  {
  }

  /** The family part types the Family node. */
  lemma TypesInFamily(nb: Participant, s: Term, cls: string)
    ensures Triple(s, RDF_TYPE, Rico(cls)) in FamilyTriples(nb) <==> cls == "Family" && s == FamilyIri(nb)
  {
  }

  /** The place part types the Place and its PlaceRelation, for a known location. */
  lemma TypesInPlace(loc: Location, nb: Participant, s: Term, cls: string)
    ensures Triple(s, RDF_TYPE, Rico(cls)) in PlaceTriples(loc, nb) <==>
      KnownLocation(loc) && ((cls == "Place" && s == PlaceIri(loc.labelText.value)) || (cls == "PlaceRelation" && s == PlaceRelationIri(nb)))
  {
  }

  /** A parent's turn types the parent as a Person and its FamilyRelation. */
  lemma TypesInParentTurn(parent: Participant, nb: Participant, s: Term, cls: string)
    ensures Triple(s, RDF_TYPE, Rico(cls)) in ParentTurnTriples(parent, nb) <==>
      (cls == "Person" && s == PersonIri(parent.name)) || (cls == "FamilyRelation" && s == FamilyRelationIri(parent, nb))
  {
    assert Triple(s, RDF_TYPE, Rico(cls)) in ParentTriples(parent, nb) <==> cls == "Person" && s == PersonIri(parent.name);
    assert Triple(s, RDF_TYPE, Rico(cls)) in FamilyRelationTriples(parent, nb) <==>
      cls == "FamilyRelation" && s == FamilyRelationIri(parent, nb);
  }

  /** The event part's RiC-O predicates. */
  lemma PredicatesOfEvent(ev: BirthEvent, nb: Participant, s: Term, pred: string, o: Term)
    ensures Triple(s, Rico(pred), o) in EventTriples(ev, nb) ==> pred == "name" || pred == "hasOrHadParticipant"
  {
  }

  /** The date part's RiC-O predicates; the event occurs at the Date node exactly when the birth date parsed. */
  lemma PredicatesOfDate(nb: Participant, s: Term, pred: string, o: Term)
    ensures Triple(s, Rico(pred), o) in DateTriples(nb) ==> pred == "normalizedDateValue" || pred == "occurredAtDate"
    ensures Triple(s, Rico("occurredAtDate"), o) in DateTriples(nb) <==>
      BirthDate(nb).Some? && s == EventIri(nb) && o == DateIri(BirthDate(nb).value)
  {
  }

  /** The family part's RiC-O predicates. */
  lemma PredicatesOfFamily(nb: Participant, s: Term, pred: string, o: Term)
    ensures Triple(s, Rico(pred), o) in FamilyTriples(nb) ==> pred == "name" || pred == "hasOrHadMember"
  {
  }

  /** The place part's RiC-O predicates; the place relation is dated exactly when the birth date parsed. */
  lemma PredicatesOfPlace(loc: Location, nb: Participant, s: Term, pred: string, o: Term)
    ensures Triple(s, Rico(pred), o) in PlaceTriples(loc, nb) ==>
      pred in {"name", "relationHasSource", "relationHasTarget", "placeRelationType", "date"}
    ensures Triple(s, Rico("date"), o) in PlaceTriples(loc, nb) <==>
      KnownLocation(loc) && BirthDate(nb).Some? && s == PlaceRelationIri(nb) && o == DateLit(BirthDate(nb).value)
  {
  }

  /** The parent part's RiC-O predicates; it links the newborn to exactly this parent by hasParent. */
  lemma PredicatesOfParent(parent: Participant, nb: Participant, s: Term, pred: string, o: Term)
    ensures Triple(s, Rico(pred), o) in ParentTriples(parent, nb) ==>
      pred in {"name", "hasChild", "hasParent", "hasOrHadParticipant", "hasOrHadMember"}
    ensures Triple(s, Rico("hasParent"), o) in ParentTriples(parent, nb) <==>
      s == PersonIri(nb.name) && o == PersonIri(parent.name)
  {
  }

  /** The family relation's RiC-O predicates; it is dated exactly when the birth date parsed. */
  lemma PredicatesOfFamilyRelation(parent: Participant, nb: Participant, s: Term, pred: string, o: Term)
    ensures Triple(s, Rico(pred), o) in FamilyRelationTriples(parent, nb) ==>
      pred in {"relationHasSource", "relationHasTarget", "familyRelationType", "hasBeginningDate"}
    ensures Triple(s, Rico("hasBeginningDate"), o) in FamilyRelationTriples(parent, nb) <==>
      BirthDate(nb).Some? && s == FamilyRelationIri(parent, nb) && o == DateLit(BirthDate(nb).value)
  {
  }

  /** A class other than Person and FamilyRelation is typed in the graph exactly when a fixed part types it. */
  lemma TypedOutsideParents(ev: BirthEvent, nb: Participant, s: Term, cls: string)
    requires cls != "Person" && cls != "FamilyRelation"
    ensures Triple(s, RDF_TYPE, Rico(cls)) in BirthGraph(ev, nb) <==>
      || (cls == "Event" && s == EventIri(nb))
      || (cls == "Date" && BirthDate(nb).Some? && s == DateIri(BirthDate(nb).value))
      || (cls == "Family" && s == FamilyIri(nb))
      || (KnownLocation(ev.location) && cls == "Place" && s == PlaceIri(ev.location.labelText.value))
      || (KnownLocation(ev.location) && cls == "PlaceRelation" && s == PlaceRelationIri(nb))
  {
    var t := Triple(s, RDF_TYPE, Rico(cls));
    GraphMember(ev, nb, t);
    TypesInEvent(ev, nb, s, cls);
    TypesInDate(nb, s, cls);
    TypesInFamily(nb, s, cls);
    TypesInPlace(ev.location, nb, s, cls);
    forall p | p in ev.participants && p.role == "parent"
      ensures t !in ParentTurnTriples(p, nb)
    {
      TypesInParentTurn(p, nb, s, cls);
    }
  }

  /** A RiC-O predicate no parent's turn uses is in the graph exactly when a fixed part has it. */
  lemma OutsideParents(ev: BirthEvent, nb: Participant, s: Term, pred: string, o: Term)
    requires pred !in {"name", "hasChild", "hasParent", "hasOrHadParticipant", "hasOrHadMember",
                       "relationHasSource", "relationHasTarget", "familyRelationType", "hasBeginningDate"}
    ensures Triple(s, Rico(pred), o) in BirthGraph(ev, nb) <==>
      Triple(s, Rico(pred), o) in DateTriples(nb) || Triple(s, Rico(pred), o) in PlaceTriples(ev.location, nb)
  {
    var t := Triple(s, Rico(pred), o);
    GraphMember(ev, nb, t);
    PredicatesOfEvent(ev, nb, s, pred, o);
    PredicatesOfFamily(nb, s, pred, o);
    forall p | p in ev.participants && p.role == "parent"
      ensures t !in ParentTurnTriples(p, nb)
    {
      PredicatesOfParent(p, nb, s, pred, o);
      PredicatesOfFamilyRelation(p, nb, s, pred, o);
    }
  }

  /** The Date node exists exactly when the newborn's birth date parses, and is named by the ISO date. */
  lemma DateNodeOnlyWhenParsed(ev: BirthEvent, nb: Participant, s: Term)
    ensures Triple(s, RDF_TYPE, Rico("Date")) in BirthGraph(ev, nb) <==>
      BirthDate(nb).Some? && s == DateIri(BirthDate(nb).value)
  {
    TypedOutsideParents(ev, nb, s, "Date");
  }

  /** The event occurs at a date exactly when the birth date parses, and then at the Date node of that date. */
  lemma OccurredAtDateOnlyWhenParsed(ev: BirthEvent, nb: Participant, s: Term, o: Term)
    ensures Triple(s, Rico("occurredAtDate"), o) in BirthGraph(ev, nb) <==>
      BirthDate(nb).Some? && s == EventIri(nb) && o == DateIri(BirthDate(nb).value)
  {
    OutsideParents(ev, nb, s, "occurredAtDate", o);
    PredicatesOfDate(nb, s, "occurredAtDate", o);
    PredicatesOfPlace(ev.location, nb, s, "occurredAtDate", o);
  }

  /** A Place appears exactly when the label is truthy and not "Unknown Location". */
  lemma PlaceOnlyForKnownLocation(ev: BirthEvent, nb: Participant, s: Term)
    ensures Triple(s, RDF_TYPE, Rico("Place")) in BirthGraph(ev, nb) <==>
      KnownLocation(ev.location) && s == PlaceIri(ev.location.labelText.value)
  {
    TypedOutsideParents(ev, nb, s, "Place");
  }

  /** A birth PlaceRelation appears exactly when the location is known. */
  lemma PlaceRelationOnlyForKnownLocation(ev: BirthEvent, nb: Participant, s: Term)
    ensures Triple(s, RDF_TYPE, Rico("PlaceRelation")) in BirthGraph(ev, nb) <==>
      KnownLocation(ev.location) && s == PlaceRelationIri(nb)
  {
    TypedOutsideParents(ev, nb, s, "PlaceRelation");
  }

  /** The place relation is dated exactly when the location is known and the birth date parses. */
  lemma BirthPlaceDated(ev: BirthEvent, nb: Participant, s: Term, o: Term)
    ensures Triple(s, Rico("date"), o) in BirthGraph(ev, nb) <==>
      KnownLocation(ev.location) && BirthDate(nb).Some? && s == PlaceRelationIri(nb) && o == DateLit(BirthDate(nb).value)
  {
    OutsideParents(ev, nb, s, "date", o);
    PredicatesOfDate(nb, s, "date", o);
    PredicatesOfPlace(ev.location, nb, s, "date", o);
  }

  /** The Family node is always there, named after the newborn and holding the newborn as member. */
  lemma FamilyHasNewborn(ev: BirthEvent, nb: Participant)
    ensures var f, g := FamilyIri(nb), BirthGraph(ev, nb);
      && Triple(f, RDF_TYPE, Rico("Family")) in g
      && Triple(f, Rico("name"), Lit(nb.name + " Family")) in g
      && Triple(f, Rico("hasOrHadMember"), PersonIri(nb.name)) in g
  {
  }

  /** Every participant with role "parent" is a member of the family, linked both ways to the newborn, a participant of the event, and the source of a parent-child FamilyRelation. */
  lemma EveryParentLinked(ev: BirthEvent, nb: Participant, parent: Participant)
    requires parent in ev.participants && parent.role == "parent"
    ensures var p, n, r, g := PersonIri(parent.name), PersonIri(nb.name), FamilyRelationIri(parent, nb), BirthGraph(ev, nb);
      && Triple(p, RDF_TYPE, Rico("Person")) in g
      && Triple(p, Rico("hasChild"), n) in g && Triple(n, Rico("hasParent"), p) in g
      && Triple(EventIri(nb), Rico("hasOrHadParticipant"), p) in g
      && Triple(FamilyIri(nb), Rico("hasOrHadMember"), p) in g
      && Triple(r, RDF_TYPE, Rico("FamilyRelation")) in g
      && Triple(r, Rico("relationHasSource"), p) in g && Triple(r, Rico("relationHasTarget"), n) in g
      && Triple(r, Rico("familyRelationType"), Lit("parent-child")) in g
  {
    forall t | t in ParentTurnTriples(parent, nb)
      ensures t in BirthGraph(ev, nb)
    {
      GraphMember(ev, nb, t);
    }
  }

  /** The newborn has a parent exactly for the participants whose role is "parent". */
  lemma ParentsOnlyByRole(ev: BirthEvent, nb: Participant, s: Term, o: Term)
    ensures Triple(s, Rico("hasParent"), o) in BirthGraph(ev, nb) <==>
      s == PersonIri(nb.name) && exists p :: p in ev.participants && p.role == "parent" && o == PersonIri(p.name)
  {
    var t := Triple(s, Rico("hasParent"), o);
    GraphMember(ev, nb, t);
    PredicatesOfEvent(ev, nb, s, "hasParent", o);
    PredicatesOfDate(nb, s, "hasParent", o);
    PredicatesOfFamily(nb, s, "hasParent", o);
    PredicatesOfPlace(ev.location, nb, s, "hasParent", o);
    if exists p :: p in ev.participants && p.role == "parent" && t in ParentTurnTriples(p, nb) {
      var p :| p in ev.participants && p.role == "parent" && t in ParentTurnTriples(p, nb);
      PredicatesOfParent(p, nb, s, "hasParent", o);
      PredicatesOfFamilyRelation(p, nb, s, "hasParent", o);
      assert s == PersonIri(nb.name) && o == PersonIri(p.name);
    }
    if s == PersonIri(nb.name) && exists p :: p in ev.participants && p.role == "parent" && o == PersonIri(p.name) {
      var p :| p in ev.participants && p.role == "parent" && o == PersonIri(p.name);
      PredicatesOfParent(p, nb, s, "hasParent", o);
      assert t in ParentTurnTriples(p, nb);
    }
  }

  /** A family relation has a beginning date exactly when the birth date parses, and it is that date. */
  lemma FamilyRelationDated(ev: BirthEvent, nb: Participant, s: Term, o: Term)
    ensures Triple(s, Rico("hasBeginningDate"), o) in BirthGraph(ev, nb) <==>
      BirthDate(nb).Some? && o == DateLit(BirthDate(nb).value)
      && exists p :: p in ev.participants && p.role == "parent" && s == FamilyRelationIri(p, nb)
  {
    var t := Triple(s, Rico("hasBeginningDate"), o);
    GraphMember(ev, nb, t);
    PredicatesOfEvent(ev, nb, s, "hasBeginningDate", o);
    PredicatesOfDate(nb, s, "hasBeginningDate", o);
    PredicatesOfFamily(nb, s, "hasBeginningDate", o);
    PredicatesOfPlace(ev.location, nb, s, "hasBeginningDate", o);
    if exists p :: p in ev.participants && p.role == "parent" && t in ParentTurnTriples(p, nb) {
      var p :| p in ev.participants && p.role == "parent" && t in ParentTurnTriples(p, nb);
      PredicatesOfParent(p, nb, s, "hasBeginningDate", o);
      PredicatesOfFamilyRelation(p, nb, s, "hasBeginningDate", o);
      assert BirthDate(nb).Some? && s == FamilyRelationIri(p, nb);
    }
    if BirthDate(nb).Some? && o == DateLit(BirthDate(nb).value)
      && exists p :: p in ev.participants && p.role == "parent" && s == FamilyRelationIri(p, nb)
    {
      var p :| p in ev.participants && p.role == "parent" && s == FamilyRelationIri(p, nb);
      PredicatesOfFamilyRelation(p, nb, s, "hasBeginningDate", o);
      assert t in ParentTurnTriples(p, nb);
    }
  }

  /** `create_birth_graph(event_data, counter)`; the result does not depend on `counter`. */
  method CreateBirthGraph(ev: BirthEvent, counter: nat) returns (r: Result<Graph>)
    ensures r.Raised? ==> BirthTriples(ev) == Raised(r.error)
    ensures r.Ok? ==> fresh(r.value) && BirthTriples(ev) == Ok(r.value.triples)
  {
    var newborn := FirstNewborn(ev.participants);
    if newborn.None? {
      return Raised(StopIteration);
    }
    var nb := ev.participants[newborn.value];
    var parents := Parents(ev.participants);
    var g := new Graph();
    AddEvent(g, ev, nb);
    assert g.triples == EventTriples(ev, nb);
    AddBirthDate(g, nb);
    AddFamily(g, nb);
    AddParents(g, parents, nb);
    AddBirthPlace(g, ev.location, nb);
    assert g.triples == BirthGraph(ev, nb);
    return Ok(g);
  }

  /** The event and the newborn. */
  method AddEvent(g: Graph, ev: BirthEvent, nb: Participant)
    modifies g
    ensures g.triples == old(g.triples) + EventTriples(ev, nb)
  {
    var eventUri, newbornUri := EventIri(nb), PersonIri(nb.name);
    g.Add(eventUri, RDF_TYPE, Rico("Event"));
    g.Add(eventUri, Rico("name"), Lit(ev.description));
    g.Add(newbornUri, RDF_TYPE, Rico("Person"));
    g.Add(newbornUri, Rico("name"), Lit(nb.name));
    g.Add(eventUri, Rico("hasOrHadParticipant"), newbornUri);
  }

  /** The Date node, when the birth date parses. */
  method AddBirthDate(g: Graph, nb: Participant)
    modifies g
    ensures g.triples == old(g.triples) + DateTriples(nb)
  {
    var birthDate := ParseDate(nb.birthDate);
    if Truthy(birthDate) {
      var dateUri := DateIri(birthDate.value);
      g.Add(dateUri, RDF_TYPE, Rico("Date"));
      g.Add(dateUri, Rico("normalizedDateValue"), DateLit(birthDate.value));
      g.Add(EventIri(nb), Rico("occurredAtDate"), dateUri);
    }
  }

  /** The Family node. */
  method AddFamily(g: Graph, nb: Participant)
    modifies g
    ensures g.triples == old(g.triples) + FamilyTriples(nb)
  {
    var familyUri := FamilyIri(nb);
    g.Add(familyUri, RDF_TYPE, Rico("Family"));
    g.Add(familyUri, Rico("name"), Lit(nb.name + " Family"));
    g.Add(familyUri, Rico("hasOrHadMember"), PersonIri(nb.name));
  }

  /** The parents loop. */
  method AddParents(g: Graph, parents: seq<Participant>, nb: Participant)
    modifies g
    ensures g.triples == old(g.triples) + ParentsTriples(parents, nb)
  {
    for i := 0 to |parents|
      invariant g.triples == old(g.triples) + ParentsTriples(parents[..i], nb)
    {
      AddParent(g, parents[i], nb);
      AddFamilyRelation(g, parents[i], nb);
      assert parents[..i + 1][..i] == parents[..i];
    }
    assert parents[..|parents|] == parents;
  }

  /** The parent and its links to the newborn, the event and the family. */
  method AddParent(g: Graph, parent: Participant, nb: Participant)
    modifies g
    ensures g.triples == old(g.triples) + ParentTriples(parent, nb)
  {
    var parentUri, newbornUri := PersonIri(parent.name), PersonIri(nb.name);
    g.Add(parentUri, RDF_TYPE, Rico("Person"));
    g.Add(parentUri, Rico("name"), Lit(parent.name));
    g.Add(parentUri, Rico("hasChild"), newbornUri);
    g.Add(newbornUri, Rico("hasParent"), parentUri);
    g.Add(EventIri(nb), Rico("hasOrHadParticipant"), parentUri);
    g.Add(FamilyIri(nb), Rico("hasOrHadMember"), parentUri);
  }

  /** The parent-child FamilyRelation. */
  method AddFamilyRelation(g: Graph, parent: Participant, nb: Participant)
    modifies g
    ensures g.triples == old(g.triples) + FamilyRelationTriples(parent, nb)
  {
    var relationUri, birthDate := FamilyRelationIri(parent, nb), ParseDate(nb.birthDate);
    g.Add(relationUri, RDF_TYPE, Rico("FamilyRelation"));
    g.Add(relationUri, Rico("relationHasSource"), PersonIri(parent.name));
    g.Add(relationUri, Rico("relationHasTarget"), PersonIri(nb.name));
    g.Add(relationUri, Rico("familyRelationType"), Lit("parent-child"));
    if Truthy(birthDate) {
      g.Add(relationUri, Rico("hasBeginningDate"), DateLit(birthDate.value));
    }
  }

  /** The birth place, for a known location. */
  method AddBirthPlace(g: Graph, loc: Location, nb: Participant)
    modifies g
    ensures g.triples == old(g.triples) + PlaceTriples(loc, nb)
  {
    if Truthy(loc.labelText) && loc.labelText.value != "Unknown Location" {
      var placeUri, placeRelationUri := PlaceIri(loc.labelText.value), PlaceRelationIri(nb);
      var birthDate := ParseDate(nb.birthDate);
      g.Add(placeUri, RDF_TYPE, Rico("Place"));
      g.Add(placeUri, Rico("name"), Lit(loc.labelText.value));
      g.Add(placeRelationUri, RDF_TYPE, Rico("PlaceRelation"));
      g.Add(placeRelationUri, Rico("relationHasSource"), placeUri);
      g.Add(placeRelationUri, Rico("relationHasTarget"), PersonIri(nb.name));
      g.Add(placeRelationUri, Rico("placeRelationType"), Lit("birthPlace"));
      assert g.triples == old(g.triples) + {
        Triple(placeUri, RDF_TYPE, Rico("Place")), Triple(placeUri, Rico("name"), Lit(loc.labelText.value)),
        Triple(placeRelationUri, RDF_TYPE, Rico("PlaceRelation")), Triple(placeRelationUri, Rico("relationHasSource"), placeUri),
        Triple(placeRelationUri, Rico("relationHasTarget"), PersonIri(nb.name)),
        Triple(placeRelationUri, Rico("placeRelationType"), Lit("birthPlace"))};
      if Truthy(birthDate) {
        g.Add(placeRelationUri, Rico("date"), DateLit(birthDate.value));
      }
    }
  }
}
