# RiC-O event converters, modelled in Dafny

The repository turns extracted life events (politics, education, birth, employment, relationships,
death, documents) from JSON into RDF graphs in the Records in Contexts ontology (RiC-O). Every
converter has a slug normaliser (`create_uri_safe_string`), a date normaliser (`parse_date`) and a
graph builder (`create_*_graph`) that walks one event and adds triples to an `rdflib.Graph`. The
evaluation app's `filter_events_by_type` keeps the paragraphs that hold events of one type, and
`create_event_type_files` gathers the event types and files the filtered paragraphs per type.

What is modelled:

- **Graph**: `Rdf.Graph` is a class whose `triples: set<Triple>` field `Add` extends, as
  `g.add` does: a set, so adding a triple twice has no effect. `Term` is an IRI (namespace plus
  local name), a plain literal or an `xsd:date` literal (`DateLit`).
- **Builders**: each builder is a method that adds triple by triple, with loops where the source
  loops. Its `ensures` ties the final graph to a function (`PoliticalSituationTriples`,
  `EducationTriples`, ...) that gives the triple set as a union of parts. The lemmas then state
  which triples that graph holds, and when.
- **Helpers**: each file's slug and date helpers are modelled as that file writes them, because
  the variants differ in:
  - lower-casing;
  - mapping `/` to `_`;
  - mapping `""` to None;
  - passing dashed dates through.

  Where two files hold identical helpers, the later module reuses the earlier one:
  - employment reuses the politics slug and date functions (`Employment.SlugText` over
    `Politics.CreateUriSafeString`, and `Politics.ParseDate`);
  - relations reuses `Birth.ParseDate`;
  - death and documents use `Politics.ParseDate`;
  - documents uses the death slug (`Death.NameSlug`).
- **Python semantics**:
  - `datetime.strptime("%d/%m/%Y")` and `strftime("%Y-%m-%d")` are modelled in `DateTime`,
    with calendar validity and leap years.
  - `str.replace`, ASCII `str.lower`, `str.isdigit`, `str.split` and the substring test `in`
    are modelled in `PyBuiltins`.
  - Truthiness (`Truthy`: present and non-empty) and f-string rendering of None as `"None"`
    (`Show`) are modelled in `PyBuiltins`.
- **Errors**: `next` without a match (StopIteration) and indexing an empty list (IndexError)
  are `Result.Raised`.

Missing optional keys are `Option` fields; required keys, which the code reads with `[...]`, are
plain fields.

Two kinds of relation node are shared by more than one holding:

- **Employment relation node.** The relation id is `{name slug}_{role slug}_{counter}`
  (employment_events/employment_mapping.py:71). So one node serves every organisation of an entry,
  and every entry with the same person and role (`Employment.HoldingTargets`).
- **Education holding relation.** The relation IRI takes the person slug and only the first
  `_`-separated word of the role slug (education_events/education_mapping.py:33-35). So entries
  that share these two share one node (`Education.HoldingRelationShared`).

## Model

| member | source | states |
|---|---|---|
| Politics.CreateUriSafeString | politics_events/politics_mapping.py:10-15 | the slug is None exactly when the text is falsy (None or "") |
| Politics.ReplaceChainChars | politics_events/politics_mapping.py:14-15 | the replacement chain leaves none of space ' , . ( ) / and introduces no character except `_` |
| Politics.SlugChars | politics_events/politics_mapping.py:10-15 | a slug holds no space, ' , . ( ) or / and no upper-case letter |
| Politics.SlugIdempotent | politics_events/politics_mapping.py:10-15 | a non-empty slug is a fixed point; an empty slug (text made only of removed characters) slugs to None |
| Politics.SlugOfRemovedOnly | politics_events/politics_mapping.py:11-15 | ".." slugs to "", and "" and None slug to None |
| Politics.ParseDate | politics_events/politics_mapping.py:17-30 | falsy input gives None; any result contains `-` and no `/`, and is a valid YYYY-MM-DD date or the unchanged dashed input |
| Politics.ParseDateSlashed | politics_events/politics_mapping.py:22-23 | DD/MM/YYYY gives the ISO form of that date when the date exists, and None (the ValueError) otherwise; the ISO text reads back to the same date |
| Politics.ParseDateYear | politics_events/politics_mapping.py:24-25 | a four-digit text YYYY gives YYYY-01-01 |
| Politics.ParseDateIdempotent | politics_events/politics_mapping.py:17-30 | parsing a parsed date returns it unchanged (the dash pass-through) |
| Politics.ParseDateDashed | politics_events/politics_mapping.py:26-27 | any text with `-` and no `/` is returned unchanged, whatever else it holds |
| Politics.ParseDateOther | politics_events/politics_mapping.py:28 | non-empty text with no `/`, no `-`, and not four digits gives None |
| Politics.ParseDateSlashedExample | politics_events/politics_mapping.py:22-23 | "11/06/1984" gives "1984-06-11" |
| Politics.ParseDateOtherExamples | politics_events/politics_mapping.py:19-28 | "1945" gives "1945-01-01", "1984-06-11" passes through, "" gives None |
| Politics.ParticipantsTriplesMember | politics_events/politics_mapping.py:69-93 | the participants loop adds exactly the union of the participants' turns |
| Politics.LocationsTriplesMember | politics_events/politics_mapping.py:96-112 | the locations loop adds exactly the union of the locations' turns |
| Politics.GraphMember | politics_events/politics_mapping.py:32-114 | a triple is in the graph iff the activity adds it, `actions[0]`'s type or date blocks add it, or one participant or location adds it |
| Politics.TypedByParticipantOrLocation | politics_events/politics_mapping.py:69-112 | a node typed with any class but Activity and ActivityType was typed by a participant or a location |
| Politics.NotFromParticipantsOrLocations | politics_events/politics_mapping.py:68-112 | a triple whose predicate no participant or location uses comes from no participant or location |
| Politics.FromActivityOrFirstAction | politics_events/politics_mapping.py:44-66 | such a triple is in the graph iff `actions[0]` exists and its type or date block adds it |
| Politics.ActivityTypePredicates | politics_events/politics_mapping.py:47-52 | the activity-type block only uses type, name and hasActivityType |
| Politics.DateTripleMember | politics_events/politics_mapping.py:56-66 | a date triple is there iff the raw date parses, and carries the parsed date as xsd:date |
| Politics.DatePredicates | politics_events/politics_mapping.py:54-66 | the date block only uses beginningDate and endDate |
| Politics.ParticipantPredicates | politics_events/politics_mapping.py:70-93 | a participant's turn only uses type, name, relationHasSource, relationHasTarget and description |
| Politics.LocationPredicates | politics_events/politics_mapping.py:97-112 | a location's turn only uses the same five predicates |
| Politics.PersonTripleOfParticipant | politics_events/politics_mapping.py:76-77 | a participant types its node Person iff its type is 'person' |
| Politics.CorporateBodyTripleOfParticipant | politics_events/politics_mapping.py:78-79 | a participant types its node CorporateBody iff its type is 'organization' or 'group' |
| Politics.ParticipantTypes | politics_events/politics_mapping.py:75-89 | a participant only types nodes Person, CorporateBody or PerformanceRelation |
| Politics.DescriptionOfParticipant | politics_events/politics_mapping.py:92-93 | a participant's performance relation is described by x iff its role is x |
| Politics.DescriptionOfLocation | politics_events/politics_mapping.py:104-105 | a location describes its place by x iff its label is truthy and its description is the truthy x |
| Politics.PlaceTripleOfLocation | politics_events/politics_mapping.py:98-101 | a location types a Place iff its label is truthy, at `place_{slug}` |
| Politics.LocationTypes | politics_events/politics_mapping.py:98-112 | a location only types nodes Place or PlaceRelation |
| Politics.NoActionOnlyActivity | politics_events/politics_mapping.py:38-45 | without a non-empty `actions` the graph is exactly the activity's type and name |
| Politics.OnlyFirstActionRead | politics_events/politics_mapping.py:45-46 | dropping every action after `actions[0]` leaves the graph unchanged |
| Politics.ActivityAlwaysPresent | politics_events/politics_mapping.py:39-42 | the activity `activity_{slug}_{counter}` is always typed Activity and named by the description |
| Politics.ActivityTypeOnlyWithActionKey | politics_events/politics_mapping.py:47-52 | hasActivityType links the activity to `activity_type_{slug}` iff `actions[0]` has an `action` key |
| Politics.BeginningDateOnlyWhenParsed | politics_events/politics_mapping.py:55-60 | beginningDate is present iff `actions[0]` has a date whose startDate parses, and is the parsed date |
| Politics.EndDateOnlyWhenParsed | politics_events/politics_mapping.py:62-66 | endDate is present iff the endDate parses, and is the parsed date |
| Politics.EveryParticipantPerforms | politics_events/politics_mapping.py:69-89 | every participant is named and has a PerformanceRelation `{participant}_{activity}_{counter}` from the activity to it |
| Politics.PersonOnlyForPersonType | politics_events/politics_mapping.py:76-77 | a node is a Person iff some participant of type 'person' has that IRI |
| Politics.CorporateBodyOnlyForGroups | politics_events/politics_mapping.py:78-79 | a node is a CorporateBody iff some participant of type 'organization' or 'group' has that IRI |
| Politics.DescriptionsFromRolesAndPlaces | politics_events/politics_mapping.py:92-105 | descriptions are exactly the participants' roles and the truthy descriptions of labelled locations |
| Politics.PlacesOnlyForLabels | politics_events/politics_mapping.py:96-102 | a node is a Place iff some location with a truthy label names it; unlabelled locations add nothing |
| Politics.CreatePoliticalSituationGraph | politics_events/politics_mapping.py:32-114 | the graph built by adding triples step by step is PoliticalSituationTriples |
| Politics.PoliticalSituationTriples | politics_events/politics_mapping.py:32-114 | the reference graph: the activity part, plus the parts of `actions[0]` when there is one; its content is stated by GraphMember and the lemmas after it |
| Politics.AddParticipants | politics_events/politics_mapping.py:69-93 | the loop adds the union of the participants' turns |
| Politics.AddLocations | politics_events/politics_mapping.py:96-112 | the loop adds the union of the locations' turns |
| Politics.AddActivityType | politics_events/politics_mapping.py:47-52 | adds the activity-type block and nothing else |
| Politics.AddDates | politics_events/politics_mapping.py:54-66 | adds the date block and nothing else |
| Politics.AddParticipant | politics_events/politics_mapping.py:70-93 | adds one participant's turn |
| Politics.AddAgent | politics_events/politics_mapping.py:72-82 | adds the participant's type and name, returning its IRI |
| Politics.AddPerformance | politics_events/politics_mapping.py:84-93 | adds the performance relation |
| Politics.AddLocation | politics_events/politics_mapping.py:97-112 | adds one location's turn |
| Politics.AddPlace | politics_events/politics_mapping.py:99-105 | adds the place node and returns its IRI |
| Politics.AddPlaceRelation | politics_events/politics_mapping.py:107-112 | adds the PlaceRelation from the place to the activity |
| Education.CreateUriSafeString | education_events/education_mapping.py:10-15 | the slug is None exactly when the text is falsy |
| Education.SlugChars | education_events/education_mapping.py:10-15 | a slug holds no space, ' , . ( ) or / and no upper-case letter |
| Education.SlugAgreesWithPolitics | education_events/education_mapping.py:13-15 | lower-casing first gives the same slug as lower-casing last |
| Education.SlugIdempotent | education_events/education_mapping.py:10-15 | a non-empty slug is a fixed point |
| Education.ParseDate | education_events/education_mapping.py:17-29 | falsy input gives None; a result contains `-`, no `/`, and is a valid date or the dashed input |
| Education.ParseDateSlashed | education_events/education_mapping.py:21-22 | DD/MM/YYYY gives the ISO date when it exists, None otherwise |
| Education.ParseDateYear | education_events/education_mapping.py:23-24 | YYYY gives YYYY-01-01 |
| Education.ParseDateIdempotent | education_events/education_mapping.py:17-29 | parsing a parsed date returns it unchanged |
| Education.ParseDateDashed | education_events/education_mapping.py:25-26 | any text with `-` and no `/` is returned unchanged |
| Education.ParseDateOther | education_events/education_mapping.py:27 | non-empty text with no `/`, no `-`, and not four digits gives None |
| Education.AddOrderedPositionHoldingRelation | education_events/education_mapping.py:31-46 | adds the holding relation's type, truthy dates, source and target, and returns its IRI |
| Education.AddTeachingRelation | education_events/education_mapping.py:48-59 | adds the teaching relation's type, source and target, and returns its IRI |
| Education.ShowSlugNoSlash | education_events/education_mapping.py:72 | a person slug, or "None", holds no slash, so `split('/')[-1]` recovers it |
| Education.LastSegmentAfterSlash | education_events/education_mapping.py:33 | the last `/`-part of an IRI ending in `/` plus a slash-free text is that text |
| Education.PersonLastSegment | education_events/education_mapping.py:33 | the last segment of a person IRI is the person's slug |
| Education.PositionLastSegment | education_events/education_mapping.py:34 | the last segment of a position IRI is `{role slug}_{institution slug}` |
| Education.HoldingRelationIriFormula | education_events/education_mapping.py:33-35 | the holding-relation IRI is `positionHoldingRelation/{person slug}_{first '_'-word of the role slug}_{counter}` |
| Education.HoldingRelationShared | education_events/education_mapping.py:33-35 | entries with the same person slug and leading role word share one relation node, whatever the institution |
| Education.TeachingRelationIriFormula | education_events/education_mapping.py:50-52 | the teaching-relation IRI is `TeachingRelation/{teacher slug}_{student slug}`, with no counter |
| Education.CreateEducationGraph | education_events/education_mapping.py:61-113 | the graph built by the two loops is EducationTriples |
| Education.EducationTriples | education_events/education_mapping.py:61-113 | the reference graph: the turns of the first loop plus the teaching triples of the second; its content is stated by GraphMember and the lemmas after it |
| Education.AddFirstPass | education_events/education_mapping.py:70-106 | the first loop adds FirstPass and collects exactly the teacher-student pairs |
| Education.AddFirstPassEntry | education_events/education_mapping.py:71-106 | one turn keeps graph, `created_positions` keys and pairs equal to their specification after the turn |
| Education.FirstPassStep | education_events/education_mapping.py:76-99 | a turn adds the entry's triples, and the Position's only if it is not yet in `created_positions` |
| Education.CreatedStep | education_events/education_mapping.py:90-94 | `created_positions` grows by the entry's Position exactly when the institution name is truthy |
| Education.NewPositionIffFirstHolder | education_events/education_mapping.py:90 | the test `position_uri not in created_positions` holds iff the entry is the first to hold that Position |
| Education.AddEntry | education_events/education_mapping.py:71-99 | adds the entry's triples and, for a new Position, the Position's; records the Position |
| Education.AddPerson | education_events/education_mapping.py:72-74 | adds the person's type and name |
| Education.AddHolding | education_events/education_mapping.py:76-99 | adds the institution, the Position once and the holding relation with the parsed dates |
| Education.AddInstitution | education_events/education_mapping.py:77-84 | adds the CorporateBody, its name and its truthy type |
| Education.AddPositionOnce | education_events/education_mapping.py:87-94 | adds the Position's type, name and institution only when it is not yet recorded |
| Education.CollectStudents | education_events/education_mapping.py:103-106 | appends one pair per student entry of the teacher's institution |
| Education.AddTeachingRelations | education_events/education_mapping.py:109-111 | the second loop adds the teaching triples of every pair |
| Education.PairsTriplesStep | education_events/education_mapping.py:109-111 | one more turn of the second loop adds exactly the teaching triples of one more pair |
| Education.AddPair | education_events/education_mapping.py:110-111 | one turn rebuilds the student IRI from the slug and adds that pair's teaching triples |
| Education.FirstPassMember | education_events/education_mapping.py:70-106 | the first pass is the union of its turns |
| Education.StudentsOfMember | education_events/education_mapping.py:103-106 | a teacher collects exactly one pair per student entry with an identical institution name |
| Education.PairsMember | education_events/education_mapping.py:102-106 | the pairs are exactly (teacher person, student slug) for teacher/professor entries and student entries of one institution |
| Education.StudentIriIsPerson | education_events/education_mapping.py:110 | the student IRI rebuilt from a slug is the student's person node |
| Education.StudentsOfStep | education_events/education_mapping.py:103-106 | scanning one more entry appends at most that entry's teacher-student pair |
| Education.PairsTriplesMember | education_events/education_mapping.py:109-111 | a triple comes from the second loop iff one collected pair adds it |
| Education.TurnTypes | education_events/education_mapping.py:70-99 | whatever a first-loop turn types belongs to an existing entry and is one of that entry's typed nodes |
| Education.SecondPassSound | education_events/education_mapping.py:109-111 | every teaching triple comes from a teacher entry and a student entry of one institution |
| Education.SecondPassComplete | education_events/education_mapping.py:109-111 | every such teacher and student get their teaching triples |
| Education.SecondPassMember | education_events/education_mapping.py:102-111 | the second pass adds teaching triples exactly for those pairs |
| Education.GraphMember | education_events/education_mapping.py:61-113 | a triple is in the graph iff one first-loop turn adds it or one teacher-student pair does |
| Education.FirstHolderExists | education_events/education_mapping.py:90-94 | every held Position has a first holder at or before each holder |
| Education.FirstHolderUnique | education_events/education_mapping.py:90-94 | a Position has one first holder |
| Education.HoldingShape | education_events/education_mapping.py:38-44 | a holding relation's triples are its type, its truthy dates, its source person and its target Position |
| Education.EntryTypes | education_events/education_mapping.py:73-81 | an entry types only its Person, its institution and its holding relation |
| Education.TeachingShape | education_events/education_mapping.py:55-57 | a teaching relation's triples are its type, its teacher source and its student target |
| Education.FromTurn | education_events/education_mapping.py:70-99 | a triple no teaching relation could add comes from one first-loop turn |
| Education.TypedByTurn | education_events/education_mapping.py:70-99 | a node typed as anything but TeachingRelation was typed by a first-loop turn |
| Education.TypedInGraph | education_events/education_mapping.py:70-99 | whatever a first-loop turn types is typed in the graph |
| Education.TurnInGraph | education_events/education_mapping.py:70-99 | a first-loop turn's triples are in the graph |
| Education.EveryEntryHasPerson | education_events/education_mapping.py:72-74 | every entry asserts its Person and its name |
| Education.PersonTyped | education_events/education_mapping.py:72-74 | a node is a Person iff it is some entry's person node |
| Education.CorporateBodyTyped | education_events/education_mapping.py:76-81 | a node is a CorporateBody iff it is the institution of an entry with a truthy institution name |
| Education.PositionTyped | education_events/education_mapping.py:87-93 | a node is a Position iff some entry holds it |
| Education.HoldingRelationTyped | education_events/education_mapping.py:96-99 | a node is a PositionHoldingRelation iff it is the relation of an entry with a truthy institution name |
| Education.HoldingInGraph | education_events/education_mapping.py:96-99 | such an entry's relation, with source person and target Position, is entirely in the graph |
| Education.TeachingTypedByPair | education_events/education_mapping.py:102-111 | every TeachingRelation node was minted for a teacher and a student of one institution |
| Education.TeachingRelationTyped | education_events/education_mapping.py:102-111 | a node is a TeachingRelation iff it relates a teacher/professor entry to a student entry with the same institution name |
| Education.EntryNames | education_events/education_mapping.py:74-82 | an entry names its person and its institution by their raw names |
| Education.TurnNames | education_events/education_mapping.py:74-92 | a turn's names are its person's, its institution's, and its Position's raw role when it is the first holder |
| Education.PositionIriDistinct | education_events/education_mapping.py:72-88 | Position, person and institution IRIs never coincide |
| Education.PositionNamedByFirstHolder | education_events/education_mapping.py:88-94 | a Position's only name is the raw role of its first holder |
| Education.TurnDates | education_events/education_mapping.py:97-99 | a turn's date triple dates its holding relation with its parsed date |
| Education.EntryDates | education_events/education_mapping.py:39-99 | of an entry's triples only its holding relation's carry dates |
| Education.NoDatesOutsideHolding | education_events/education_mapping.py:72-94 | person, institution and Position triples carry no dates |
| Education.HoldingDated | education_events/education_mapping.py:39-99 | a relation has a beginningDate (endingDate) iff its entry's period has a start (end) date that parses, and it is that date |
| Education.PeriodDateTruthy | education_events/education_mapping.py:39-42 | a parsed date is non-empty, so `if start_date:` passes exactly when it parsed |
| Education.HoldingHasDate | education_events/education_mapping.py:39-42 | a truthy date gives the relation its date triple |
| Birth.SlugChars | birth_events/birth_mapping.py:11-13 | a slug holds no space, ' , . ( ), keeps every other character of the text, and adds only `_` |
| Birth.CreateUriSafeString | birth_events/birth_mapping.py:11-13 | the six `.replace` calls in order, with no None guard and no lower-casing; its characters are stated by SlugChars and SlugKeepsOtherText |
| Birth.SlugKeepsOtherText | birth_events/birth_mapping.py:11-13 | a text without those characters is its own slug: case and `/` are kept |
| Birth.SlugIdempotent | birth_events/birth_mapping.py:11-13 | slugging twice is slugging once, on every text |
| Birth.ParseDate | birth_events/birth_mapping.py:15-26 | falsy input gives None; every result is a valid YYYY-MM-DD date |
| Birth.ParseDateSlashed | birth_events/birth_mapping.py:20-21 | DD/MM/YYYY gives the ISO date when it exists, None otherwise |
| Birth.ParseDateYear | birth_events/birth_mapping.py:22-23 | YYYY gives YYYY-01-01 |
| Birth.ParseDateRejectsItsOutput | birth_events/birth_mapping.py:15-26 | with no dash pass-through, a parsed date fed back in gives None |
| Birth.ParseDateDashedExample | birth_events/birth_mapping.py:15-26 | "1984-06-11" gives None |
| Birth.ParseDateOther | birth_events/birth_mapping.py:24 | non-empty text with no `/` that is not four digits gives None, dashed dates included |
| Birth.FirstNewborn | birth_events/birth_mapping.py:34 | the newborn is the first participant with role "newborn"; None when there is none |
| Birth.Parents | birth_events/birth_mapping.py:35 | the parents are exactly the participants with role "parent" |
| Birth.RaisesOnlyWithoutNewborn | birth_events/birth_mapping.py:34 | the builder raises StopIteration iff no participant is a newborn |
| Birth.ParentsTriplesMember | birth_events/birth_mapping.py:64-80 | the parents loop adds a triple iff one parent's turn adds it |
| Birth.GraphMember | birth_events/birth_mapping.py:28-97 | a triple is in the graph iff a fixed part adds it or the turn of a participant with role "parent" does |
| Birth.ParentsPartMember | birth_events/birth_mapping.py:35-80 | the parents loop adds a triple iff the turn of some participant with role "parent" does |
| Birth.TypesInEvent | birth_events/birth_mapping.py:44-50 | the event part types exactly the Event and the newborn Person |
| Birth.TypesInDate | birth_events/birth_mapping.py:53-54 | the date part types a Date `date/{iso}` iff the birth date parses |
| Birth.TypesInFamily | birth_events/birth_mapping.py:59-60 | the family part types exactly the Family `{newborn}_Family` |
| Birth.TypesInPlace | birth_events/birth_mapping.py:83-90 | the place part types Place and PlaceRelation iff the location is known |
| Birth.TypesInParentTurn | birth_events/birth_mapping.py:65-75 | a parent's turn types the parent Person and its FamilyRelation |
| Birth.PredicatesOfEvent | birth_events/birth_mapping.py:44-50 | the event part only uses name and hasOrHadParticipant |
| Birth.PredicatesOfDate | birth_events/birth_mapping.py:53-56 | the date part's predicates; occurredAtDate iff the date parses |
| Birth.PredicatesOfFamily | birth_events/birth_mapping.py:59-62 | the family part only uses name and hasOrHadMember |
| Birth.PredicatesOfPlace | birth_events/birth_mapping.py:83-95 | the place part's predicates; the place relation's date iff the location is known and the date parses |
| Birth.PredicatesOfParent | birth_events/birth_mapping.py:65-71 | a parent's predicates; hasParent links the newborn to exactly this parent |
| Birth.PredicatesOfFamilyRelation | birth_events/birth_mapping.py:74-80 | the family relation's predicates; hasBeginningDate iff the date parses |
| Birth.TypedOutsideParents | birth_events/birth_mapping.py:44-95 | classes other than Person and FamilyRelation are typed exactly by the fixed parts |
| Birth.OutsideParents | birth_events/birth_mapping.py:53-95 | a predicate no parent uses comes exactly from the date and place parts |
| Birth.DateNodeOnlyWhenParsed | birth_events/birth_mapping.py:41-54 | the Date node exists iff the birth date parses, and is `date/{iso}` |
| Birth.OccurredAtDateOnlyWhenParsed | birth_events/birth_mapping.py:53-56 | the event occurs at the Date node iff the birth date parses |
| Birth.PlaceOnlyForKnownLocation | birth_events/birth_mapping.py:83-86 | a Place appears iff the label is truthy and not "Unknown Location" |
| Birth.PlaceRelationOnlyForKnownLocation | birth_events/birth_mapping.py:88-93 | the birth PlaceRelation appears iff the location is known |
| Birth.BirthPlaceDated | birth_events/birth_mapping.py:94-95 | the place relation is dated iff the location is known and the date parses |
| Birth.FamilyHasNewborn | birth_events/birth_mapping.py:59-62 | the Family always exists, named "{newborn} Family", with the newborn as member |
| Birth.EveryParentLinked | birth_events/birth_mapping.py:64-78 | every parent is a member, linked both ways to the newborn, a participant, and the source of a "parent-child" FamilyRelation |
| Birth.ParentsOnlyByRole | birth_events/birth_mapping.py:64-69 | the newborn has a parent exactly for the participants with role "parent" |
| Birth.FamilyRelationDated | birth_events/birth_mapping.py:79-80 | a family relation has hasBeginningDate iff the date parses, and it is that date |
| Birth.CreateBirthGraph | birth_events/birth_mapping.py:28-97 | the built graph is BirthTriples, or the same StopIteration; the counter is not read |
| Birth.BirthTriples | birth_events/birth_mapping.py:28-97 | the reference graph: StopIteration without a newborn, otherwise the fixed parts and the parent turns; stated by RaisesOnlyWithoutNewborn and GraphMember |
| Birth.AddEvent | birth_events/birth_mapping.py:44-50 | adds the event part |
| Birth.AddBirthDate | birth_events/birth_mapping.py:53-56 | adds the date part |
| Birth.AddFamily | birth_events/birth_mapping.py:59-62 | adds the family part |
| Birth.AddParents | birth_events/birth_mapping.py:64-80 | the loop adds every parent's turn |
| Birth.AddParent | birth_events/birth_mapping.py:65-71 | adds a parent and its links |
| Birth.AddFamilyRelation | birth_events/birth_mapping.py:74-80 | adds the FamilyRelation |
| Birth.AddBirthPlace | birth_events/birth_mapping.py:83-95 | adds the place part |
| Employment.EntryJobs | employment_events/employment_mapping.py:47 | the inner loop has one turn per organisation, in order |
| Employment.JobAt | employment_events/employment_mapping.py:38-47 | turn j of entry i is at a fixed place in the flattened turn sequence |
| Employment.JobStartStep | employment_events/employment_mapping.py:38-47 | each entry contributes as many turns as organisations |
| Employment.JobsMember | employment_events/employment_mapping.py:38-47 | a turn pairs an entry with one of its organisations, and every such pair is a turn |
| Employment.NewPositionIffFirstUse | employment_events/employment_mapping.py:55 | `position_id not in created_positions` holds iff the turn is the first to use that id |
| Employment.CreatedStep | employment_events/employment_mapping.py:55-62 | `created_positions` grows by exactly the turn's id |
| Employment.JobsStep | employment_events/employment_mapping.py:47-96 | turn k adds its triples, the Position's only when the id is new |
| Employment.PersonsStep | employment_events/employment_mapping.py:40-44 | each entry adds its person's triples |
| Employment.FirstUseExists | employment_events/employment_mapping.py:55-60 | each id used has a first use |
| Employment.FirstUseUnique | employment_events/employment_mapping.py:55-60 | an id has one first use |
| Employment.GraphMember | employment_events/employment_mapping.py:30-98 | a triple is in the graph iff an entry's person part or one inner turn adds it |
| Employment.PersonsPartMember | employment_events/employment_mapping.py:38-44 | a person triple is in the graph iff one entry's person part adds it |
| Employment.JobsPartMember | employment_events/employment_mapping.py:47-96 | an inner-loop triple is in the graph iff one turn adds it |
| Employment.JobInGraph | employment_events/employment_mapping.py:47-96 | a turn's triples are in the graph |
| Employment.FromJob | employment_events/employment_mapping.py:47-96 | a triple other than type and name comes from an inner turn |
| Employment.CreateEmploymentGraph | employment_events/employment_mapping.py:30-98 | the graph built by the nested loops is EmploymentTriples |
| Employment.EmploymentTriples | employment_events/employment_mapping.py:30-98 | the reference graph: every entry's person part plus every inner turn; stated by GraphMember and the lemmas after it |
| Employment.JobsLayout | employment_events/employment_mapping.py:38-47 | the turns of entry i start at JobStart(i) and all turns are covered |
| Employment.AddEntries | employment_events/employment_mapping.py:38-96 | the outer loop adds every person part and every turn |
| Employment.AddEntry | employment_events/employment_mapping.py:39-96 | one outer turn keeps the graph and `created_positions` equal to their specification |
| Employment.AddEntryJobs | employment_events/employment_mapping.py:47-96 | the inner loop adds the entry's turns and records their ids |
| Employment.AddTurn | employment_events/employment_mapping.py:47-96 | one inner turn adds its triples and records its id |
| Employment.AddPerson | employment_events/employment_mapping.py:40-44 | adds the person's type and name |
| Employment.AddJob | employment_events/employment_mapping.py:49-96 | adds the turn's triples, the Position's only for a new id, and records the id |
| Employment.AddPosition | employment_events/employment_mapping.py:56-59 | adds the Position's type, name and organisation |
| Employment.AddOrg | employment_events/employment_mapping.py:65-68 | adds the organisation and its truthy type |
| Employment.AddRelation | employment_events/employment_mapping.py:71-75 | adds the holding relation's type, source and target |
| Employment.AddDates | employment_events/employment_mapping.py:78-86 | adds the parsed dates |
| Employment.AddPlace | employment_events/employment_mapping.py:89-96 | adds the place for a truthy location label |
| Employment.PositionShape | employment_events/employment_mapping.py:56-59 | the Position part is its type, its raw role name and its organisation |
| Employment.OrgShape | employment_events/employment_mapping.py:65-68 | the organisation part is its type, name and truthy type literal |
| Employment.RelationShape | employment_events/employment_mapping.py:71-75 | the relation part is its type, the person source and the Position target |
| Employment.PlaceShape | employment_events/employment_mapping.py:89-96 | the place part exists only with a location label: place, name, description, org isLocatedAt place |
| Employment.JobParts | employment_events/employment_mapping.py:55-96 | a turn's triples are exactly its parts |
| Employment.JobTypes | employment_events/employment_mapping.py:57-91 | what a turn types |
| Employment.JobNames | employment_events/employment_mapping.py:58-92 | what a turn names |
| Employment.JobLinks | employment_events/employment_mapping.py:59-93 | the links a turn adds, predicate by predicate |
| Employment.DateShape | employment_events/employment_mapping.py:78-86 | the date part is exactly the parsed start and end dates on the relation |
| Employment.EntryOfJob | employment_events/employment_mapping.py:38-47 | every turn pairs an entry with one of its organisations |
| Employment.JobOfEntry | employment_events/employment_mapping.py:38-47 | every organisation of every entry has a turn |
| Employment.PositionIriInjective | employment_events/employment_mapping.py:56-62 | equal Position IRIs mean equal Position ids |
| Employment.PositionIriDistinct | employment_events/employment_mapping.py:40-90 | a Position IRI is no person's, organisation's or place's |
| Employment.PersonTyped | employment_events/employment_mapping.py:40-44 | a node is a Person iff it is some entry's person |
| Employment.PositionTyped | employment_events/employment_mapping.py:52-62 | a node is a Position iff it is the Position of some entry's role at one of its organisations |
| Employment.PositionOfEveryOrg | employment_events/employment_mapping.py:52-62 | every (role, organisation) Position is typed, by its turn or an earlier one |
| Employment.PositionNamedByFirstUse | employment_events/employment_mapping.py:55-60 | a Position's only name is the raw role of the first turn using its id |
| Employment.NameFromTurn | employment_events/employment_mapping.py:55-60 | any turn's name on that Position is that role |
| Employment.PositionInOrgOfFirstUse | employment_events/employment_mapping.py:55-60 | a Position exists only in the organisation of its first use |
| Employment.EntryTurnInGraph | employment_events/employment_mapping.py:64-96 | the organisation, relation, date and place triples of any entry and organisation are in the graph |
| Employment.FromEntryTurn | employment_events/employment_mapping.py:47-96 | a triple other than type and name comes from a turn on some entry and organisation |
| Employment.CorporateBodyTypeOnlyWhenTruthy | employment_events/employment_mapping.py:67-68 | corporateBodyType is present iff some organisation's type is truthy, and is that type |
| Employment.HoldingTargets | employment_events/employment_mapping.py:71-75 | the relation `{name}_{role}_{counter}` targets the Position of every organisation of every entry mapping to it, and nothing else |
| Employment.HoldingSource | employment_events/employment_mapping.py:73-74 | a relation's source is the person of an entry with at least one organisation, and nothing else is |
| Employment.DateFromEntry | employment_events/employment_mapping.py:78-86 | a date triple is a parsed date of an entry with an organisation |
| Employment.BeginningDateOnlyWhenParsed | employment_events/employment_mapping.py:78-81 | beginningDate is present iff an entry with an organisation has a startDate that parses, and is that date |
| Employment.EndDateOnlyWhenParsed | employment_events/employment_mapping.py:83-86 | endDate is present iff an entry with an organisation has an endDate that parses, and is that date |
| Employment.LocatedAtOnlyWithLabel | employment_events/employment_mapping.py:89-93 | an organisation isLocatedAt a place iff some entry working for it has that truthy location label |
| Employment.PlaceTyped | employment_events/employment_mapping.py:89-91 | a Place exists iff an entry with an organisation has that truthy location label |
| Employment.PlaceFromEntry | employment_events/employment_mapping.py:88-91 | a Place in the graph is the location label of an entry with at least one organisation |
| Relations.SlugChars | relations_events/relation_mapping.py:11-13 | a slug holds no space, ' , or ., keeps every other character, adds only `_` |
| Relations.CreateUriSafeString | relations_events/relation_mapping.py:11-13 | the four `.replace` calls in order, with no None guard and no lower-casing; its characters are stated by SlugChars and SlugKeepsOtherText |
| Relations.SlugKeepsOtherText | relations_events/relation_mapping.py:11-13 | a text without those characters is its own slug: case, parentheses and `/` are kept |
| Relations.SlugIdempotent | relations_events/relation_mapping.py:11-13 | slugging twice is slugging once |
| Relations.RaisesOnlyWithoutParty | relations_events/relation_mapping.py:39-41 | the builder raises IndexError iff there is no relation or the first has no party |
| Relations.OnlyFirstPartiesRead | relations_events/relation_mapping.py:39-41 | dropping every relation but the first and every party but its first leaves the graph unchanged |
| Relations.IrisDistinct | relations_events/relation_mapping.py:44-85 | relation, person and place IRIs never coincide |
| Relations.GraphMember | relations_events/relation_mapping.py:30-94 | a triple is in the graph iff one of its parts adds it |
| Relations.PersonsTyped | relations_events/relation_mapping.py:49-54 | exactly the two persons are typed Person |
| Relations.ConnectsBothPersons | relations_events/relation_mapping.py:58-60 | the relation `relation_{counter}` connects exactly the two persons |
| Relations.PersonsPointBack | relations_events/relation_mapping.py:51-55 | exactly the two persons point back at the relation |
| Relations.TypeByRole | relations_events/relation_mapping.py:63-72 | husband/wife give "marriage", partner "romantic relation", political ally "political alliance", any other role no type |
| Relations.RelationType | relations_events/relation_mapping.py:63-69 | a type exists exactly for husband, wife, partner and political ally, and is then truthy, so the `if rel_type:` test is the same as having one |
| Relations.TypeTriplesByRole | relations_events/relation_mapping.py:63-72 | the type triple added for a role, case by case; no other role adds one |
| Relations.BeginningDateOnlyWhenParsed | relations_events/relation_mapping.py:78-79 | beginningDate is present iff the start date is truthy, and is that date |
| Relations.EndDateOnlyWhenDifferent | relations_events/relation_mapping.py:80-81 | endDate is present iff the end date is truthy and differs from the start date |
| Relations.NeverEndsWhenItBegins | relations_events/relation_mapping.py:78-81 | no date is both the beginning and the end |
| Relations.ParsedDateTruthy | relations_events/relation_mapping.py:15-28 | a date parse_date returns is non-empty |
| Relations.EventDates | relations_events/relation_mapping.py:75-81 | on the built graph: beginningDate iff startDate parses; endDate iff endDate parses to a different date |
| Relations.PlaceOnlyWithLabel | relations_events/relation_mapping.py:84-86 | a Place appears iff the location label is truthy |
| Relations.LocationBothWays | relations_events/relation_mapping.py:88-89 | hasOrHadLocation holds iff its inverse isOrWasLocationOf holds, and only for a truthy label |
| Relations.RelationNamedByDescription | relations_events/relation_mapping.py:92 | the relation's only name is the event description |
| Relations.CreateRelationshipGraph | relations_events/relation_mapping.py:30-94 | the built graph is RelationshipTriples, or the same IndexError |
| Relations.RelationshipTriples | relations_events/relation_mapping.py:30-94 | the reference graph: IndexError without a first relation or party, otherwise the graph of the first ones; stated by RaisesOnlyWithoutParty and GraphMember |
| Relations.AddPerson | relations_events/relation_mapping.py:49-55 | adds a person's type, name and link to the relation |
| Relations.AddConnection | relations_events/relation_mapping.py:58-60 | adds the relation's type and both connections |
| Relations.AddRelationType | relations_events/relation_mapping.py:63-72 | adds the role's relation type |
| Relations.AddDates | relations_events/relation_mapping.py:75-81 | adds the parsed dates |
| Relations.AddPlace | relations_events/relation_mapping.py:84-89 | adds the place for a truthy label |
| Death.CreateUriSafeString | death_events/death_mapping.py:11-17 | the slug is None exactly when the text is None: there is no falsiness test, so "" is slugged |
| Death.SlugChars | death_events/death_mapping.py:14-16 | a slug holds no space, ' , . ( ) or / and no upper-case letter |
| Death.SlugIdempotent | death_events/death_mapping.py:11-17 | slugging twice is slugging once, on every input |
| Death.SlugAgreesWithEducation | death_events/death_mapping.py:11-17 | it agrees with the education slug on every input except "" |
| Death.GraphMember | death_events/death_mapping.py:41-83 | a triple is in the graph iff some participant's turn adds it |
| Death.PersonShape | death_events/death_mapping.py:43-47 | the person part is its type and name |
| Death.DateShape | death_events/death_mapping.py:50-53 | the date part is the deathDate iff the parsed date is truthy |
| Death.PlaceShape | death_events/death_mapping.py:56-64 | the place part exists only for a labelled location: place, name, hasDeathPlace, optional description |
| Death.EventShape | death_events/death_mapping.py:67-83 | the event part is its type, "Death of {name}", its descriptions and its participant |
| Death.TurnTypes | death_events/death_mapping.py:46-68 | a turn types exactly the Person, the Event and, for a labelled location, the Place |
| Death.TurnDeathDate | death_events/death_mapping.py:50-53 | a turn's deathDate is the truthy parsed date |
| Death.TurnDeathPlace | death_events/death_mapping.py:56-60 | a turn's hasDeathPlace iff the location is labelled |
| Death.TurnDescriptions | death_events/death_mapping.py:73-80 | a turn's descriptions are exactly the truthy event description and "Cause of death: {reason}" |
| Death.EveryParticipantRecorded | death_events/death_mapping.py:41-83 | every participant is a named Person in an Event `death_{slug}_{counter}` named "Death of {name}" |
| Death.EventTyped | death_events/death_mapping.py:67-68 | exactly the participants' death events are typed Event |
| Death.PersonTyped | death_events/death_mapping.py:43-46 | exactly the participants are typed Person |
| Death.DeathDateOnlyWhenParsed | death_events/death_mapping.py:50-53 | a deathDate is present iff some participant's date parses, and is that date |
| Death.DeathDateParsed | death_events/death_mapping.py:50-52 | the guarded parse is truthy iff the raw date parses |
| Death.PlaceTyped | death_events/death_mapping.py:56-58 | a Place exists iff some participant's death location is labelled with it |
| Death.DeathPlaceOnlyWithLabel | death_events/death_mapping.py:56-60 | hasDeathPlace holds iff a participant has that labelled death location |
| Death.DescriptionsOnlyWhenPresent | death_events/death_mapping.py:73-80 | descriptions are exactly those the participants' turns add |
| Death.CreateDeathGraph | death_events/death_mapping.py:34-85 | the graph built by the participants loop is DeathTriples |
| Death.DeathTriples | death_events/death_mapping.py:41-83 | the reference graph: the union of the participants' turns; stated by GraphMember and the lemmas after it |
| Death.AddParticipant | death_events/death_mapping.py:42-83 | adds one participant's turn |
| Death.AddDeathDate | death_events/death_mapping.py:50-53 | adds the parsed death date |
| Death.AddDeathPlace | death_events/death_mapping.py:56-64 | adds the death place |
| Death.AddDeathEvent | death_events/death_mapping.py:67-83 | adds the death event |
| Documents.DefaultTypeIsPerson | document_events/document_mapping.py:69 | the default type 'person' passes the substring test |
| Documents.CreatorsMember | document_events/document_mapping.py:64-83 | the creators loop adds the union of the creators' turns |
| Documents.FixedShape | document_events/document_mapping.py:43-61 | the fixed parts are the record's type and name, and the truthy content type and parsed creation date |
| Documents.CreatorShape | document_events/document_mapping.py:66-83 | a creator's turn is its class, its name, provenance for author/contributor, and isOrganicProvenanceOf |
| Documents.GraphMember | document_events/document_mapping.py:34-85 | a triple is in the graph iff a fixed part or a creator's turn adds it |
| Documents.RecordAlways | document_events/document_mapping.py:43-48 | the record `record/{slug}_{counter}` is always named by the title and is the only Record |
| Documents.ContentTypeOnlyWhenTruthy | document_events/document_mapping.py:51-55 | hasContentOfType and the ContentType node exist iff contentType is truthy |
| Documents.CreationDateOnlyWhenParsed | document_events/document_mapping.py:58-61 | hasCreationDate is present iff the parsed date is truthy, and is that date |
| Documents.CreationDateParsed | document_events/document_mapping.py:58-60 | the parsed creation date is truthy iff a truthy raw date parses |
| Documents.AgentTyped | document_events/document_mapping.py:66-72 | any class but Record and ContentType is typed exactly on creators of that class |
| Documents.PersonCreators | document_events/document_mapping.py:69-70 | a node is a Person iff some creator whose lower-cased type contains "person" (or is absent) has it |
| Documents.CorporateBodyCreators | document_events/document_mapping.py:71-72 | a node is a CorporateBody iff some other creator has it |
| Documents.ProvenanceByRole | document_events/document_mapping.py:77-80 | hasOrganicProvenance links the record exactly to creators whose lower-cased role is author or contributor |
| Documents.EveryCreatorIsProvenanceOf | document_events/document_mapping.py:83 | every creator, and nothing else, isOrganicProvenanceOf the record |
| Documents.NoCreatorsNoAgents | document_events/document_mapping.py:64 | without creators every triple is about the record or its content type |
| Documents.TypeMentioningPersonIsPerson | document_events/document_mapping.py:69 | any type containing "person" (e.g. "salesperson") gives a Person |
| Documents.NoSubstringWithoutFirstChar | document_events/document_mapping.py:69 | a text lacking the pattern's first character does not contain it |
| Documents.TypeWithoutPIsCorporateBody | document_events/document_mapping.py:69-72 | a type with no letter p gives a CorporateBody |
| Documents.CreateDocumentGraph | document_events/document_mapping.py:34-85 | the built graph is DocumentTriples |
| Documents.DocumentTriples | document_events/document_mapping.py:34-85 | the reference graph: the fixed parts plus the creators' turns; stated by GraphMember and the lemmas after it |
| Documents.AddContentType | document_events/document_mapping.py:51-55 | adds the content type block |
| Documents.AddCreationDate | document_events/document_mapping.py:58-61 | adds the parsed creation date |
| Documents.AddCreators | document_events/document_mapping.py:64-83 | the loop adds every creator's turn |
| Documents.AddCreator | document_events/document_mapping.py:66-83 | adds one creator's turn |
| Synthesis.MatchingEvents | evaluation-app/synthesis.py:22-25 | the selection is never longer than the events |
| Synthesis.MatchingEventsSound | evaluation-app/synthesis.py:22-25 | every selected event is an input event of the requested type |
| Synthesis.MatchingEventsComplete | evaluation-app/synthesis.py:22-25 | no event of the requested type is lost |
| Synthesis.MatchingEventsAppend | evaluation-app/synthesis.py:22-25 | selecting from a concatenation concatenates the selections: the order of events is kept |
| Synthesis.MatchingEventsOrder | evaluation-app/synthesis.py:22-25 | an event sits between the selections of what precedes and follows it, and is kept iff its type matches |
| Synthesis.MatchingEventsIdempotent | evaluation-app/synthesis.py:22-25 | selecting again changes nothing |
| Synthesis.AllMatchingKept | evaluation-app/synthesis.py:22-25 | a list of events all of the type is kept whole |
| Synthesis.HasMatchIff | evaluation-app/synthesis.py:22-28 | a paragraph is kept iff some event's type equals the requested type |
| Synthesis.NoEventsKeyDropped | evaluation-app/synthesis.py:23 | a paragraph without an `events` key is dropped |
| Synthesis.FilteredLength | evaluation-app/synthesis.py:20-35 | the output has one paragraph per kept input paragraph |
| Synthesis.FilteredAt | evaluation-app/synthesis.py:20-35 | kept paragraph i is output at the position counting the kept paragraphs before it, with index and text copied and events cut down |
| Synthesis.KeptCountIncreases | evaluation-app/synthesis.py:20-35 | a later kept paragraph is output later: input order is kept |
| Synthesis.FilteredFrom | evaluation-app/synthesis.py:28-35 | every output paragraph is the cut-down copy of a kept input paragraph |
| Synthesis.ProjectIdempotent | evaluation-app/synthesis.py:28-35 | a cut-down paragraph is kept again unchanged |
| Synthesis.FilteredSnoc | evaluation-app/synthesis.py:20-35 | one more input paragraph appends exactly what the loop does with it |
| Synthesis.FilteredIdempotent | evaluation-app/synthesis.py:20-37 | filtering the output again with the same type returns it unchanged |
| Synthesis.FilterIdempotent | evaluation-app/synthesis.py:3-37 | the same for every input, including an invalid JSON string |
| Synthesis.FilterEventsByType | evaluation-app/synthesis.py:3-37 | the loop's result is the filter's specification; an invalid JSON string gives [] |
| Synthesis.FilterEventsByTypeSpec | evaluation-app/synthesis.py:3-37 | the reference filter: [] for invalid JSON, otherwise the kept paragraphs; stated by FilteredAt, FilteredFrom and FilteredIdempotent |
| Synthesis.EventTypesIff | evaluation-app/synthesis.py:44-49 | a type is gathered iff some event of some paragraph has it |
| Synthesis.EventTypes | evaluation-app/synthesis.py:44-49 | the reference set of gathered types; stated by EventTypesIff |
| Synthesis.CollectEventTypes | evaluation-app/synthesis.py:44-49 | the nested loops gather exactly EventTypes |
| Synthesis.CreateEventTypeFiles | evaluation-app/synthesis.py:39-61 | the keys are the lower-cased gathered types; each value is the filtered paragraphs of some gathered type with that lower-cased name |
| Synthesis.FilesWithoutCollision | evaluation-app/synthesis.py:51-59 | when no two types lower-case alike, each type's filtered paragraphs are filed under its lower-cased name |
| DateTime.StrptimeDMY | politics_events/politics_mapping.py:23 | `strptime(s, "%d/%m/%Y")` only yields dates that exist |
| DateTime.StrftimeISO | politics_events/politics_mapping.py:23 | `strftime("%Y-%m-%d")` gives a full-date that reads back to the same date |
| DateTime.StrptimeSlashed | politics_events/politics_mapping.py:23 | strptime reads DD/MM/YYYY back to the date it writes, and rejects it iff the date does not exist |
| DateTime.StrptimeReadsUnpadded | politics_events/politics_mapping.py:23 | single-digit day and month are accepted |
| DateTime.LeapDayAccepted | politics_events/politics_mapping.py:23 | 29 February is accepted in every leap year |
| DateTime.CenturyLeapDayRejected | politics_events/politics_mapping.py:23 | 29 February of a century year not divisible by 400 is rejected |
| DateTime.ShortMonthOverflowRejected | politics_events/politics_mapping.py:23 | the 31st of April, June, September or November is rejected |
| DateTime.YearZeroRejected | politics_events/politics_mapping.py:23 | year 0000 is rejected |
| DateTime.FullDateShape | politics_events/politics_mapping.py:22-27 | a full-date holds a dash and no slash, so no parse_date takes its slash branch on it |
| Rdf.Graph.Add | politics_events/politics_mapping.py:41 | `g.add` inserts into a set |
| Rdf.Graph.constructor | politics_events/politics_mapping.py:34 | `Graph()` starts empty |
| PyBuiltins.Split | education_events/education_mapping.py:33 | `str.split(sep)` always yields at least one part |
| Rdf.Lookup | politics_events/politics_mapping.py:73 | `EX[key]` is an IRI in that namespace, the namespace itself when the key is None |
| PyBuiltins.Lower | document_events/document_mapping.py:69 | `str.lower()` keeps the length and lowers every ASCII letter |
| PyBuiltins.ReplaceChars | politics_events/politics_mapping.py:14-15 | after `str.replace` a character occurs iff it is a text character other than the pattern, or a replacement character when the pattern occurs; without the pattern the text is unchanged |
| PyBuiltins.ReplaceStep | politics_events/politics_mapping.py:14-15 | one `str.replace` of a chain keeps removed characters out, removes its pattern, adds only `_`, and keeps every other character of the text |
| PyBuiltins.HasSubstringAt | document_events/document_mapping.py:69 | the `in` test holds iff the pattern occurs at some position |
| PyBuiltins.NatToStringInjective | relations_events/relation_mapping.py:46 | the decimal rendering of a counter is injective, so different counters give different IRIs |
| PyBuiltins.SplitJoin | education_events/education_mapping.py:33 | `split` loses nothing: joining the parts gives the text back |
| PyBuiltins.LastPartIsLastOfSplit | education_events/education_mapping.py:33 | the last part is `split(sep)[-1]` |
| PyBuiltins.FirstPartIsFirstOfSplit | education_events/education_mapping.py:34 | the first part is `split(sep)[0]` |

## Left out

- `event_extraction.py`: language-model client calls, prompts and logging, not modelled.
- The `convert_*_to_rdf` drivers, `g.bind`, Turtle serialisation and all file and console I/O,
  including the file writes and prints of `create_event_type_files`: library and I/O calls.
- JSON decoding in `filter_events_by_type` is abstract: `Input.JsonText` carries the decoded
  paragraphs, or None for invalid JSON, which gives [].
- KeyError from a missing required key (`paragraph['paragraph_index']`, `participant['name']`,
  ...): required keys are plain fields, so those inputs cannot be written down.
- TypeError and AttributeError on JSON null where the code expects text or a list: a null
  `creator` list, a null `events` list, a null event `type`, which `create_event_type_files`
  would lower-case. JSON null cannot be written for those fields; where such a field is an
  `Option` (`Synthesis.Event.kind`), None stands for the absent key, not for null.
- Non-string JSON values for `type` and the other fields are not modelled.
- Synthesis.CreateEventTypeFiles: set iteration order is unspecified, so when two types
  lower-case alike the model only states that the value belongs to one of them (the loop
  picks them in any order).
- Lower and the other string functions are ASCII only: Unicode case mapping and Unicode digits
  for `str.isdigit` are not modelled.
- DateTime.StrftimeISO pads the year to four digits. Some C libraries do not pad years below
  1000; those years are not distinguished.
- DateTime.StrptimeDMY reads exactly one or two ASCII digits, `/`, one or two ASCII digits, `/`,
  four ASCII digits. It differs from CPython's `%d/%m/%Y` in two ways. CPython also accepts a space
  before a one-digit day, so " 5/06/1984" reads as 5 June 1984; the model gives None. CPython's
  `%Y`, and the second digit of a two-digit `%d`, also match any Unicode decimal digit; the model
  accepts only ASCII ones.
- Literals are (lexical form, datatype) pairs; rdflib's normalisation of `xsd:date` literals is
  not modelled.
- Employment's `create_uri_safe_string` and `parse_date` (employment_mapping.py:10-28) are not
  separate members: they are character for character the politics ones and the model reuses
  those. The same holds for relations' `parse_date` (birth's) and for the death and document
  helpers (documents reuses death's slug; both use the politics date function).
