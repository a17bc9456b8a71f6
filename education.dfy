/**
 * education_events/education_mapping.py: each education entry asserts a
 * Person; an entry with a truthy institution name also asserts the
 * institution, a Position for (role, institution) the first time that
 * Position is seen, and a PositionHoldingRelation. A second pass adds a
 * TeachingRelation from every teacher or professor to every student of the
 * same institution.
 */
module Education {
  import opened PyBuiltins
  import opened DateTime
  import opened Rdf
  import opened Accumulate
  import Politics

  /** `EX = Namespace("http://example.org/#")` */
  const EX: Namespace := ExampleHash

  /**
   * `create_uri_safe_string`: None for a falsy text; otherwise lower-cased
   * first, then spaces and slashes become underscores and ' , . ( ) are removed.
   */
  function CreateUriSafeString(text: Option<string>): (r: Option<string>)
    ensures r.None? <==> !Truthy(text)
  {
    if !Truthy(text) then None else Some(Politics.ReplaceChain(Lower(text.value)))
  }

  /** A slug holds none of ` ',.()/` and no upper-case letter. */
  lemma SlugChars(text: Option<string>)
    requires Truthy(text)
    ensures forall c :: c in CreateUriSafeString(text).value ==> c !in " ',.()/" && !IsUpper(c)
  {
    Politics.ReplaceChainChars(Lower(text.value));
  }

  /** Lower-casing first gives the same slug as the politics converter, which lower-cases last. */
  lemma SlugAgreesWithPolitics(text: Option<string>)
    ensures CreateUriSafeString(text) == Politics.CreateUriSafeString(text)
  {
    if Truthy(text) {
      var t := text.value;
      var s1 := Replace(t, ' ', "_");
      var s2 := Replace(s1, '\'', "");
      var s3 := Replace(s2, ',', "");
      var s4 := Replace(s3, '.', "");
      var s5 := Replace(s4, '(', "");
      var s6 := Replace(s5, ')', "");
      LowerReplaceCommute(s6, '/', "_");
      LowerReplaceCommute(s5, ')', "");
      LowerReplaceCommute(s4, '(', "");
      LowerReplaceCommute(s3, '.', "");
      LowerReplaceCommute(s2, ',', "");
      LowerReplaceCommute(s1, '\'', "");
      LowerReplaceCommute(t, ' ', "_");
    }
  }

  /** A non-empty slug is a fixed point. */
  lemma SlugIdempotent(text: Option<string>)
    requires CreateUriSafeString(text).Some? && CreateUriSafeString(text).value != ""
    ensures CreateUriSafeString(CreateUriSafeString(text)) == CreateUriSafeString(text)
  {
    var r := CreateUriSafeString(text).value;
    SlugChars(text);
    LowerNoUpper(r);
    ReplaceChars(r, ' ', "_");
    ReplaceChars(r, '\'', "");
    ReplaceChars(r, ',', "");
    ReplaceChars(r, '.', "");
    ReplaceChars(r, '(', "");
    ReplaceChars(r, ')', "");
    ReplaceChars(r, '/', "_");
  }

  /** `parse_date`: the same five-way decision as the politics converter, dashed text passing through. */
  function ParseDate(s: Option<string>): (r: Option<string>)
    ensures !Truthy(s) ==> r.None?
    ensures r.Some? ==> '-' in r.value && '/' !in r.value
    ensures r.Some? ==> IsFullDate(r.value) || r == s
  {
    if !Truthy(s) then None
    else if '/' in s.value then
      match StrptimeDMY(s.value)
      case Some(d) =>
        var iso := StrftimeISO(d);
        FullDateShape(iso);
        Some(iso)
      case None => None
    else if IsDigitStr(s.value) && |s.value| == 4 then
      YearStartIsFullDate(s.value);
      FullDateShape(s.value + "-01-01");
      Some(s.value + "-01-01")
    else if '-' in s.value then s
    else None
  }

  /** A slashed date is read back to the date it names, or None when no such date exists. */
  lemma ParseDateSlashed(d: Date)
    requires d.day < 100 && d.month < 100 && d.year < 10000
    ensures ParseDate(Some(SlashedDMY(d))) == if IsValidDate(d) then Some(StrftimeISO(d)) else None
  {
    StrptimeSlashed(d);
    SlashedHasSlash(d);
  }

  /** Four digits denote January 1st of that year. */
  lemma ParseDateYear(y: string)
    requires IsYearField(y)
    ensures ParseDate(Some(y)) == Some(y + "-01-01")
  {
    assert '/' !in y by {
      forall i | 0 <= i < |y| ensures y[i] != '/' { assert IsDigit(y[i]); }
    }
  }

  /** Every output is read back unchanged. */
  lemma ParseDateIdempotent(s: Option<string>)
    ensures ParseDate(ParseDate(s)) == ParseDate(s)
  {
    var r := ParseDate(s);
    if r.Some? {
      NotDigitsWithDash(r.value);
    }
  }

  /** Text holding `-` but no `/` is passed through unchanged, whatever else it holds. */
  lemma ParseDateDashed(s: string)
    requires '/' !in s && '-' in s
    ensures ParseDate(Some(s)) == Some(s)
  {
    NotDigitsWithDash(s);
  }

  /** Non-empty text with no `/`, no `-`, and not four digits is not a date. */
  lemma ParseDateOther(s: string)
    requires s != "" && '/' !in s && '-' !in s && !(IsDigitStr(s) && |s| == 4)
    ensures ParseDate(Some(s)) == None
  {
  }

  /** `education['institution']`: both keys are required, both values may be null. */
  datatype Institution = Institution(name: Option<string>, kind: Option<string>)

  datatype Period = Period(startDate: Option<string>, endDate: Option<string>)

  /** One entry of `event["data"]["education"]`; `period` is None when absent or empty. */
  datatype Entry = Entry(name: string, role: string, institution: Institution, period: Option<Period>)

  /** `if education['institution']['name']:` */
  predicate HasInstitution(e: Entry)
  {
    Truthy(e.institution.name)
  }

  function PersonIri(name: string): Term
  {
    Iri(EX, "person/" + Show(CreateUriSafeString(Some(name))))
  }

  function InstitutionIri(instName: string): Term
  {
    Iri(EX, "institution/" + Show(CreateUriSafeString(Some(instName))))
  }

  /** `{role}_{inst_name}`, both slugs rendered by an f-string. */
  function PositionId(role: string, instName: string): string
  {
    Show(CreateUriSafeString(Some(role))) + "_" + Show(CreateUriSafeString(Some(instName)))
  }

  function PositionIri(role: string, instName: string): Term
  {
    Iri(EX, "position/" + PositionId(role, instName))
  }

  /** The last `/`-separated part of an IRI's text: `str(uri).split('/')[-1]`. */
  function LastSegment(t: Term): string
  {
    LastPart(IriText(t), '/')
  }

  /** The relation IRI `add_ordered_position_holding_relation` mints. */
  function HoldingRelationIri(person: Term, position: Term, counter: nat): Term
  {
    Iri(EX, "positionHoldingRelation/" + LastSegment(person) + "_" + FirstPart(LastSegment(position), '_')
      + "_" + NatToString(counter))
  }

  /** The triples `add_ordered_position_holding_relation` adds. */
  function HoldingTriples(person: Term, position: Term, counter: nat, startDate: Option<string>, endDate: Option<string>): set<Triple>
  {
    var r := HoldingRelationIri(person, position, counter);
    {Triple(r, RDF_TYPE, Rico("PositionHoldingRelation"))}
    + (if Truthy(startDate) then {Triple(r, Rico("beginningDate"), DateLit(startDate.value))} else {})
    + (if Truthy(endDate) then {Triple(r, Rico("endingDate"), DateLit(endDate.value))} else {})
    + {Triple(r, Rico("relationHasSource"), person), Triple(r, Rico("relationHasTarget"), position)}
  }

  /** `add_ordered_position_holding_relation`. */
  method AddOrderedPositionHoldingRelation(g: Graph, person: Term, position: Term, counter: nat,
                                           startDate: Option<string>, endDate: Option<string>)
    returns (relation: Term)
    requires person.Iri? && position.Iri?
    modifies g
    ensures relation == HoldingRelationIri(person, position, counter)
    ensures g.triples == old(g.triples) + HoldingTriples(person, position, counter, startDate, endDate)
  {
    var personName := LastSegment(person);
    var positionName := FirstPart(LastSegment(position), '_');
    relation := Iri(EX, "positionHoldingRelation/" + personName + "_" + positionName + "_" + NatToString(counter));
    g.Add(relation, RDF_TYPE, Rico("PositionHoldingRelation"));
    if Truthy(startDate) {
      g.Add(relation, Rico("beginningDate"), DateLit(startDate.value));
    }
    if Truthy(endDate) {
      g.Add(relation, Rico("endingDate"), DateLit(endDate.value));
    }
    g.Add(relation, Rico("relationHasSource"), person);
    g.Add(relation, Rico("relationHasTarget"), position);
  }

  /** The relation IRI `add_teaching_relation` mints; it has no counter. */
  function TeachingRelationIri(teacher: Term, student: Term): Term
  {
    Iri(EX, "TeachingRelation/" + LastSegment(teacher) + "_" + LastSegment(student))
  }

  function TeachingTriples(teacher: Term, student: Term): set<Triple>
  {
    var r := TeachingRelationIri(teacher, student);
    {Triple(r, RDF_TYPE, Rico("TeachingRelation")),
     Triple(r, Rico("relationHasSource"), teacher),
     Triple(r, Rico("relationHasTarget"), student)}
  }

  /** `add_teaching_relation`. */
  method AddTeachingRelation(g: Graph, teacher: Term, student: Term) returns (relation: Term)
    modifies g
    ensures relation == TeachingRelationIri(teacher, student)
    ensures g.triples == old(g.triples) + TeachingTriples(teacher, student)
  {
    var teacherName := LastSegment(teacher);
    var studentName := LastSegment(student);
    relation := Iri(EX, "TeachingRelation/" + teacherName + "_" + studentName);
    g.Add(relation, RDF_TYPE, Rico("TeachingRelation"));
    g.Add(relation, Rico("relationHasSource"), teacher);
    g.Add(relation, Rico("relationHasTarget"), student);
  }

  /** A slug, or "None", never holds a slash. */
  lemma ShowSlugNoSlash(text: string)
    ensures '/' !in Show(CreateUriSafeString(Some(text)))
  {
    if text != "" {
      SlugChars(Some(text));
    }
  }

  /** The last `/`-separated part of an IRI whose local name ends in a slash-free text. */
  lemma LastSegmentAfterSlash(prefix: string, b: string)
    requires |prefix| > 0 && prefix[|prefix| - 1] == '/' && '/' !in b
    ensures LastSegment(Iri(EX, prefix + b)) == b
  {
    SplitLastAfter(NamespaceIri(EX), prefix, '/', b);
  }

  /** The last segment of a person IRI is the person's slug. */
  lemma PersonLastSegment(name: string)
    ensures LastSegment(PersonIri(name)) == Show(CreateUriSafeString(Some(name)))
  {
    ShowSlugNoSlash(name);
    LastSegmentAfterSlash("person/", Show(CreateUriSafeString(Some(name))));
  }

  /** The last segment of a position IRI is `{role slug}_{institution slug}`. */
  lemma PositionLastSegment(role: string, instName: string)
    ensures LastSegment(PositionIri(role, instName)) == PositionId(role, instName)
  {
    ShowSlugNoSlash(role);
    ShowSlugNoSlash(instName);
    LastSegmentAfterSlash("position/", PositionId(role, instName));
  }

  /**
   * The holding-relation IRI is `positionHoldingRelation/{person slug}_{first
   * '_'-segment of the role slug}_{counter}`: the institution plays no part.
   */
  lemma HoldingRelationIriFormula(name: string, role: string, instName: string, counter: nat)
    ensures HoldingRelationIri(PersonIri(name), PositionIri(role, instName), counter) ==
      Iri(EX, "positionHoldingRelation/" + Show(CreateUriSafeString(Some(name))) + "_"
        + FirstPart(Show(CreateUriSafeString(Some(role))), '_') + "_" + NatToString(counter))
  {
    PersonLastSegment(name);
    PositionLastSegment(role, instName);
    var roleSlug := Show(CreateUriSafeString(Some(role)));
    assert roleSlug + "_" + Show(CreateUriSafeString(Some(instName))) == roleSlug + ['_'] + Show(CreateUriSafeString(Some(instName)));
    FirstPartBefore(roleSlug, '_', Show(CreateUriSafeString(Some(instName))));
  }

  /**
   * Two entries with the same person slug and the same leading role word
   * share one holding-relation node, whatever their institutions.
   */
  lemma HoldingRelationShared(name1: string, role1: string, inst1: string, name2: string, role2: string, inst2: string, counter: nat)
    requires CreateUriSafeString(Some(name1)) == CreateUriSafeString(Some(name2))
    requires FirstPart(Show(CreateUriSafeString(Some(role1))), '_') == FirstPart(Show(CreateUriSafeString(Some(role2))), '_')
    ensures HoldingRelationIri(PersonIri(name1), PositionIri(role1, inst1), counter) ==
      HoldingRelationIri(PersonIri(name2), PositionIri(role2, inst2), counter)
  {
    HoldingRelationIriFormula(name1, role1, inst1, counter);
    HoldingRelationIriFormula(name2, role2, inst2, counter);
  }

  /** The teaching-relation IRI is `TeachingRelation/{teacher slug}_{student slug}`. */
  lemma TeachingRelationIriFormula(teacherName: string, studentName: string)
    ensures TeachingRelationIri(PersonIri(teacherName), PersonIri(studentName)) ==
      Iri(EX, "TeachingRelation/" + Show(CreateUriSafeString(Some(teacherName))) + "_" + Show(CreateUriSafeString(Some(studentName))))
  {
    PersonLastSegment(teacherName);
    PersonLastSegment(studentName);
  }

  function PositionOf(e: Entry): Term
    requires HasInstitution(e)
  {
    PositionIri(e.role, e.institution.name.value)
  }

  /** `start_date` and `end_date` of an entry: parsed only when `period` is present. */
  function StartDate(e: Entry): Option<string>
  {
    if e.period.Some? then ParseDate(e.period.value.startDate) else None
  }

  function EndDate(e: Entry): Option<string>
  {
    if e.period.Some? then ParseDate(e.period.value.endDate) else None
  }

  /** The Person node and its name, asserted for every entry. */
  function PersonTriples(name: string): set<Triple>
  {
    {Triple(PersonIri(name), RDF_TYPE, Rico("Person")), Triple(PersonIri(name), Rico("name"), Lit(name))}
  }

  /** The institution of an entry with a truthy institution name. */
  function InstitutionTriples(e: Entry): set<Triple>
    requires HasInstitution(e)
  {
    var inst := InstitutionIri(e.institution.name.value);
    {Triple(inst, RDF_TYPE, Rico("CorporateBody")), Triple(inst, Rico("name"), Lit(e.institution.name.value))}
    + (if Truthy(e.institution.kind) then {Triple(inst, Rico("corporateBodyType"), Lit(e.institution.kind.value))} else {})
  }

  /** The relation node an entry with a truthy institution name points at its Position. */
  function HoldingIriOf(e: Entry, counter: nat): Term
    requires HasInstitution(e)
  {
    HoldingRelationIri(PersonIri(e.name), PositionOf(e), counter)
  }

  /** What every entry adds whether or not its Position is new. */
  function EntryTriples(e: Entry, counter: nat): set<Triple>
  {
    PersonTriples(e.name)
    + if !HasInstitution(e) then {}
      else InstitutionTriples(e) + HoldingTriples(PersonIri(e.name), PositionOf(e), counter, StartDate(e), EndDate(e))
  }

  /** The Position node: typed, named by the entry's raw role, and placed in the institution. */
  function PositionTriples(e: Entry): set<Triple>
    requires HasInstitution(e)
  {
    var position := PositionOf(e);
    {Triple(position, RDF_TYPE, Rico("Position")), Triple(position, Rico("name"), Lit(e.role)),
     Triple(position, Rico("existsOrExistedIn"), InstitutionIri(e.institution.name.value))}
  }

  /** Entry `e` holds the Position `x`. */
  predicate HoldsPosition(e: Entry, x: Term)
  {
    HasInstitution(e) && PositionOf(e) == x
  }

  /** No entry before index `i` holds the Position of entry `i`. */
  predicate IsFirstHolder(es: seq<Entry>, i: nat)
    requires i < |es|
  {
    HasInstitution(es[i]) && forall j :: 0 <= j < i ==> !HoldsPosition(es[j], PositionOf(es[i]))
  }

  /** What the first loop's turn on entry `i` adds: its Position only when it is the first to hold it. */
  function TurnTriples(es: seq<Entry>, i: nat, counter: nat): set<Triple>
  {
    if i >= |es| then {}
    else EntryTriples(es[i], counter) + if IsFirstHolder(es, i) then PositionTriples(es[i]) else {}
  }

  /** The graph after the first loop's first `n` turns. */
  function FirstPass(es: seq<Entry>, n: nat, counter: nat): set<Triple>
  {
    UnionUpTo(n, Turns(es, counter))
  }

  /** The first loop's turns, as a function of the index. */
  function Turns(es: seq<Entry>, counter: nat): nat -> set<Triple>
  {
    (i: nat) => TurnTriples(es, i, counter)
  }

  /** The keys of `created_positions` after the first loop's first `n` turns. */
  function Created(es: seq<Entry>, n: nat): set<Term>
    requires n <= |es|
  {
    set j | 0 <= j < n && HasInstitution(es[j]) :: PositionOf(es[j])
  }

  predicate IsTeacher(e: Entry)
  {
    e.role == "teacher" || e.role == "professor"
  }

  /** `student['role'] == 'student'` with the same institution name as the teacher's entry. */
  predicate IsStudentOf(s: Entry, teacher: Entry)
  {
    s.role == "student" && s.institution.name == teacher.institution.name
  }

  /** A teacher or professor entry with a truthy institution name, and a student entry of that institution. */
  predicate TeachesStudent(teacher: Entry, s: Entry)
  {
    HasInstitution(teacher) && IsTeacher(teacher) && IsStudentOf(s, teacher)
  }

  /** What the inner loop's turn on `all[j]` appends for `teacher`. */
  function StudentPair(teacher: Entry, all: seq<Entry>, j: nat): seq<(Term, Option<string>)>
  {
    if j < |all| && IsStudentOf(all[j], teacher) then [(PersonIri(teacher.name), CreateUriSafeString(Some(all[j].name)))] else []
  }

  /** The `(teacher IRI, student slug)` pairs the inner loop appends after scanning `all[..m]`. */
  function StudentsOf(teacher: Entry, all: seq<Entry>, m: nat): seq<(Term, Option<string>)>
  {
    ConcatUpTo(m, StudentPairs(teacher, all))
  }

  /** The inner loop's turns, as a function of the index. */
  function StudentPairs(teacher: Entry, all: seq<Entry>): nat -> seq<(Term, Option<string>)>
  {
    (j: nat) => StudentPair(teacher, all, j)
  }

  /** What the first loop's turn on entry `i` appends to `teacher_student_pairs`. */
  function TeacherPairs(es: seq<Entry>, i: nat): seq<(Term, Option<string>)>
  {
    if i < |es| && HasInstitution(es[i]) && IsTeacher(es[i]) then StudentsOf(es[i], es, |es|) else []
  }

  /** `teacher_student_pairs` after the first loop's first `n` turns. */
  function Pairs(es: seq<Entry>, n: nat): seq<(Term, Option<string>)>
  {
    ConcatUpTo(n, TeachersPairs(es))
  }

  /** The first loop's appends to `teacher_student_pairs`, as a function of the index. */
  function TeachersPairs(es: seq<Entry>): nat -> seq<(Term, Option<string>)>
  {
    (i: nat) => TeacherPairs(es, i)
  }

  /** `EX[f"person/{student_name}"]` */
  function StudentIri(studentSlug: Option<string>): Term
  {
    Iri(EX, "person/" + Show(studentSlug))
  }

  /** What the second loop's turn on `pairs[q]` adds. */
  function PairTriples(pairs: seq<(Term, Option<string>)>, q: nat): set<Triple>
  {
    if q < |pairs| then TeachingTriples(pairs[q].0, StudentIri(pairs[q].1)) else {}
  }

  /** The second loop's first `k` turns: a teaching relation per pair. */
  function PairsTriples(pairs: seq<(Term, Option<string>)>, k: nat): set<Triple>
  {
    UnionUpTo(k, PairsTurns(pairs))
  }

  /** The second loop's turns, as a function of the index. */
  function PairsTurns(pairs: seq<(Term, Option<string>)>): nat -> set<Triple>
  {
    (q: nat) => PairTriples(pairs, q)
  }

  /** The teaching triples of the second loop. */
  function SecondPass(es: seq<Entry>): set<Triple>
  {
    var pairs := Pairs(es, |es|);
    PairsTriples(pairs, |pairs|)
  }

  /** The graph `create_education_graph(event, counter)` returns. */
  function EducationTriples(es: seq<Entry>, counter: nat): set<Triple>
  {
    FirstPass(es, |es|, counter) + SecondPass(es)
  }

  // ---------------------------------------------------------------------
  // The builder
  // ---------------------------------------------------------------------

  /** `create_education_graph`. */
  method CreateEducationGraph(es: seq<Entry>, counter: nat) returns (g: Graph)
    ensures fresh(g) && g.triples == EducationTriples(es, counter)
  {
    g := new Graph();
    var teacherStudentPairs := AddFirstPass(g, es, counter);
    AddTeachingRelations(g, teacherStudentPairs);
  }

  /** The first loop: entities, Positions and holding relations, collecting teacher-student pairs. */
  method AddFirstPass(g: Graph, es: seq<Entry>, counter: nat) returns (pairs: seq<(Term, Option<string>)>)
    requires g.triples == {}
    modifies g
    ensures g.triples == FirstPass(es, |es|, counter)
    ensures pairs == Pairs(es, |es|)
  {
    var createdPositions: map<Term, Term> := map[];
    pairs := [];
    for i := 0 to |es|
      invariant g.triples == FirstPass(es, i, counter)
      invariant createdPositions.Keys == Created(es, i)
      invariant pairs == Pairs(es, i)
    {
      createdPositions, pairs := AddFirstPassEntry(g, es, i, counter, createdPositions, pairs);
    }
  }

  /** One turn of the first loop, on the entry at index `i`. */
  method AddFirstPassEntry(g: Graph, es: seq<Entry>, i: nat, counter: nat,
                           createdPositions: map<Term, Term>, pairs: seq<(Term, Option<string>)>)
    returns (created: map<Term, Term>, pairs': seq<(Term, Option<string>)>)
    requires i < |es|
    requires g.triples == FirstPass(es, i, counter)
    requires createdPositions.Keys == Created(es, i)
    requires pairs == Pairs(es, i)
    modifies g
    ensures g.triples == FirstPass(es, i + 1, counter)
    ensures created.Keys == Created(es, i + 1)
    ensures pairs' == Pairs(es, i + 1)
  {
    var e := es[i];
    FirstPassStep(es, i, counter);
    CreatedStep(es, i);
    created := AddEntry(g, e, counter, createdPositions);
    pairs' := pairs;
    if Truthy(e.institution.name) && (e.role == "teacher" || e.role == "professor") {
      pairs' := CollectStudents(e, es, pairs);
    }
  }

  /** The first loop's turn on entry `i`, with the first-holder test replaced by the dictionary test. */
  lemma FirstPassStep(es: seq<Entry>, i: nat, counter: nat)
    requires i < |es|
    ensures FirstPass(es, i + 1, counter) == FirstPass(es, i, counter) + EntryTriples(es[i], counter)
      + (if HasInstitution(es[i]) && PositionOf(es[i]) !in Created(es, i) then PositionTriples(es[i]) else {})
  {
    if HasInstitution(es[i]) {
      NewPositionIffFirstHolder(es, i);
    }
    assert Turns(es, counter)(i) == TurnTriples(es, i, counter);
  }

  /** `created_positions` grows by the Position of each entry with a truthy institution name. */
  lemma CreatedStep(es: seq<Entry>, i: nat)
    requires i < |es|
    ensures Created(es, i + 1) == Created(es, i) + if HasInstitution(es[i]) then {PositionOf(es[i])} else {}
  {
  }

  /** The dictionary test `position_uri not in created_positions` picks out the first holder. */
  lemma NewPositionIffFirstHolder(es: seq<Entry>, i: nat)
    requires i < |es| && HasInstitution(es[i])
    ensures PositionOf(es[i]) !in Created(es, i) <==> IsFirstHolder(es, i)
  {
    if PositionOf(es[i]) in Created(es, i) {
      var j :| 0 <= j < i && HasInstitution(es[j]) && PositionOf(es[j]) == PositionOf(es[i]);
      assert HoldsPosition(es[j], PositionOf(es[i]));
    }
  }

  /** One turn of the first loop, without the pair collection. */
  method AddEntry(g: Graph, e: Entry, counter: nat, createdPositions: map<Term, Term>)
    returns (created: map<Term, Term>)
    modifies g
    ensures g.triples == old(g.triples) + EntryTriples(e, counter)
      + (if HasInstitution(e) && PositionOf(e) !in createdPositions.Keys then PositionTriples(e) else {})
    ensures created.Keys == createdPositions.Keys + (if HasInstitution(e) then {PositionOf(e)} else {})
  {
    created := createdPositions;
    AddPerson(g, e.name);
    if Truthy(e.institution.name) {
      created := AddHolding(g, e, counter, created);
    }
  }

  /** The two person triples every entry adds. */
  method AddPerson(g: Graph, name: string)
    modifies g
    ensures g.triples == old(g.triples) + PersonTriples(name)
  {
    var person := PersonIri(name);
    g.Add(person, RDF_TYPE, Rico("Person"));
    g.Add(person, Rico("name"), Lit(name));
  }

  /** The `if education['institution']['name']:` block of the first loop. */
  method AddHolding(g: Graph, e: Entry, counter: nat, createdPositions: map<Term, Term>)
    returns (created: map<Term, Term>)
    requires HasInstitution(e)
    modifies g
    ensures g.triples == old(g.triples) + InstitutionTriples(e)
      + (if PositionOf(e) !in createdPositions.Keys then PositionTriples(e) else {})
      + HoldingTriples(PersonIri(e.name), PositionOf(e), counter, StartDate(e), EndDate(e))
    ensures created.Keys == createdPositions.Keys + {PositionOf(e)}
  {
    var inst := AddInstitution(g, e);
    var position := PositionIri(e.role, e.institution.name.value);
    created := AddPositionOnce(g, e, inst, createdPositions);
    var startDate := if e.period.Some? then ParseDate(e.period.value.startDate) else None;
    var endDate := if e.period.Some? then ParseDate(e.period.value.endDate) else None;
    var _ := AddOrderedPositionHoldingRelation(g, PersonIri(e.name), position, counter, startDate, endDate);
  }

  /** The institution block of the first loop. */
  method AddInstitution(g: Graph, e: Entry) returns (inst: Term)
    requires HasInstitution(e)
    modifies g
    ensures inst == InstitutionIri(e.institution.name.value)
    ensures g.triples == old(g.triples) + InstitutionTriples(e)
  {
    inst := InstitutionIri(e.institution.name.value);
    g.Add(inst, RDF_TYPE, Rico("CorporateBody"));
    g.Add(inst, Rico("name"), Lit(e.institution.name.value));
    if Truthy(e.institution.kind) {
      g.Add(inst, Rico("corporateBodyType"), Lit(e.institution.kind.value));
    }
  }

  /** The `if position_uri not in created_positions` block of the first loop. */
  method AddPositionOnce(g: Graph, e: Entry, inst: Term, createdPositions: map<Term, Term>)
    returns (created: map<Term, Term>)
    requires HasInstitution(e) && inst == InstitutionIri(e.institution.name.value)
    modifies g
    ensures g.triples == old(g.triples) + (if PositionOf(e) !in createdPositions.Keys then PositionTriples(e) else {})
    ensures created.Keys == createdPositions.Keys + {PositionOf(e)}
  {
    created := createdPositions;
    var position := PositionIri(e.role, e.institution.name.value);
    if position !in created {
      g.Add(position, RDF_TYPE, Rico("Position"));
      g.Add(position, Rico("name"), Lit(e.role));
      g.Add(position, Rico("existsOrExistedIn"), inst);
      created := created[position := inst];
    }
  }

  /** The inner loop over all entries for one teacher. */
  method CollectStudents(teacher: Entry, all: seq<Entry>, pairs: seq<(Term, Option<string>)>)
    returns (pairs': seq<(Term, Option<string>)>)
    ensures pairs' == pairs + StudentsOf(teacher, all, |all|)
  {
    pairs' := pairs;
    for j := 0 to |all|
      invariant pairs' == pairs + StudentsOf(teacher, all, j)
    {
      StudentsOfStep(teacher, all, j);
      var student := all[j];
      if student.role == "student" && student.institution.name == teacher.institution.name {
        pairs' := pairs' + [(PersonIri(teacher.name), CreateUriSafeString(Some(student.name)))];
      }
    }
  }

  /** The inner loop's turn on `all[j]` appends `StudentPair(teacher, all, j)`. */
  lemma StudentsOfStep(teacher: Entry, all: seq<Entry>, j: nat)
    ensures StudentsOf(teacher, all, j + 1) == StudentsOf(teacher, all, j) + StudentPair(teacher, all, j)
  {
    assert StudentPairs(teacher, all)(j) == StudentPair(teacher, all, j);
  }

  /** The second loop: a teaching relation per collected pair. */
  method AddTeachingRelations(g: Graph, pairs: seq<(Term, Option<string>)>)
    modifies g
    ensures g.triples == old(g.triples) + PairsTriples(pairs, |pairs|)
  {
    for k := 0 to |pairs|
      invariant g.triples == old(g.triples) + PairsTriples(pairs, k)
    {
      PairsTriplesStep(pairs, k);
      UnionGrows(old(g.triples), PairsTriples(pairs, k), TeachingTriples(pairs[k].0, StudentIri(pairs[k].1)), g.triples);
      AddPair(g, pairs[k]);
    }
  }

  /** One turn of the second loop: the student IRI is rebuilt from the slug. */
  method AddPair(g: Graph, pair: (Term, Option<string>))
    modifies g
    ensures g.triples == old(g.triples) + TeachingTriples(pair.0, StudentIri(pair.1))
  {
    var (teacher, studentName) := pair;
    var student := Iri(EX, "person/" + Show(studentName));
    var _ := AddTeachingRelation(g, teacher, student);
  }

  /** One more turn of the second loop adds the teaching triples of one more pair. */
  lemma PairsTriplesStep(pairs: seq<(Term, Option<string>)>, k: nat)
    requires k < |pairs|
    ensures PairsTriples(pairs, k + 1) == PairsTriples(pairs, k) + TeachingTriples(pairs[k].0, StudentIri(pairs[k].1))
  {
    assert PairsTurns(pairs)(k) == PairTriples(pairs, k);
  }

  // ---------------------------------------------------------------------
  // What the graph holds
  // ---------------------------------------------------------------------

  /** The first pass is the union of its turns. */
  lemma FirstPassMember(es: seq<Entry>, n: nat, counter: nat, t: Triple)
    ensures t in FirstPass(es, n, counter) <==> exists i :: 0 <= i < n && t in TurnTriples(es, i, counter)
  {
    UnionUpToMember(n, Turns(es, counter), t);
    if t in FirstPass(es, n, counter) {
      var i :| 0 <= i < n && t in Turns(es, counter)(i);
      assert Turns(es, counter)(i) == TurnTriples(es, i, counter);
    }
    if exists i :: 0 <= i < n && t in TurnTriples(es, i, counter) {
      var i :| 0 <= i < n && t in TurnTriples(es, i, counter);
      assert Turns(es, counter)(i) == TurnTriples(es, i, counter);
    }
  }

  /** The pairs one teacher collects: one per student entry of its institution. */
  lemma StudentsOfMember(teacher: Entry, all: seq<Entry>, p: (Term, Option<string>))
    ensures p in StudentsOf(teacher, all, |all|) <==>
      exists j :: 0 <= j < |all| && IsStudentOf(all[j], teacher) && p == (PersonIri(teacher.name), CreateUriSafeString(Some(all[j].name)))
  {
    ConcatUpToMember(|all|, StudentPairs(teacher, all), p);
    if p in StudentsOf(teacher, all, |all|) {
      var j :| 0 <= j < |all| && p in StudentPairs(teacher, all)(j);
      assert StudentPairs(teacher, all)(j) == StudentPair(teacher, all, j);
    }
    if exists j :: 0 <= j < |all| && IsStudentOf(all[j], teacher) && p == (PersonIri(teacher.name), CreateUriSafeString(Some(all[j].name))) {
      var j :| 0 <= j < |all| && IsStudentOf(all[j], teacher) && p == (PersonIri(teacher.name), CreateUriSafeString(Some(all[j].name)));
      assert StudentPairs(teacher, all)(j) == StudentPair(teacher, all, j);
    }
  }

  /** `teacher_student_pairs` holds a pair for every teacher entry and student entry of the same institution. */
  lemma PairsMember(es: seq<Entry>, p: (Term, Option<string>))
    ensures p in Pairs(es, |es|) <==>
      exists i, j :: 0 <= i < |es| && 0 <= j < |es| && TeachesStudent(es[i], es[j])
        && p == (PersonIri(es[i].name), CreateUriSafeString(Some(es[j].name)))
  {
    ConcatUpToMember(|es|, TeachersPairs(es), p);
    if p in Pairs(es, |es|) {
      var i :| 0 <= i < |es| && p in TeachersPairs(es)(i);
      assert TeachersPairs(es)(i) == TeacherPairs(es, i);
      StudentsOfMember(es[i], es, p);
    }
    if exists i, j :: 0 <= i < |es| && 0 <= j < |es| && TeachesStudent(es[i], es[j])
         && p == (PersonIri(es[i].name), CreateUriSafeString(Some(es[j].name))) {
      var i, j :| 0 <= i < |es| && 0 <= j < |es| && TeachesStudent(es[i], es[j])
        && p == (PersonIri(es[i].name), CreateUriSafeString(Some(es[j].name)));
      assert TeachersPairs(es)(i) == TeacherPairs(es, i);
      StudentsOfMember(es[i], es, p);
    }
  }

  /** The second pass is the union of the pairs' teaching triples. */
  lemma PairsTriplesMember(pairs: seq<(Term, Option<string>)>, t: Triple)
    ensures t in PairsTriples(pairs, |pairs|) <==> exists q :: 0 <= q < |pairs| && t in PairTriples(pairs, q)
  {
    UnionUpToMember(|pairs|, PairsTurns(pairs), t);
    if t in PairsTriples(pairs, |pairs|) {
      var q :| 0 <= q < |pairs| && t in PairsTurns(pairs)(q);
      assert PairsTurns(pairs)(q) == PairTriples(pairs, q);
    }
    if exists q :: 0 <= q < |pairs| && t in PairTriples(pairs, q) {
      var q :| 0 <= q < |pairs| && t in PairTriples(pairs, q);
      assert PairsTurns(pairs)(q) == PairTriples(pairs, q);
    }
  }

  /** The student IRI the second loop rebuilds from a slug is the student's person node. */
  lemma StudentIriIsPerson(name: string)
    ensures StudentIri(CreateUriSafeString(Some(name))) == PersonIri(name)
  {
  }

  /** Every teaching triple comes from a teacher entry and a student entry of one institution. */
  lemma SecondPassSound(es: seq<Entry>, t: Triple)
    requires t in SecondPass(es)
    ensures
      exists i, j :: 0 <= i < |es| && 0 <= j < |es| && TeachesStudent(es[i], es[j])
        && t in TeachingTriples(PersonIri(es[i].name), PersonIri(es[j].name))
  {
    var pairs := Pairs(es, |es|);
    PairsTriplesMember(pairs, t);
    var q :| 0 <= q < |pairs| && t in PairTriples(pairs, q);
    PairsMember(es, pairs[q]);
    var i, j :| 0 <= i < |es| && 0 <= j < |es| && TeachesStudent(es[i], es[j])
      && pairs[q] == (PersonIri(es[i].name), CreateUriSafeString(Some(es[j].name)));
    StudentIriIsPerson(es[j].name);
    assert t in TeachingTriples(PersonIri(es[i].name), PersonIri(es[j].name));
  }

  /** Every teacher entry and student entry of one institution get their teaching triples. */
  lemma SecondPassComplete(es: seq<Entry>, i: nat, j: nat, t: Triple)
    requires i < |es| && j < |es| && TeachesStudent(es[i], es[j])
    requires t in TeachingTriples(PersonIri(es[i].name), PersonIri(es[j].name))
    ensures t in SecondPass(es)
  {
    var pairs := Pairs(es, |es|);
    var p := (PersonIri(es[i].name), CreateUriSafeString(Some(es[j].name)));
    PairsMember(es, p);
    var q :| 0 <= q < |pairs| && pairs[q] == p;
    StudentIriIsPerson(es[j].name);
    assert t in PairTriples(pairs, q);
    PairsTriplesMember(pairs, t);
  }

  /** The second pass adds teaching triples exactly for the teacher and student entries of one institution. */
  lemma SecondPassMember(es: seq<Entry>, t: Triple)
    ensures t in SecondPass(es) <==>
      exists i, j :: 0 <= i < |es| && 0 <= j < |es| && TeachesStudent(es[i], es[j])
        && t in TeachingTriples(PersonIri(es[i].name), PersonIri(es[j].name))
  {
    if t in SecondPass(es) {
      SecondPassSound(es, t);
    }
    if exists i, j :: 0 <= i < |es| && 0 <= j < |es| && TeachesStudent(es[i], es[j])
         && t in TeachingTriples(PersonIri(es[i].name), PersonIri(es[j].name)) {
      var i, j :| 0 <= i < |es| && 0 <= j < |es| && TeachesStudent(es[i], es[j])
        && t in TeachingTriples(PersonIri(es[i].name), PersonIri(es[j].name));
      SecondPassComplete(es, i, j, t);
    }
  }

  /** Every triple of the graph comes from one turn of the first loop or from one teacher-student pair. */
  lemma GraphMember(es: seq<Entry>, counter: nat, t: Triple)
    ensures t in EducationTriples(es, counter) <==>
      || (exists i :: 0 <= i < |es| && t in TurnTriples(es, i, counter))
      || (exists i, j :: 0 <= i < |es| && 0 <= j < |es| && TeachesStudent(es[i], es[j])
            && t in TeachingTriples(PersonIri(es[i].name), PersonIri(es[j].name)))
  {
    FirstPassMember(es, |es|, counter, t);
    SecondPassMember(es, t);
  }

  /** Every Position held by some entry has a first holder. */
  lemma {:induction false} FirstHolderExists(es: seq<Entry>, i: nat)
    requires i < |es| && HasInstitution(es[i])
    ensures exists j :: 0 <= j <= i && IsFirstHolder(es, j) && PositionOf(es[j]) == PositionOf(es[i])
    decreases i
  {
    if !IsFirstHolder(es, i) {
      var j :| 0 <= j < i && HoldsPosition(es[j], PositionOf(es[i]));
      FirstHolderExists(es, j);
    }
  }

  /** Two first holders of the same Position are the same entry. */
  lemma FirstHolderUnique(es: seq<Entry>, i: nat, j: nat)
    requires i < |es| && j < |es| && IsFirstHolder(es, i) && IsFirstHolder(es, j)
    requires PositionOf(es[i]) == PositionOf(es[j])
    ensures i == j
  {
    if i < j {
      assert HoldsPosition(es[i], PositionOf(es[j]));
    } else if j < i {
      assert HoldsPosition(es[j], PositionOf(es[i]));
    }
  }

  // ---------------------------------------------------------------------
  // Properties of the graph
  // ---------------------------------------------------------------------

  /** A holding relation's triples: its type, its truthy dates, its source person and its target Position. */
  lemma HoldingShape(person: Term, position: Term, counter: nat, startDate: Option<string>, endDate: Option<string>, t: Triple)
    ensures t in HoldingTriples(person, position, counter, startDate, endDate) ==>
      && t.s == HoldingRelationIri(person, position, counter)
      && (|| (t.p == RDF_TYPE && t.o == Rico("PositionHoldingRelation"))
          || (t.p == Rico("beginningDate") && Truthy(startDate) && t.o == DateLit(startDate.value))
          || (t.p == Rico("endingDate") && Truthy(endDate) && t.o == DateLit(endDate.value))
          || (t.p == Rico("relationHasSource") && t.o == person)
          || (t.p == Rico("relationHasTarget") && t.o == position))
  {
  }

  /**
   * Turn `i` of the first loop types node `x` as `cls`: its Person, its
   * CorporateBody and its PositionHoldingRelation when the institution name
   * is truthy, and its Position only when it is the first to hold it.
   */
  predicate TypedInTurn(es: seq<Entry>, i: nat, counter: nat, x: Term, cls: string)
    requires i < |es|
  {
    if cls == "Person" then x == PersonIri(es[i].name)
    else if cls == "CorporateBody" then HasInstitution(es[i]) && x == InstitutionIri(es[i].institution.name.value)
    else if cls == "PositionHoldingRelation" then HasInstitution(es[i]) && x == HoldingIriOf(es[i], counter)
    else if cls == "Position" then IsFirstHolder(es, i) && x == PositionOf(es[i])
    else false
  }

  /** The typing triples of an entry's own blocks. */
  lemma EntryTypes(e: Entry, counter: nat, t: Triple)
    ensures t in EntryTriples(e, counter) && t.p == RDF_TYPE ==>
      || t == Triple(PersonIri(e.name), RDF_TYPE, Rico("Person"))
      || (HasInstitution(e) && t == Triple(InstitutionIri(e.institution.name.value), RDF_TYPE, Rico("CorporateBody")))
      || (HasInstitution(e) && t == Triple(HoldingIriOf(e, counter), RDF_TYPE, Rico("PositionHoldingRelation")))
  {
    if HasInstitution(e) {
      HoldingShape(PersonIri(e.name), PositionOf(e), counter, StartDate(e), EndDate(e), t);
    }
  }

  /** What a typing triple of one turn of the first loop says. */
  lemma TurnTypes(es: seq<Entry>, i: nat, counter: nat, x: Term, cls: string)
    requires Triple(x, RDF_TYPE, Rico(cls)) in TurnTriples(es, i, counter)
    ensures i < |es| && TypedInTurn(es, i, counter, x, cls)
  {
    EntryTypes(es[i], counter, Triple(x, RDF_TYPE, Rico(cls)));
  }

  /** A teaching relation's three triples: its type, its source teacher and its target student. */
  lemma TeachingShape(teacher: Term, student: Term, t: Triple)
    ensures t in TeachingTriples(teacher, student) ==>
      && t.s == TeachingRelationIri(teacher, student)
      && (|| (t.p == RDF_TYPE && t.o == Rico("TeachingRelation"))
          || (t.p == Rico("relationHasSource") && t.o == teacher)
          || (t.p == Rico("relationHasTarget") && t.o == student))
  {
  }

  /** A triple of the graph that no teaching relation could have added comes from one turn of the first loop. */
  lemma FromTurn(es: seq<Entry>, counter: nat, t: Triple)
    requires t in EducationTriples(es, counter)
    requires t.p != Rico("relationHasSource") && t.p != Rico("relationHasTarget")
    requires t.p == RDF_TYPE ==> t.o != Rico("TeachingRelation")
    ensures exists i :: 0 <= i < |es| && t in TurnTriples(es, i, counter)
  {
    GraphMember(es, counter, t);
    if !exists i :: 0 <= i < |es| && t in TurnTriples(es, i, counter) {
      var i, j :| 0 <= i < |es| && 0 <= j < |es| && TeachesStudent(es[i], es[j])
        && t in TeachingTriples(PersonIri(es[i].name), PersonIri(es[j].name));
      TeachingShape(PersonIri(es[i].name), PersonIri(es[j].name), t);
      assert false;
    }
  }

  /** A node the graph types as anything but a TeachingRelation was typed by one turn of the first loop. */
  lemma TypedByTurn(es: seq<Entry>, counter: nat, x: Term, cls: string)
    requires cls != "TeachingRelation"
    requires Triple(x, RDF_TYPE, Rico(cls)) in EducationTriples(es, counter)
    ensures exists i :: 0 <= i < |es| && TypedInTurn(es, i, counter, x, cls)
  {
    var t := Triple(x, RDF_TYPE, Rico(cls));
    FromTurn(es, counter, t);
    var i :| 0 <= i < |es| && t in TurnTriples(es, i, counter);
    TurnTypes(es, i, counter, x, cls);
  }

  /** Whatever one turn of the first loop types is typed in the graph. */
  lemma TypedInGraph(es: seq<Entry>, counter: nat, i: nat, x: Term, cls: string)
    requires i < |es| && TypedInTurn(es, i, counter, x, cls)
    ensures Triple(x, RDF_TYPE, Rico(cls)) in EducationTriples(es, counter)
  {
    var t := Triple(x, RDF_TYPE, Rico(cls));
    if cls == "PositionHoldingRelation" {
      assert t in HoldingTriples(PersonIri(es[i].name), PositionOf(es[i]), counter, StartDate(es[i]), EndDate(es[i]));
    }
    assert t in TurnTriples(es, i, counter);
    TurnInGraph(es, counter, i, t);
  }

  /** A triple of one turn is in the graph. */
  lemma TurnInGraph(es: seq<Entry>, counter: nat, i: nat, t: Triple)
    requires i < |es| && t in TurnTriples(es, i, counter)
    ensures t in EducationTriples(es, counter)
  {
    FirstPassMember(es, |es|, counter, t);
  }

  /** Every entry asserts its Person and the Person's name, whatever else it holds. */
  lemma EveryEntryHasPerson(es: seq<Entry>, counter: nat, i: nat)
    requires i < |es|
    ensures PersonTriples(es[i].name) <= EducationTriples(es, counter)
  {
    forall t | t in PersonTriples(es[i].name)
      ensures t in EducationTriples(es, counter)
    {
      TurnInGraph(es, counter, i, t);
    }
  }

  /** A node is typed a Person exactly when it is the person node of some entry. */
  lemma PersonTyped(es: seq<Entry>, counter: nat, x: Term)
    ensures Triple(x, RDF_TYPE, Rico("Person")) in EducationTriples(es, counter) <==>
      exists i :: 0 <= i < |es| && x == PersonIri(es[i].name)
  {
    var t := Triple(x, RDF_TYPE, Rico("Person"));
    if t in EducationTriples(es, counter) {
      TypedByTurn(es, counter, x, "Person");
      var i :| 0 <= i < |es| && TypedInTurn(es, i, counter, x, "Person");
      assert x == PersonIri(es[i].name);
    }
    if exists i :: 0 <= i < |es| && x == PersonIri(es[i].name) {
      var i :| 0 <= i < |es| && x == PersonIri(es[i].name);
      EveryEntryHasPerson(es, counter, i);
    }
  }

  /** A node is typed a CorporateBody exactly when it is the institution of an entry with a truthy institution name. */
  lemma CorporateBodyTyped(es: seq<Entry>, counter: nat, x: Term)
    ensures Triple(x, RDF_TYPE, Rico("CorporateBody")) in EducationTriples(es, counter) <==>
      exists i :: 0 <= i < |es| && HasInstitution(es[i]) && x == InstitutionIri(es[i].institution.name.value)
  {
    var t := Triple(x, RDF_TYPE, Rico("CorporateBody"));
    if t in EducationTriples(es, counter) {
      TypedByTurn(es, counter, x, "CorporateBody");
      var i :| 0 <= i < |es| && TypedInTurn(es, i, counter, x, "CorporateBody");
      assert HasInstitution(es[i]) && x == InstitutionIri(es[i].institution.name.value);
    }
    if exists i :: 0 <= i < |es| && HasInstitution(es[i]) && x == InstitutionIri(es[i].institution.name.value) {
      var i :| 0 <= i < |es| && HasInstitution(es[i]) && x == InstitutionIri(es[i].institution.name.value);
      assert t in InstitutionTriples(es[i]);
      TurnInGraph(es, counter, i, t);
    }
  }

  /** A node is typed a Position exactly when some entry holds it. */
  lemma PositionTyped(es: seq<Entry>, counter: nat, x: Term)
    ensures Triple(x, RDF_TYPE, Rico("Position")) in EducationTriples(es, counter) <==>
      exists i :: 0 <= i < |es| && HoldsPosition(es[i], x)
  {
    var t := Triple(x, RDF_TYPE, Rico("Position"));
    if t in EducationTriples(es, counter) {
      TypedByTurn(es, counter, x, "Position");
      var i :| 0 <= i < |es| && TypedInTurn(es, i, counter, x, "Position");
      assert HoldsPosition(es[i], x);
    }
    if exists i :: 0 <= i < |es| && HoldsPosition(es[i], x) {
      var i :| 0 <= i < |es| && HoldsPosition(es[i], x);
      FirstHolderExists(es, i);
      var j :| 0 <= j <= i && IsFirstHolder(es, j) && PositionOf(es[j]) == PositionOf(es[i]);
      assert t in TurnTriples(es, j, counter);
      TurnInGraph(es, counter, j, t);
    }
  }

  /** A node is typed a PositionHoldingRelation exactly when it is the holding relation of an entry with a truthy institution name. */
  lemma HoldingRelationTyped(es: seq<Entry>, counter: nat, r: Term)
    ensures Triple(r, RDF_TYPE, Rico("PositionHoldingRelation")) in EducationTriples(es, counter) <==>
      exists i :: 0 <= i < |es| && HasInstitution(es[i]) && r == HoldingIriOf(es[i], counter)
  {
    var t := Triple(r, RDF_TYPE, Rico("PositionHoldingRelation"));
    if t in EducationTriples(es, counter) {
      TypedByTurn(es, counter, r, "PositionHoldingRelation");
      var i :| 0 <= i < |es| && TypedInTurn(es, i, counter, r, "PositionHoldingRelation");
      assert HasInstitution(es[i]) && r == HoldingIriOf(es[i], counter);
    }
    if exists i :: 0 <= i < |es| && HasInstitution(es[i]) && r == HoldingIriOf(es[i], counter) {
      var i :| 0 <= i < |es| && HasInstitution(es[i]) && r == HoldingIriOf(es[i], counter);
      TypedInGraph(es, counter, i, r, "PositionHoldingRelation");
    }
  }

  /** Every entry with a truthy institution name gets its whole holding relation, source and target included. */
  lemma HoldingInGraph(es: seq<Entry>, counter: nat, i: nat)
    requires i < |es| && HasInstitution(es[i])
    ensures HoldingTriples(PersonIri(es[i].name), PositionOf(es[i]), counter, StartDate(es[i]), EndDate(es[i]))
      <= EducationTriples(es, counter)
  {
    forall t | t in HoldingTriples(PersonIri(es[i].name), PositionOf(es[i]), counter, StartDate(es[i]), EndDate(es[i]))
      ensures t in EducationTriples(es, counter)
    {
      assert t in TurnTriples(es, i, counter);
      TurnInGraph(es, counter, i, t);
    }
  }

  /** Every TeachingRelation node of the graph was minted for a teacher entry and a student entry of one institution. */
  lemma TeachingTypedByPair(es: seq<Entry>, counter: nat, r: Term)
    requires Triple(r, RDF_TYPE, Rico("TeachingRelation")) in EducationTriples(es, counter)
    ensures
      exists i, j :: 0 <= i < |es| && 0 <= j < |es| && TeachesStudent(es[i], es[j])
        && r == TeachingRelationIri(PersonIri(es[i].name), PersonIri(es[j].name))
  {
    var t := Triple(r, RDF_TYPE, Rico("TeachingRelation"));
    GraphMember(es, counter, t);
    if exists i :: 0 <= i < |es| && t in TurnTriples(es, i, counter) {
      var i :| 0 <= i < |es| && t in TurnTriples(es, i, counter);
      TurnTypes(es, i, counter, r, "TeachingRelation");
      assert false;
    }
    var i, j :| 0 <= i < |es| && 0 <= j < |es| && TeachesStudent(es[i], es[j])
      && t in TeachingTriples(PersonIri(es[i].name), PersonIri(es[j].name));
    TeachingShape(PersonIri(es[i].name), PersonIri(es[j].name), t);
    assert r == TeachingRelationIri(PersonIri(es[i].name), PersonIri(es[j].name));
  }

  /** A node is typed a TeachingRelation exactly when it relates a teacher entry to a student entry of the same institution. */
  lemma TeachingRelationTyped(es: seq<Entry>, counter: nat, r: Term)
    ensures Triple(r, RDF_TYPE, Rico("TeachingRelation")) in EducationTriples(es, counter) <==>
      exists i, j :: 0 <= i < |es| && 0 <= j < |es| && TeachesStudent(es[i], es[j])
        && r == TeachingRelationIri(PersonIri(es[i].name), PersonIri(es[j].name))
  {
    if Triple(r, RDF_TYPE, Rico("TeachingRelation")) in EducationTriples(es, counter) {
      TeachingTypedByPair(es, counter, r);
    }
    if exists i, j :: 0 <= i < |es| && 0 <= j < |es| && TeachesStudent(es[i], es[j])
         && r == TeachingRelationIri(PersonIri(es[i].name), PersonIri(es[j].name)) {
      var i, j :| 0 <= i < |es| && 0 <= j < |es| && TeachesStudent(es[i], es[j])
        && r == TeachingRelationIri(PersonIri(es[i].name), PersonIri(es[j].name));
      SecondPassComplete(es, i, j, Triple(r, RDF_TYPE, Rico("TeachingRelation")));
    }
  }

  /** The names the first pass gives: a person's raw name, an institution's raw name, a Position's raw role. */
  lemma EntryNames(e: Entry, counter: nat, t: Triple)
    ensures t in EntryTriples(e, counter) && t.p == Rico("name") ==>
      || t == Triple(PersonIri(e.name), Rico("name"), Lit(e.name))
      || (HasInstitution(e) && t == Triple(InstitutionIri(e.institution.name.value), Rico("name"), Lit(e.institution.name.value)))
  {
    if HasInstitution(e) {
      HoldingShape(PersonIri(e.name), PositionOf(e), counter, StartDate(e), EndDate(e), t);
    }
  }

  /** A name triple of one turn names its person, its institution, or its Position when it is the first holder. */
  lemma TurnNames(es: seq<Entry>, i: nat, counter: nat, t: Triple)
    requires t in TurnTriples(es, i, counter) && t.p == Rico("name")
    ensures i < |es|
    ensures || t == Triple(PersonIri(es[i].name), Rico("name"), Lit(es[i].name))
            || (HasInstitution(es[i]) && t.s == InstitutionIri(es[i].institution.name.value))
            || (IsFirstHolder(es, i) && t == Triple(PositionOf(es[i]), Rico("name"), Lit(es[i].role)))
  {
    EntryNames(es[i], counter, t);
  }

  /** Person, institution and Position IRIs live under different prefixes. */
  lemma PositionIriDistinct(role: string, instName: string, name: string, other: string)
    ensures PositionIri(role, instName) != PersonIri(name)
    ensures PositionIri(role, instName) != InstitutionIri(other)
  {
    PrefixesDiffer("position/", PositionId(role, instName), "person/", Show(CreateUriSafeString(Some(name))), 1);
    PrefixesDiffer("position/", PositionId(role, instName), "institution/", Show(CreateUriSafeString(Some(other))), 0);
  }

  /**
   * A Position keeps the raw role of its first holder as its only name:
   * a later entry whose role and institution give the same slugs but are
   * spelled differently adds no second name.
   */
  lemma PositionNamedByFirstHolder(es: seq<Entry>, counter: nat, j: nat, n: string)
    requires j < |es| && IsFirstHolder(es, j)
    ensures Triple(PositionOf(es[j]), Rico("name"), Lit(n)) in EducationTriples(es, counter) <==> n == es[j].role
  {
    var t := Triple(PositionOf(es[j]), Rico("name"), Lit(n));
    if t in EducationTriples(es, counter) {
      FromTurn(es, counter, t);
      var i :| 0 <= i < |es| && t in TurnTriples(es, i, counter);
      TurnNames(es, i, counter, t);
      PositionIriDistinct(es[j].role, es[j].institution.name.value, es[i].name,
        if HasInstitution(es[i]) then es[i].institution.name.value else "");
      FirstHolderUnique(es, i, j);
    }
    if n == es[j].role {
      assert t in TurnTriples(es, j, counter);
      TurnInGraph(es, counter, j, t);
    }
  }

  /** `beginningDate` or `endingDate`. */
  function DateProperty(begin: bool): string
  {
    if begin then "beginningDate" else "endingDate"
  }

  /** The parsed start or end date of an entry. */
  function PeriodDate(e: Entry, begin: bool): Option<string>
  {
    if begin then StartDate(e) else EndDate(e)
  }

  /** A date triple of one turn dates that turn's holding relation with the parsed date. */
  lemma TurnDates(es: seq<Entry>, i: nat, counter: nat, begin: bool, t: Triple)
    requires t in TurnTriples(es, i, counter) && t.p == Rico(DateProperty(begin))
    ensures i < |es| && HasInstitution(es[i]) && PeriodDate(es[i], begin).Some?
    ensures t == Triple(HoldingIriOf(es[i], counter), Rico(DateProperty(begin)), DateLit(PeriodDate(es[i], begin).value))
  {
    assert i < |es|;
    NoDatesOutsideHolding(es[i], begin, t);
    EntryDates(es[i], counter, begin, t);
  }

  /** Of an entry's own triples, only its holding relation's carry dates. */
  lemma EntryDates(e: Entry, counter: nat, begin: bool, t: Triple)
    ensures t in EntryTriples(e, counter) && t.p == Rico(DateProperty(begin)) ==>
      HasInstitution(e) && PeriodDate(e, begin).Some?
      && t == Triple(HoldingIriOf(e, counter), Rico(DateProperty(begin)), DateLit(PeriodDate(e, begin).value))
  {
    if t in EntryTriples(e, counter) && t.p == Rico(DateProperty(begin)) {
      NoDatesOutsideHolding(e, begin, t);
      HoldingShape(PersonIri(e.name), PositionOf(e), counter, StartDate(e), EndDate(e), t);
    }
  }

  lemma NoDatesOutsideHolding(e: Entry, begin: bool, t: Triple)
    requires t.p == Rico(DateProperty(begin))
    ensures t !in PersonTriples(e.name)
    ensures HasInstitution(e) ==> t !in InstitutionTriples(e) && t !in PositionTriples(e)
  {
  }

  /**
   * A holding relation carries a beginning (ending) date exactly when its
   * entry has a period whose start (end) parses, and the date is the parsed
   * one; an unparsable or missing date leaves the relation undated.
   */
  lemma HoldingDated(es: seq<Entry>, counter: nat, begin: bool, r: Term, o: Term)
    ensures Triple(r, Rico(DateProperty(begin)), o) in EducationTriples(es, counter) <==>
      exists i :: 0 <= i < |es| && HasInstitution(es[i]) && r == HoldingIriOf(es[i], counter)
        && PeriodDate(es[i], begin).Some? && o == DateLit(PeriodDate(es[i], begin).value)
  {
    var t := Triple(r, Rico(DateProperty(begin)), o);
    if t in EducationTriples(es, counter) {
      FromTurn(es, counter, t);
      var i :| 0 <= i < |es| && t in TurnTriples(es, i, counter);
      TurnDates(es, i, counter, begin, t);
    }
    if exists i :: 0 <= i < |es| && HasInstitution(es[i]) && r == HoldingIriOf(es[i], counter)
         && PeriodDate(es[i], begin).Some? && o == DateLit(PeriodDate(es[i], begin).value) {
      var i :| 0 <= i < |es| && HasInstitution(es[i]) && r == HoldingIriOf(es[i], counter)
        && PeriodDate(es[i], begin).Some? && o == DateLit(PeriodDate(es[i], begin).value);
      HoldingInGraph(es, counter, i);
      PeriodDateTruthy(es[i], begin);
      HoldingHasDate(PersonIri(es[i].name), PositionOf(es[i]), counter, StartDate(es[i]), EndDate(es[i]), begin);
    }
  }

  /** A parsed date is never the empty text, so the `if start_date:` test passes exactly when it parsed. */
  lemma PeriodDateTruthy(e: Entry, begin: bool)
    ensures PeriodDate(e, begin).Some? ==> Truthy(PeriodDate(e, begin))
  {
  }

  /** A truthy date gives the holding relation its date triple. */
  lemma HoldingHasDate(person: Term, position: Term, counter: nat, startDate: Option<string>, endDate: Option<string>, begin: bool)
    requires Truthy(if begin then startDate else endDate)
    ensures Triple(HoldingRelationIri(person, position, counter), Rico(DateProperty(begin)),
      DateLit((if begin then startDate else endDate).value)) in HoldingTriples(person, position, counter, startDate, endDate)
  {
  }
}
