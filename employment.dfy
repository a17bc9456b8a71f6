/**
 * employment_events/employment_mapping.py: each employment entry asserts a
 * Person; every organisation the person works for then asserts the
 * CorporateBody, a Position for (role, organisation) the first time its id is
 * seen, a PositionHoldingRelation from the person to that Position, the
 * entry's dates on the relation, and the entry's location as the place of the
 * organisation.
 *
 * This file's `create_uri_safe_string` and `parse_date` behave exactly as the
 * politics converter's, so the model uses `Politics.CreateUriSafeString` and
 * `Politics.ParseDate`.
 */
module Employment {
  import opened PyBuiltins
  import opened Rdf
  import opened Accumulate
  import Politics

  /** `EX = Namespace("http://example.org/#")` */
  const EX: Namespace := ExampleHash

  /** `f"{create_uri_safe_string(text)}"`: the slug, or "None" for an empty text. */
  function SlugText(text: string): string
  {
    Show(Politics.CreateUriSafeString(Some(text)))
  }

  /** One entry of `worksFor`; `orgType` is None when the `type` key is absent. */
  datatype Org = Org(name: string, orgType: Option<string>)

  /** One entry of `employment`; `location` is None when the key is absent. */
  datatype Employment = Employment(
    name: string,
    role: string,
    worksFor: seq<Org>,
    date: Politics.DateRange,
    location: Option<Politics.Location>)

  /** One turn of the inner loop: an entry and one organisation it works for. */
  datatype Job = Job(emp: Employment, org: Org)

  /** `emp.get("location") and emp["location"].get("label")` */
  predicate HasLocation(e: Employment)
  {
    e.location.Some? && Truthy(e.location.value.labelText)
  }

  /** `emp["location"]["label"]` */
  function PlaceLabel(e: Employment): string
    requires HasLocation(e)
  {
    e.location.value.labelText.value
  }

  function PersonIri(name: string): Term
  {
    Iri(EX, "person/" + SlugText(name))
  }

  function OrgIri(org: Org): Term
  {
    Iri(EX, "corporatebody/" + SlugText(org.name))
  }

  /** `position_id`: the role slug and the organisation slug. */
  function PositionId(job: Job): string
  {
    SlugText(job.emp.role) + "_" + SlugText(job.org.name)
  }

  function PositionIri(job: Job): Term
  {
    Iri(EX, "position/" + PositionId(job))
  }

  /** The holding relation's IRI: person, role and counter, and no organisation. */
  function RelationIri(e: Employment, counter: nat): Term
  {
    Iri(EX, "positionHoldingRelation/" + SlugText(e.name) + "_" + SlugText(e.role) + "_" + NatToString(counter))
  }

  function PlaceIri(placeLabel: string): Term
  {
    Iri(EX, "place/" + SlugText(placeLabel))
  }

  /** The person every entry asserts. */
  function PersonTriples(name: string): set<Triple>
  {
    {Triple(PersonIri(name), RDF_TYPE, Rico("Person")), Triple(PersonIri(name), Rico("name"), Lit(name))}
  }

  /** The Position, asserted the first time its id is seen. */
  function PositionTriples(job: Job): set<Triple>
  {
    var x := PositionIri(job);
    {Triple(x, RDF_TYPE, Rico("Position")), Triple(x, Rico("name"), Lit(job.emp.role)),
     Triple(x, Rico("existsOrExistedIn"), OrgIri(job.org))}
  }

  /** The organisation, with its type when that is truthy. */
  function OrgTriples(org: Org): set<Triple>
  {
    var o := OrgIri(org);
    {Triple(o, RDF_TYPE, Rico("CorporateBody")), Triple(o, Rico("name"), Lit(org.name))}
    + (if Truthy(org.orgType) then {Triple(o, Rico("corporateBodyType"), Lit(org.orgType.value))} else {})
  }

  /** The holding relation from the person to the Position. */
  function RelationTriples(job: Job, counter: nat): set<Triple>
  {
    var r := RelationIri(job.emp, counter);
    {Triple(r, RDF_TYPE, Rico("PositionHoldingRelation")),
     Triple(r, Rico("relationHasSource"), PersonIri(job.emp.name)),
     Triple(r, Rico("relationHasTarget"), PositionIri(job))}
  }

  /** The relation's dates, each when present and parsed. */
  function DateTriples(e: Employment, counter: nat): set<Triple>
  {
    var r := RelationIri(e, counter);
    Politics.DateTriple(r, "beginningDate", e.date.startDate) + Politics.DateTriple(r, "endDate", e.date.endDate)
  }

  /** The entry's place, located from the organisation, when the location has a truthy label. */
  function PlaceTriples(job: Job): set<Triple>
  {
    if HasLocation(job.emp) then
      var loc := job.emp.location.value;
      var place := PlaceIri(PlaceLabel(job.emp));
      {Triple(place, RDF_TYPE, Rico("Place")), Triple(place, Rico("name"), Lit(PlaceLabel(job.emp))),
       Triple(OrgIri(job.org), Rico("isLocatedAt"), place)}
      + (if Truthy(loc.description) then {Triple(place, Rico("description"), Lit(loc.description.value))} else {})
    else {}
  }

  /** What one inner turn adds; `newPosition` is the `position_id not in created_positions` test. */
  function JobEffect(job: Job, counter: nat, newPosition: bool): set<Triple>
  {
    (if newPosition then PositionTriples(job) else {}) + OrgTriples(job.org) + RelationTriples(job, counter)
    + DateTriples(job.emp, counter) + PlaceTriples(job)
  }

  /** The entry's inner turns. */
  function EntryJobs(e: Employment): (r: seq<Job>)
    ensures |r| == |e.worksFor|
    ensures forall j :: 0 <= j < |r| ==> r[j] == Job(e, e.worksFor[j])
  {
    seq(|e.worksFor|, j requires 0 <= j < |e.worksFor| => Job(e, e.worksFor[j]))
  }

  function EntryJobsOf(es: seq<Employment>): nat -> seq<Job>
  {
    (i: nat) => if i < |es| then EntryJobs(es[i]) else []
  }

  /** Every inner turn of the nested loops, in loop order. */
  function Jobs(es: seq<Employment>): seq<Job>
  {
    ConcatUpTo(|es|, EntryJobsOf(es))
  }

  /** The number of inner turns before entry `i`. */
  function JobStart(es: seq<Employment>, i: nat): nat
  {
    |ConcatUpTo(i, EntryJobsOf(es))|
  }

  /** No earlier inner turn has the Position id of turn `k`. */
  predicate IsFirstUse(jobs: seq<Job>, k: nat)
    requires k < |jobs|
  {
    forall k' :: 0 <= k' < k ==> PositionId(jobs[k']) != PositionId(jobs[k])
  }

  /** `created_positions` after the first `n` inner turns. */
  function Created(jobs: seq<Job>, n: nat): set<string>
    requires n <= |jobs|
  {
    set k | 0 <= k < n :: PositionId(jobs[k])
  }

  /** What inner turn `k` adds: its Position only when it is the first use of the id. */
  function JobTriples(jobs: seq<Job>, k: nat, counter: nat): set<Triple>
  {
    if k >= |jobs| then {} else JobEffect(jobs[k], counter, IsFirstUse(jobs, k))
  }

  function JobTurns(jobs: seq<Job>, counter: nat): nat -> set<Triple>
  {
    (k: nat) => JobTriples(jobs, k, counter)
  }

  function PersonTurns(es: seq<Employment>): nat -> set<Triple>
  {
    (i: nat) => if i < |es| then PersonTriples(es[i].name) else {}
  }

  /** The graph `create_employment_graph(event, counter)` returns. */
  function EmploymentTriples(es: seq<Employment>, counter: nat): set<Triple>
  {
    UnionUpTo(|es|, PersonTurns(es)) + UnionUpTo(|Jobs(es)|, JobTurns(Jobs(es), counter))
  }

  /** Inner turn `j` of entry `i` sits at index `JobStart(es, i) + j` of the flat sequence. */
  lemma JobAt(es: seq<Employment>, i: nat, j: nat)
    requires i < |es| && j < |es[i].worksFor|
    ensures JobStart(es, i) + j < |Jobs(es)|
    ensures Jobs(es)[JobStart(es, i) + j] == Job(es[i], es[i].worksFor[j])
  {
    assert EntryJobsOf(es)(i) == EntryJobs(es[i]);
    ConcatUpToPrefix(i + 1, |es|, EntryJobsOf(es));
    var pre := ConcatUpTo(i + 1, EntryJobsOf(es));
    assert pre[JobStart(es, i) + j] == EntryJobs(es[i])[j];
  }

  /** Entry `i` contributes one inner turn per organisation. */
  lemma JobStartStep(es: seq<Employment>, i: nat)
    requires i < |es|
    ensures JobStart(es, i + 1) == JobStart(es, i) + |es[i].worksFor|
  {
    assert EntryJobsOf(es)(i) == EntryJobs(es[i]);
  }

  /** An inner turn pairs an entry with one of the organisations it works for. */
  lemma JobsMember(es: seq<Employment>, job: Job)
    ensures job in Jobs(es) <==> exists i :: 0 <= i < |es| && job.emp == es[i] && job.org in es[i].worksFor
  {
    ConcatUpToMember(|es|, EntryJobsOf(es), job);
    if job in Jobs(es) {
      var i :| 0 <= i < |es| && job in EntryJobsOf(es)(i);
      assert job in EntryJobs(es[i]);
      var j :| 0 <= j < |es[i].worksFor| && EntryJobs(es[i])[j] == job;
      assert job.org in es[i].worksFor;
    }
    if exists i :: 0 <= i < |es| && job.emp == es[i] && job.org in es[i].worksFor {
      var i :| 0 <= i < |es| && job.emp == es[i] && job.org in es[i].worksFor;
      var j :| 0 <= j < |es[i].worksFor| && es[i].worksFor[j] == job.org;
      assert EntryJobs(es[i])[j] == job;
      assert job in EntryJobsOf(es)(i);
    }
  }

  /** The test `position_id not in created_positions` picks out the first use of the id. */
  lemma NewPositionIffFirstUse(jobs: seq<Job>, k: nat)
    requires k < |jobs|
    ensures PositionId(jobs[k]) !in Created(jobs, k) <==> IsFirstUse(jobs, k)
  {
    if PositionId(jobs[k]) in Created(jobs, k) {
      var k' :| 0 <= k' < k && PositionId(jobs[k']) == PositionId(jobs[k]);
    }
  }

  /** `created_positions` grows by exactly the id of each turn, new or not. */
  lemma CreatedStep(jobs: seq<Job>, k: nat)
    requires k < |jobs|
    ensures Created(jobs, k + 1) == Created(jobs, k) + {PositionId(jobs[k])}
  {
  }

  /** Inner turn `k` of the fold, with the first-use test replaced by the set test. */
  lemma JobsStep(jobs: seq<Job>, k: nat, counter: nat)
    requires k < |jobs|
    ensures UnionUpTo(k + 1, JobTurns(jobs, counter)) ==
      UnionUpTo(k, JobTurns(jobs, counter)) + JobEffect(jobs[k], counter, PositionId(jobs[k]) !in Created(jobs, k))
  {
    NewPositionIffFirstUse(jobs, k);
    assert JobTurns(jobs, counter)(k) == JobTriples(jobs, k, counter);
  }

  lemma PersonsStep(es: seq<Employment>, i: nat)
    requires i < |es|
    ensures UnionUpTo(i + 1, PersonTurns(es)) == UnionUpTo(i, PersonTurns(es)) + PersonTriples(es[i].name)
  {
    assert PersonTurns(es)(i) == PersonTriples(es[i].name);
  }

  /** Some turn at or before `k` is the first use of turn `k`'s Position id. */
  lemma {:induction false} FirstUseExists(jobs: seq<Job>, k: nat)
    requires k < |jobs|
    ensures exists k' :: 0 <= k' <= k && IsFirstUse(jobs, k') && PositionId(jobs[k']) == PositionId(jobs[k])
    decreases k
  {
    if !IsFirstUse(jobs, k) {
      var k' :| 0 <= k' < k && PositionId(jobs[k']) == PositionId(jobs[k]);
      FirstUseExists(jobs, k');
      var k'' :| 0 <= k'' <= k' && IsFirstUse(jobs, k'') && PositionId(jobs[k'']) == PositionId(jobs[k']);
      assert 0 <= k'' <= k && IsFirstUse(jobs, k'') && PositionId(jobs[k'']) == PositionId(jobs[k]);
    } else {
      assert 0 <= k <= k && IsFirstUse(jobs, k) && PositionId(jobs[k]) == PositionId(jobs[k]);
    }
  }

  /** Two first uses of the same id are the same turn. */
  lemma FirstUseUnique(jobs: seq<Job>, k1: nat, k2: nat)
    requires k1 < |jobs| && k2 < |jobs| && IsFirstUse(jobs, k1) && IsFirstUse(jobs, k2)
    requires PositionId(jobs[k1]) == PositionId(jobs[k2])
    ensures k1 == k2
  {
  }

  /** A triple of the graph comes from an entry's person or from one inner turn. */
  lemma GraphMember(es: seq<Employment>, counter: nat, t: Triple)
    ensures t in EmploymentTriples(es, counter) <==>
      || (exists i :: 0 <= i < |es| && t in PersonTriples(es[i].name))
      || (exists k :: 0 <= k < |Jobs(es)| && t in JobTriples(Jobs(es), k, counter))
  {
    PersonsPartMember(es, t);
    JobsPartMember(Jobs(es), counter, t);
  }

  /** The outer loop's person triples: a triple is there iff one entry's person part adds it. */
  lemma PersonsPartMember(es: seq<Employment>, t: Triple)
    ensures t in UnionUpTo(|es|, PersonTurns(es)) <==> exists i :: 0 <= i < |es| && t in PersonTriples(es[i].name)
  {
    UnionUpToMember(|es|, PersonTurns(es), t);
    if exists i :: 0 <= i < |es| && t in PersonTurns(es)(i) {
      var i :| 0 <= i < |es| && t in PersonTurns(es)(i);
      assert t in PersonTriples(es[i].name);
    }
    if exists i :: 0 <= i < |es| && t in PersonTriples(es[i].name) {
      var i :| 0 <= i < |es| && t in PersonTriples(es[i].name);
      assert t in PersonTurns(es)(i);
    }
  }

  /** The inner turns' triples: a triple is there iff one turn adds it. */
  lemma JobsPartMember(jobs: seq<Job>, counter: nat, t: Triple)
    ensures t in UnionUpTo(|jobs|, JobTurns(jobs, counter)) <==> exists k :: 0 <= k < |jobs| && t in JobTriples(jobs, k, counter)
  {
    UnionUpToMember(|jobs|, JobTurns(jobs, counter), t);
    if exists k :: 0 <= k < |jobs| && t in JobTurns(jobs, counter)(k) {
      var k :| 0 <= k < |jobs| && t in JobTurns(jobs, counter)(k);
      assert t in JobTriples(jobs, k, counter);
    }
    if exists k :: 0 <= k < |jobs| && t in JobTriples(jobs, k, counter) {
      var k :| 0 <= k < |jobs| && t in JobTriples(jobs, k, counter);
      assert t in JobTurns(jobs, counter)(k);
    }
  }


  /** A triple added by inner turn `k` is in the graph. */
  lemma JobInGraph(es: seq<Employment>, counter: nat, k: nat, t: Triple)
    requires k < |Jobs(es)| && t in JobTriples(Jobs(es), k, counter)
    ensures t in EmploymentTriples(es, counter)
  {
    GraphMember(es, counter, t);
  }

  /** A triple of the graph with a predicate other than `type` and `name` comes from an inner turn. */
  lemma FromJob(es: seq<Employment>, counter: nat, t: Triple)
    requires t in EmploymentTriples(es, counter) && t.p != RDF_TYPE && t.p != Rico("name")
    ensures exists k :: 0 <= k < |Jobs(es)| && t in JobTriples(Jobs(es), k, counter)
  {
    GraphMember(es, counter, t);
  }

  /** `create_employment_graph(event, counter)`, over `event["data"]["employment"]`. */
  method CreateEmploymentGraph(es: seq<Employment>, counter: nat) returns (g: Graph)
    ensures fresh(g) && g.triples == EmploymentTriples(es, counter)
  {
    g := new Graph();
    JobsLayout(es);
    assert TurnsAre(JobTurns(Jobs(es), counter), Jobs(es), counter);
    assert forall i :: 0 <= i < |es| ==> PersonTurns(es)(i) == PersonTriples(es[i].name);
    AddEntries(g, es, counter, Jobs(es), PersonTurns(es), JobTurns(Jobs(es), counter));
  }

  /** `turns(k)` is what inner turn `k` adds. */
  ghost predicate TurnsAre(turns: nat -> set<Triple>, jobs: seq<Job>, counter: nat)
  {
    forall k {:trigger JobTriples(jobs, k, counter)} :: 0 <= k < |jobs| ==> turns(k) == JobTriples(jobs, k, counter)
  }

  /** The turns of entry `emp` are `jobs[start..start + |emp.worksFor|]`. */
  ghost predicate LaidOut(jobs: seq<Job>, start: nat, emp: Employment)
  {
    start + |emp.worksFor| <= |jobs| && forall j :: 0 <= j < |emp.worksFor| ==> jobs[start + j] == Job(emp, emp.worksFor[j])
  }

  /** The turns of entry `i` start at `JobStart(es, i)`. */
  lemma JobsLayout(es: seq<Employment>)
    ensures forall i :: 0 <= i < |es| ==> LaidOut(Jobs(es), JobStart(es, i), es[i])
    ensures JobStart(es, |es|) == |Jobs(es)|
  {
    forall i | 0 <= i < |es|
      ensures LaidOut(Jobs(es), JobStart(es, i), es[i])
    {
      JobStartStep(es, i);
      ConcatUpToPrefix(i + 1, |es|, EntryJobsOf(es));
      forall j | 0 <= j < |es[i].worksFor|
        ensures Jobs(es)[JobStart(es, i) + j] == Job(es[i], es[i].worksFor[j])
      {
        JobAt(es, i, j);
      }
    }
  }

  /**
   * The outer loop over `event["data"]["employment"]`. `personTurns` and
   * `turns` are what each entry's person and each inner turn add.
   */
  method AddEntries(g: Graph, es: seq<Employment>, counter: nat, ghost jobs: seq<Job>,
                    ghost personTurns: nat -> set<Triple>, ghost turns: nat -> set<Triple>)
    requires g.triples == {} && JobStart(es, |es|) == |jobs|
    requires forall i :: 0 <= i < |es| ==> personTurns(i) == PersonTriples(es[i].name)
    requires forall i :: 0 <= i < |es| ==> LaidOut(jobs, JobStart(es, i), es[i])
    requires TurnsAre(turns, jobs, counter)
    modifies g
    ensures g.triples == UnionUpTo(|es|, personTurns) + UnionUpTo(|jobs|, turns)
  {
    var createdPositions: set<string> := {};
    for i := 0 to |es|
      invariant JobStart(es, i) <= |jobs|
      invariant g.triples == UnionUpTo(i, personTurns) + UnionUpTo(JobStart(es, i), turns)
      invariant createdPositions == Created(jobs, JobStart(es, i))
    {
      createdPositions := AddEntry(g, es, i, counter, createdPositions, jobs, personTurns, turns);
    }
  }

  /** One turn of the outer loop, on the entry at index `i`. */
  method AddEntry(g: Graph, es: seq<Employment>, i: nat, counter: nat, createdPositions: set<string>,
                  ghost jobs: seq<Job>, ghost personTurns: nat -> set<Triple>, ghost turns: nat -> set<Triple>)
    returns (created: set<string>)
    requires i < |es| && personTurns(i) == PersonTriples(es[i].name)
    requires LaidOut(jobs, JobStart(es, i), es[i]) && TurnsAre(turns, jobs, counter)
    requires g.triples == UnionUpTo(i, personTurns) + UnionUpTo(JobStart(es, i), turns)
    requires createdPositions == Created(jobs, JobStart(es, i))
    modifies g
    ensures JobStart(es, i + 1) <= |jobs|
    ensures g.triples == UnionUpTo(i + 1, personTurns) + UnionUpTo(JobStart(es, i + 1), turns)
    ensures created == Created(jobs, JobStart(es, i + 1))
  {
    var emp := es[i];
    AddPerson(g, emp.name);
    JobStartStep(es, i);
    created := AddEntryJobs(g, emp, counter, createdPositions, jobs, JobStart(es, i),
                            UnionUpTo(i + 1, personTurns), turns);
  }

  /**
   * The inner loop over `emp["worksFor"]`, whose turns are `jobs[start..]`;
   * `persons` is what the entries' persons have added so far.
   */
  method AddEntryJobs(g: Graph, emp: Employment, counter: nat, createdPositions: set<string>,
                      ghost jobs: seq<Job>, ghost start: nat, ghost persons: set<Triple>,
                      ghost turns: nat -> set<Triple>)
    returns (created: set<string>)
    requires LaidOut(jobs, start, emp)
    requires TurnsAre(turns, jobs, counter)
    requires g.triples == persons + UnionUpTo(start, turns)
    requires createdPositions == Created(jobs, start)
    modifies g
    ensures g.triples == persons + UnionUpTo(start + |emp.worksFor|, turns)
    ensures created == Created(jobs, start + |emp.worksFor|)
  {
    created := createdPositions;
    for j := 0 to |emp.worksFor|
      invariant g.triples == persons + UnionUpTo(start + j, turns)
      invariant created == Created(jobs, start + j)
    {
      created := AddTurn(g, emp, emp.worksFor[j], counter, created, jobs, start + j, turns);
    }
  }

  /** Inner turn `k`, on the entry `emp` and the organisation `org`. */
  method AddTurn(g: Graph, emp: Employment, org: Org, counter: nat, createdPositions: set<string>,
                 ghost jobs: seq<Job>, ghost k: nat, ghost turns: nat -> set<Triple>)
    returns (created: set<string>)
    requires k < |jobs| && jobs[k] == Job(emp, org)
    requires TurnsAre(turns, jobs, counter)
    requires createdPositions == Created(jobs, k)
    modifies g
    ensures g.triples == old(g.triples) + turns(k)
    ensures created == Created(jobs, k + 1)
  {
    assert turns(k) == JobTriples(jobs, k, counter);
    NewPositionIffFirstUse(jobs, k);
    CreatedStep(jobs, k);
    created := AddJob(g, emp, org, counter, createdPositions);
  }

  /** The two person triples of every entry. */
  method AddPerson(g: Graph, name: string)
    modifies g
    ensures g.triples == old(g.triples) + PersonTriples(name)
  {
    var personUri := PersonIri(name);
    g.Add(personUri, RDF_TYPE, Rico("Person"));
    g.Add(personUri, Rico("name"), Lit(name));
  }

  /** One turn of the inner loop. */
  method AddJob(g: Graph, emp: Employment, org: Org, counter: nat, createdPositions: set<string>)
    returns (created: set<string>)
    modifies g
    ensures g.triples == old(g.triples) + JobEffect(Job(emp, org), counter, PositionId(Job(emp, org)) !in createdPositions)
    ensures created == createdPositions + {PositionId(Job(emp, org))}
  {
    var job := Job(emp, org);
    var positionId := PositionId(job);
    created := createdPositions;
    if positionId !in created {
      AddPosition(g, job);
      created := created + {positionId};
    } else {
      assert g.triples == old(g.triples) + {};
    }
    AddOrg(g, org);
    AddRelation(g, job, counter);
    AddDates(g, emp, counter);
    AddPlace(g, job);
  }

  /** A new Position. */
  method AddPosition(g: Graph, job: Job)
    modifies g
    ensures g.triples == old(g.triples) + PositionTriples(job)
  {
    var positionUri := PositionIri(job);
    g.Add(positionUri, RDF_TYPE, Rico("Position"));
    g.Add(positionUri, Rico("name"), Lit(job.emp.role));
    g.Add(positionUri, Rico("existsOrExistedIn"), OrgIri(job.org));
  }

  /** The organisation. */
  method AddOrg(g: Graph, org: Org)
    modifies g
    ensures g.triples == old(g.triples) + OrgTriples(org)
  {
    var orgUri := OrgIri(org);
    g.Add(orgUri, RDF_TYPE, Rico("CorporateBody"));
    g.Add(orgUri, Rico("name"), Lit(org.name));
    if Truthy(org.orgType) {
      g.Add(orgUri, Rico("corporateBodyType"), Lit(org.orgType.value));
    }
  }

  /** The holding relation. */
  method AddRelation(g: Graph, job: Job, counter: nat)
    modifies g
    ensures g.triples == old(g.triples) + RelationTriples(job, counter)
  {
    var relationUri := RelationIri(job.emp, counter);
    g.Add(relationUri, RDF_TYPE, Rico("PositionHoldingRelation"));
    g.Add(relationUri, Rico("relationHasSource"), PersonIri(job.emp.name));
    g.Add(relationUri, Rico("relationHasTarget"), PositionIri(job));
  }

  /** The relation's dates. */
  method AddDates(g: Graph, emp: Employment, counter: nat)
    modifies g
    ensures g.triples == old(g.triples) + DateTriples(emp, counter)
  {
    var relationUri := RelationIri(emp, counter);
    if Truthy(emp.date.startDate) {
      var startDate := Politics.ParseDate(emp.date.startDate);
      if Truthy(startDate) {
        g.Add(relationUri, Rico("beginningDate"), DateLit(startDate.value));
      }
    }
    if Truthy(emp.date.endDate) {
      var endDate := Politics.ParseDate(emp.date.endDate);
      if Truthy(endDate) {
        g.Add(relationUri, Rico("endDate"), DateLit(endDate.value));
      }
    }
  }

  /** The entry's place, when its location has a truthy label. */
  method AddPlace(g: Graph, job: Job)
    modifies g
    ensures g.triples == old(g.triples) + PlaceTriples(job)
  {
    var emp := job.emp;
    if emp.location.Some? && Truthy(emp.location.value.labelText) {
      var placeLabel := emp.location.value.labelText.value;
      var placeUri := PlaceIri(placeLabel);
      g.Add(placeUri, RDF_TYPE, Rico("Place"));
      g.Add(placeUri, Rico("name"), Lit(placeLabel));
      g.Add(OrgIri(job.org), Rico("isLocatedAt"), placeUri);
      if Truthy(emp.location.value.description) {
        g.Add(placeUri, Rico("description"), Lit(emp.location.value.description.value));
      }
    }
  }

  /** The Position part: typed, named by the role, existing in the organisation. */
  lemma PositionShape(job: Job, t: Triple)
    ensures t in PositionTriples(job) ==>
      t.s == PositionIri(job) && (
        || (t.p == RDF_TYPE && t.o == Rico("Position"))
        || (t.p == Rico("name") && t.o == Lit(job.emp.role))
        || (t.p == Rico("existsOrExistedIn") && t.o == OrgIri(job.org)))
  {
  }

  /** The organisation part: typed, named, and typed by `type` when that is truthy. */
  lemma OrgShape(org: Org, t: Triple)
    ensures t in OrgTriples(org) ==>
      t.s == OrgIri(org) && (
        || (t.p == RDF_TYPE && t.o == Rico("CorporateBody"))
        || (t.p == Rico("name") && t.o == Lit(org.name))
        || (t.p == Rico("corporateBodyType") && Truthy(org.orgType) && t.o == Lit(org.orgType.value)))
  {
  }

  /** The relation part: typed, from the person, to the Position. */
  lemma RelationShape(job: Job, counter: nat, t: Triple)
    ensures t in RelationTriples(job, counter) ==>
      t.s == RelationIri(job.emp, counter) && (
        || (t.p == RDF_TYPE && t.o == Rico("PositionHoldingRelation"))
        || (t.p == Rico("relationHasSource") && t.o == PersonIri(job.emp.name))
        || (t.p == Rico("relationHasTarget") && t.o == PositionIri(job)))
  {
  }

  /** The place part: the place, its name and description, and the organisation located at it. */
  lemma PlaceShape(job: Job, t: Triple)
    ensures t in PlaceTriples(job) ==>
      HasLocation(job.emp) && (
        || t == Triple(PlaceIri(PlaceLabel(job.emp)), RDF_TYPE, Rico("Place"))
        || t == Triple(PlaceIri(PlaceLabel(job.emp)), Rico("name"), Lit(PlaceLabel(job.emp)))
        || t == Triple(OrgIri(job.org), Rico("isLocatedAt"), PlaceIri(PlaceLabel(job.emp)))
        || (t.s == PlaceIri(PlaceLabel(job.emp)) && t.p == Rico("description")))
  {
  }

  /** The parts of an inner turn. */
  lemma JobParts(job: Job, counter: nat, newPosition: bool, t: Triple)
    ensures t in JobEffect(job, counter, newPosition) <==>
      || (newPosition && t in PositionTriples(job)) || t in OrgTriples(job.org)
      || t in RelationTriples(job, counter) || t in DateTriples(job.emp, counter) || t in PlaceTriples(job)
  {
  }

  /** What an inner turn types. */
  lemma JobTypes(job: Job, counter: nat, newPosition: bool, t: Triple)
    ensures t in JobEffect(job, counter, newPosition) && t.p == RDF_TYPE ==>
      || (newPosition && t == Triple(PositionIri(job), RDF_TYPE, Rico("Position")))
      || t == Triple(OrgIri(job.org), RDF_TYPE, Rico("CorporateBody"))
      || t == Triple(RelationIri(job.emp, counter), RDF_TYPE, Rico("PositionHoldingRelation"))
      || (HasLocation(job.emp) && t == Triple(PlaceIri(PlaceLabel(job.emp)), RDF_TYPE, Rico("Place")))
  {
    JobParts(job, counter, newPosition, t);
    PositionShape(job, t);
    OrgShape(job.org, t);
    RelationShape(job, counter, t);
    DateShape(job.emp, counter, t);
    PlaceShape(job, t);
  }

  /** What an inner turn names. */
  lemma JobNames(job: Job, counter: nat, newPosition: bool, t: Triple)
    ensures t in JobEffect(job, counter, newPosition) && t.p == Rico("name") ==>
      || (newPosition && t == Triple(PositionIri(job), Rico("name"), Lit(job.emp.role)))
      || t == Triple(OrgIri(job.org), Rico("name"), Lit(job.org.name))
      || (HasLocation(job.emp) && t == Triple(PlaceIri(PlaceLabel(job.emp)), Rico("name"), Lit(PlaceLabel(job.emp))))
  {
    JobParts(job, counter, newPosition, t);
    PositionShape(job, t);
    OrgShape(job.org, t);
    RelationShape(job, counter, t);
    DateShape(job.emp, counter, t);
    PlaceShape(job, t);
  }

  /** The links an inner turn adds, by predicate. */
  lemma JobLinks(job: Job, counter: nat, newPosition: bool, t: Triple)
    ensures t in JobEffect(job, counter, newPosition) && t.p == Rico("existsOrExistedIn") ==>
      newPosition && t == Triple(PositionIri(job), Rico("existsOrExistedIn"), OrgIri(job.org))
    ensures t in JobEffect(job, counter, newPosition) && t.p == Rico("corporateBodyType") ==>
      Truthy(job.org.orgType) && t == Triple(OrgIri(job.org), Rico("corporateBodyType"), Lit(job.org.orgType.value))
    ensures t in JobEffect(job, counter, newPosition) && t.p == Rico("relationHasSource") ==>
      t == Triple(RelationIri(job.emp, counter), Rico("relationHasSource"), PersonIri(job.emp.name))
    ensures t in JobEffect(job, counter, newPosition) && t.p == Rico("relationHasTarget") ==>
      t == Triple(RelationIri(job.emp, counter), Rico("relationHasTarget"), PositionIri(job))
    ensures t in JobEffect(job, counter, newPosition) && (t.p == Rico("beginningDate") || t.p == Rico("endDate")) ==>
      t in DateTriples(job.emp, counter)
    ensures t in JobEffect(job, counter, newPosition) && t.p == Rico("isLocatedAt") ==>
      HasLocation(job.emp) && t == Triple(OrgIri(job.org), Rico("isLocatedAt"), PlaceIri(PlaceLabel(job.emp)))
  {
    JobParts(job, counter, newPosition, t);
    PositionShape(job, t);
    OrgShape(job.org, t);
    RelationShape(job, counter, t);
    DateShape(job.emp, counter, t);
    PlaceShape(job, t);
  }

  /** The date part holds the relation's parsed start and end dates and nothing else. */
  lemma DateShape(e: Employment, counter: nat, t: Triple)
    ensures t in DateTriples(e, counter) <==>
      || (Politics.ParseDate(e.date.startDate).Some?
          && t == Triple(RelationIri(e, counter), Rico("beginningDate"), DateLit(Politics.ParseDate(e.date.startDate).value)))
      || (Politics.ParseDate(e.date.endDate).Some?
          && t == Triple(RelationIri(e, counter), Rico("endDate"), DateLit(Politics.ParseDate(e.date.endDate).value)))
  {
    Politics.DateTripleMember(RelationIri(e, counter), "beginningDate", e.date.startDate, t);
    Politics.DateTripleMember(RelationIri(e, counter), "endDate", e.date.endDate, t);
  }

  /** Every inner turn pairs an entry with one of its organisations. */
  lemma EntryOfJob(es: seq<Employment>, k: nat)
    requires k < |Jobs(es)|
    ensures exists i :: 0 <= i < |es| && Jobs(es)[k].emp == es[i] && Jobs(es)[k].org in es[i].worksFor
  {
    JobsMember(es, Jobs(es)[k]);
  }

  /** Every organisation of every entry has its inner turn. */
  lemma JobOfEntry(es: seq<Employment>, i: nat, org: Org)
    requires i < |es| && org in es[i].worksFor
    ensures exists k :: 0 <= k < |Jobs(es)| && Jobs(es)[k] == Job(es[i], org)
  {
    JobsMember(es, Job(es[i], org));
  }

  /** Equal Position IRIs mean equal Position ids. */
  lemma PositionIriInjective(j1: Job, j2: Job)
    requires PositionIri(j1) == PositionIri(j2)
    ensures PositionId(j1) == PositionId(j2)
  {
    var p := "position/";
    assert (p + PositionId(j1))[|p|..] == PositionId(j1);
    assert (p + PositionId(j2))[|p|..] == PositionId(j2);
  }

  /** A Position IRI is no person's, organisation's or place's. */
  lemma PositionIriDistinct(job: Job, name: string, org: Org, placeLabel: string)
    ensures PositionIri(job) != PersonIri(name)
    ensures PositionIri(job) != OrgIri(org)
    ensures PositionIri(job) != PlaceIri(placeLabel)
  {
    PrefixesDiffer("position/", PositionId(job), "person/", SlugText(name), 1);
    PrefixesDiffer("position/", PositionId(job), "corporatebody/", SlugText(org.name), 0);
    PrefixesDiffer("position/", PositionId(job), "place/", SlugText(placeLabel), 1);
  }

  /** Exactly the entries' names are typed Person. */
  lemma PersonTyped(es: seq<Employment>, counter: nat, s: Term)
    ensures Triple(s, RDF_TYPE, Rico("Person")) in EmploymentTriples(es, counter) <==>
      exists i :: 0 <= i < |es| && s == PersonIri(es[i].name)
  {
    var t := Triple(s, RDF_TYPE, Rico("Person"));
    var jobs := Jobs(es);
    GraphMember(es, counter, t);
    forall k | 0 <= k < |jobs|
      ensures t !in JobTriples(jobs, k, counter)
    {
      JobTypes(jobs[k], counter, IsFirstUse(jobs, k), t);
    }
    if exists i :: 0 <= i < |es| && s == PersonIri(es[i].name) {
      var i :| 0 <= i < |es| && s == PersonIri(es[i].name);
      assert t in PersonTriples(es[i].name);
    }
  }

  /** A Position exists for every (role, organisation) pair of every entry, and no other. */
  lemma PositionTyped(es: seq<Employment>, counter: nat, s: Term)
    ensures Triple(s, RDF_TYPE, Rico("Position")) in EmploymentTriples(es, counter) <==>
      exists i, org :: 0 <= i < |es| && org in es[i].worksFor && s == PositionIri(Job(es[i], org))
  {
    var t := Triple(s, RDF_TYPE, Rico("Position"));
    var jobs := Jobs(es);
    GraphMember(es, counter, t);
    if t in EmploymentTriples(es, counter) {
      var k :| 0 <= k < |jobs| && t in JobTriples(jobs, k, counter);
      JobTypes(jobs[k], counter, IsFirstUse(jobs, k), t);
      EntryOfJob(es, k);
      var i :| 0 <= i < |es| && jobs[k].emp == es[i] && jobs[k].org in es[i].worksFor;
      assert s == PositionIri(Job(es[i], jobs[k].org));
    }
    if exists i, org :: 0 <= i < |es| && org in es[i].worksFor && s == PositionIri(Job(es[i], org)) {
      var i, org :| 0 <= i < |es| && org in es[i].worksFor && s == PositionIri(Job(es[i], org));
      PositionOfEveryOrg(es, counter, i, org);
    }
  }

  /** The Position of an entry's role at one of its organisations is typed, by that turn or an earlier one. */
  lemma PositionOfEveryOrg(es: seq<Employment>, counter: nat, i: nat, org: Org)
    requires i < |es| && org in es[i].worksFor
    ensures Triple(PositionIri(Job(es[i], org)), RDF_TYPE, Rico("Position")) in EmploymentTriples(es, counter)
  {
    var jobs := Jobs(es);
    var t := Triple(PositionIri(Job(es[i], org)), RDF_TYPE, Rico("Position"));
    JobOfEntry(es, i, org);
    var k :| 0 <= k < |jobs| && jobs[k] == Job(es[i], org);
    FirstUseExists(jobs, k);
    var k' :| 0 <= k' <= k && IsFirstUse(jobs, k') && PositionId(jobs[k']) == PositionId(jobs[k]);
    assert t in PositionTriples(jobs[k']);
    assert t in JobTriples(jobs, k', counter);
    JobInGraph(es, counter, k', t);
  }

  /** A Position is named by the role of the first turn that used its id, and by nothing else. */
  lemma PositionNamedByFirstUse(es: seq<Employment>, counter: nat, k: nat, o: Term)
    requires k < |Jobs(es)| && IsFirstUse(Jobs(es), k)
    ensures Triple(PositionIri(Jobs(es)[k]), Rico("name"), o) in EmploymentTriples(es, counter) <==>
      o == Lit(Jobs(es)[k].emp.role)
  {
    var jobs := Jobs(es);
    var x := PositionIri(jobs[k]);
    var t := Triple(x, Rico("name"), o);
    GraphMember(es, counter, t);
    forall i | 0 <= i < |es|
      ensures t !in PersonTriples(es[i].name)
    {
      PositionIriDistinct(jobs[k], es[i].name, jobs[k].org, "");
    }
    forall k2 | 0 <= k2 < |jobs| && t in JobTriples(jobs, k2, counter)
      ensures o == Lit(jobs[k].emp.role)
    {
      NameFromTurn(jobs, counter, k, k2, o);
    }
    if o == Lit(jobs[k].emp.role) {
      assert t in PositionTriples(jobs[k]);
      JobInGraph(es, counter, k, t);
    }
  }

  /** A name triple on the Position of first use `k` that turn `k2` adds names the role of turn `k`. */
  lemma NameFromTurn(jobs: seq<Job>, counter: nat, k: nat, k2: nat, o: Term)
    requires k < |jobs| && IsFirstUse(jobs, k) && k2 < |jobs|
    requires Triple(PositionIri(jobs[k]), Rico("name"), o) in JobTriples(jobs, k2, counter)
    ensures o == Lit(jobs[k].emp.role)
  {
    var t := Triple(PositionIri(jobs[k]), Rico("name"), o);
    JobNames(jobs[k2], counter, IsFirstUse(jobs, k2), t);
    if HasLocation(jobs[k2].emp) {
      PositionIriDistinct(jobs[k], "", jobs[k2].org, PlaceLabel(jobs[k2].emp));
    } else {
      PositionIriDistinct(jobs[k], "", jobs[k2].org, "");
    }
    if t == Triple(PositionIri(jobs[k2]), Rico("name"), Lit(jobs[k2].emp.role)) {
      PositionIriInjective(jobs[k2], jobs[k]);
      FirstUseUnique(jobs, k2, k);
    }
  }

  /** A Position exists in the organisation of the first turn that used its id, and in no other. */
  lemma PositionInOrgOfFirstUse(es: seq<Employment>, counter: nat, k: nat, o: Term)
    requires k < |Jobs(es)| && IsFirstUse(Jobs(es), k)
    ensures Triple(PositionIri(Jobs(es)[k]), Rico("existsOrExistedIn"), o) in EmploymentTriples(es, counter) <==>
      o == OrgIri(Jobs(es)[k].org)
  {
    var jobs := Jobs(es);
    var t := Triple(PositionIri(jobs[k]), Rico("existsOrExistedIn"), o);
    GraphMember(es, counter, t);
    forall k2 | 0 <= k2 < |jobs| && t in JobTriples(jobs, k2, counter)
      ensures o == OrgIri(jobs[k].org)
    {
      JobLinks(jobs[k2], counter, IsFirstUse(jobs, k2), t);
      PositionIriInjective(jobs[k2], jobs[k]);
      FirstUseUnique(jobs, k2, k);
    }
    if o == OrgIri(jobs[k].org) {
      assert t in PositionTriples(jobs[k]);
      JobInGraph(es, counter, k, t);
    }
  }

  /** A triple a turn adds is in the graph when that turn pairs entry `i` with `org`. */
  lemma EntryTurnInGraph(es: seq<Employment>, counter: nat, i: nat, org: Org, t: Triple)
    requires i < |es| && org in es[i].worksFor
    requires t in OrgTriples(org) || t in RelationTriples(Job(es[i], org), counter)
      || t in DateTriples(es[i], counter) || t in PlaceTriples(Job(es[i], org))
    ensures t in EmploymentTriples(es, counter)
  {
    var jobs := Jobs(es);
    JobOfEntry(es, i, org);
    var k :| 0 <= k < |jobs| && jobs[k] == Job(es[i], org);
    JobParts(jobs[k], counter, IsFirstUse(jobs, k), t);
    JobInGraph(es, counter, k, t);
  }

  /** A triple of the graph that no person part holds comes from a turn on some entry and organisation. */
  lemma FromEntryTurn(es: seq<Employment>, counter: nat, t: Triple)
    requires t in EmploymentTriples(es, counter) && t.p != RDF_TYPE && t.p != Rico("name")
    ensures exists i, org ::
              0 <= i < |es| && org in es[i].worksFor && (exists newPosition :: t in JobEffect(Job(es[i], org), counter, newPosition))
  {
    var jobs := Jobs(es);
    FromJob(es, counter, t);
    var k :| 0 <= k < |jobs| && t in JobTriples(jobs, k, counter);
    EntryOfJob(es, k);
    var i :| 0 <= i < |es| && jobs[k].emp == es[i] && jobs[k].org in es[i].worksFor;
    assert jobs[k] == Job(es[i], jobs[k].org);
    assert t in JobEffect(Job(es[i], jobs[k].org), counter, IsFirstUse(jobs, k));
  }

  /** An organisation gets a `corporateBodyType` exactly when its `type` is truthy, and that type. */
  lemma CorporateBodyTypeOnlyWhenTruthy(es: seq<Employment>, counter: nat, s: Term, o: Term)
    ensures Triple(s, Rico("corporateBodyType"), o) in EmploymentTriples(es, counter) <==>
      exists i, org :: 0 <= i < |es| && org in es[i].worksFor && Truthy(org.orgType)
        && s == OrgIri(org) && o == Lit(org.orgType.value)
  {
    var t := Triple(s, Rico("corporateBodyType"), o);
    if t in EmploymentTriples(es, counter) {
      FromEntryTurn(es, counter, t);
      var i, org :| 0 <= i < |es| && org in es[i].worksFor
        && (exists newPosition :: t in JobEffect(Job(es[i], org), counter, newPosition));
      var newPosition :| t in JobEffect(Job(es[i], org), counter, newPosition);
      JobLinks(Job(es[i], org), counter, newPosition, t);
    }
    if exists i, org :: 0 <= i < |es| && org in es[i].worksFor && Truthy(org.orgType)
        && s == OrgIri(org) && o == Lit(org.orgType.value) {
      var i, org :| 0 <= i < |es| && org in es[i].worksFor && Truthy(org.orgType)
        && s == OrgIri(org) && o == Lit(org.orgType.value);
      assert t in OrgTriples(org);
      EntryTurnInGraph(es, counter, i, org, t);
    }
  }

  /** The holding relation of an entry targets the Position of each organisation it works for, and nothing else. */
  lemma HoldingTargets(es: seq<Employment>, counter: nat, s: Term, o: Term)
    ensures Triple(s, Rico("relationHasTarget"), o) in EmploymentTriples(es, counter) <==>
      exists i, org :: 0 <= i < |es| && org in es[i].worksFor
        && s == RelationIri(es[i], counter) && o == PositionIri(Job(es[i], org))
  {
    var t := Triple(s, Rico("relationHasTarget"), o);
    if t in EmploymentTriples(es, counter) {
      FromEntryTurn(es, counter, t);
      var i, org :| 0 <= i < |es| && org in es[i].worksFor
        && (exists newPosition :: t in JobEffect(Job(es[i], org), counter, newPosition));
      var newPosition :| t in JobEffect(Job(es[i], org), counter, newPosition);
      JobLinks(Job(es[i], org), counter, newPosition, t);
    }
    if exists i, org :: 0 <= i < |es| && org in es[i].worksFor
        && s == RelationIri(es[i], counter) && o == PositionIri(Job(es[i], org)) {
      var i, org :| 0 <= i < |es| && org in es[i].worksFor
        && s == RelationIri(es[i], counter) && o == PositionIri(Job(es[i], org));
      assert t in RelationTriples(Job(es[i], org), counter);
      EntryTurnInGraph(es, counter, i, org, t);
    }
  }

  /** The holding relation of an entry with at least one organisation has the entry's person as source, and nothing else does. */
  lemma HoldingSource(es: seq<Employment>, counter: nat, s: Term, o: Term)
    ensures Triple(s, Rico("relationHasSource"), o) in EmploymentTriples(es, counter) <==>
      exists i :: 0 <= i < |es| && |es[i].worksFor| > 0 && s == RelationIri(es[i], counter) && o == PersonIri(es[i].name)
  {
    var t := Triple(s, Rico("relationHasSource"), o);
    if t in EmploymentTriples(es, counter) {
      FromEntryTurn(es, counter, t);
      var i, org :| 0 <= i < |es| && org in es[i].worksFor
        && (exists newPosition :: t in JobEffect(Job(es[i], org), counter, newPosition));
      var newPosition :| t in JobEffect(Job(es[i], org), counter, newPosition);
      JobLinks(Job(es[i], org), counter, newPosition, t);
    }
    if exists i :: 0 <= i < |es| && |es[i].worksFor| > 0 && s == RelationIri(es[i], counter) && o == PersonIri(es[i].name) {
      var i :| 0 <= i < |es| && |es[i].worksFor| > 0 && s == RelationIri(es[i], counter) && o == PersonIri(es[i].name);
      var org := es[i].worksFor[0];
      assert t in RelationTriples(Job(es[i], org), counter);
      EntryTurnInGraph(es, counter, i, org, t);
    }
  }

  /** A date triple of the graph is a parsed date of an entry with at least one organisation. */
  lemma DateFromEntry(es: seq<Employment>, counter: nat, t: Triple)
    requires t in EmploymentTriples(es, counter) && (t.p == Rico("beginningDate") || t.p == Rico("endDate"))
    ensures exists i :: 0 <= i < |es| && |es[i].worksFor| > 0 && t in DateTriples(es[i], counter)
  {
    FromEntryTurn(es, counter, t);
    var i, org :| 0 <= i < |es| && org in es[i].worksFor
      && (exists newPosition :: t in JobEffect(Job(es[i], org), counter, newPosition));
    var newPosition :| t in JobEffect(Job(es[i], org), counter, newPosition);
    JobLinks(Job(es[i], org), counter, newPosition, t);
  }

  /** The relation begins at the entry's parsed start date, when it parses, and only then. */
  lemma BeginningDateOnlyWhenParsed(es: seq<Employment>, counter: nat, s: Term, o: Term)
    ensures Triple(s, Rico("beginningDate"), o) in EmploymentTriples(es, counter) <==>
      exists i :: 0 <= i < |es| && |es[i].worksFor| > 0 && s == RelationIri(es[i], counter)
        && Politics.ParseDate(es[i].date.startDate).Some? && o == DateLit(Politics.ParseDate(es[i].date.startDate).value)
  {
    var t := Triple(s, Rico("beginningDate"), o);
    if t in EmploymentTriples(es, counter) {
      DateFromEntry(es, counter, t);
      var i :| 0 <= i < |es| && |es[i].worksFor| > 0 && t in DateTriples(es[i], counter);
      DateShape(es[i], counter, t);
    }
    if exists i :: 0 <= i < |es| && |es[i].worksFor| > 0 && s == RelationIri(es[i], counter)
        && Politics.ParseDate(es[i].date.startDate).Some? && o == DateLit(Politics.ParseDate(es[i].date.startDate).value) {
      var i :| 0 <= i < |es| && |es[i].worksFor| > 0 && s == RelationIri(es[i], counter)
        && Politics.ParseDate(es[i].date.startDate).Some? && o == DateLit(Politics.ParseDate(es[i].date.startDate).value);
      DateShape(es[i], counter, t);
      EntryTurnInGraph(es, counter, i, es[i].worksFor[0], t);
    }
  }

  /** The relation ends at the entry's parsed end date, when it parses, and only then. */
  lemma EndDateOnlyWhenParsed(es: seq<Employment>, counter: nat, s: Term, o: Term)
    ensures Triple(s, Rico("endDate"), o) in EmploymentTriples(es, counter) <==>
      exists i :: 0 <= i < |es| && |es[i].worksFor| > 0 && s == RelationIri(es[i], counter)
        && Politics.ParseDate(es[i].date.endDate).Some? && o == DateLit(Politics.ParseDate(es[i].date.endDate).value)
  {
    var t := Triple(s, Rico("endDate"), o);
    if t in EmploymentTriples(es, counter) {
      DateFromEntry(es, counter, t);
      var i :| 0 <= i < |es| && |es[i].worksFor| > 0 && t in DateTriples(es[i], counter);
      DateShape(es[i], counter, t);
    }
    if exists i :: 0 <= i < |es| && |es[i].worksFor| > 0 && s == RelationIri(es[i], counter)
        && Politics.ParseDate(es[i].date.endDate).Some? && o == DateLit(Politics.ParseDate(es[i].date.endDate).value) {
      var i :| 0 <= i < |es| && |es[i].worksFor| > 0 && s == RelationIri(es[i], counter)
        && Politics.ParseDate(es[i].date.endDate).Some? && o == DateLit(Politics.ParseDate(es[i].date.endDate).value);
      DateShape(es[i], counter, t);
      EntryTurnInGraph(es, counter, i, es[i].worksFor[0], t);
    }
  }

  /** Every organisation of an entry whose location has a truthy label is located at that place, and no other. */
  lemma LocatedAtOnlyWithLabel(es: seq<Employment>, counter: nat, s: Term, o: Term)
    ensures Triple(s, Rico("isLocatedAt"), o) in EmploymentTriples(es, counter) <==>
      exists i, org :: 0 <= i < |es| && org in es[i].worksFor && HasLocation(es[i])
        && s == OrgIri(org) && o == PlaceIri(PlaceLabel(es[i]))
  {
    var t := Triple(s, Rico("isLocatedAt"), o);
    if t in EmploymentTriples(es, counter) {
      FromEntryTurn(es, counter, t);
      var i, org :| 0 <= i < |es| && org in es[i].worksFor
        && (exists newPosition :: t in JobEffect(Job(es[i], org), counter, newPosition));
      var newPosition :| t in JobEffect(Job(es[i], org), counter, newPosition);
      JobLinks(Job(es[i], org), counter, newPosition, t);
    }
    if exists i, org :: 0 <= i < |es| && org in es[i].worksFor && HasLocation(es[i])
        && s == OrgIri(org) && o == PlaceIri(PlaceLabel(es[i])) {
      var i, org :| 0 <= i < |es| && org in es[i].worksFor && HasLocation(es[i])
        && s == OrgIri(org) && o == PlaceIri(PlaceLabel(es[i]));
      assert t in PlaceTriples(Job(es[i], org));
      EntryTurnInGraph(es, counter, i, org, t);
    }
  }

  /** A Place node is typed exactly for the location label of an entry that has one and works for some organisation. */
  lemma PlaceTyped(es: seq<Employment>, counter: nat, s: Term)
    ensures Triple(s, RDF_TYPE, Rico("Place")) in EmploymentTriples(es, counter) <==>
      exists i :: 0 <= i < |es| && |es[i].worksFor| > 0 && HasLocation(es[i]) && s == PlaceIri(PlaceLabel(es[i]))
  {
    if Triple(s, RDF_TYPE, Rico("Place")) in EmploymentTriples(es, counter) {
      PlaceFromEntry(es, counter, s);
    }
    if exists i :: 0 <= i < |es| && |es[i].worksFor| > 0 && HasLocation(es[i]) && s == PlaceIri(PlaceLabel(es[i])) {
      var i :| 0 <= i < |es| && |es[i].worksFor| > 0 && HasLocation(es[i]) && s == PlaceIri(PlaceLabel(es[i]));
      var t, org := Triple(s, RDF_TYPE, Rico("Place")), es[i].worksFor[0];
      assert t in PlaceTriples(Job(es[i], org));
      EntryTurnInGraph(es, counter, i, org, t);
    }
  }

  /** A Place in the graph is the location of an entry with at least one organisation. */
  lemma PlaceFromEntry(es: seq<Employment>, counter: nat, s: Term)
    requires Triple(s, RDF_TYPE, Rico("Place")) in EmploymentTriples(es, counter)
    ensures exists i :: 0 <= i < |es| && |es[i].worksFor| > 0 && HasLocation(es[i]) && s == PlaceIri(PlaceLabel(es[i]))
  {
    var t := Triple(s, RDF_TYPE, Rico("Place"));
    var jobs := Jobs(es);
    GraphMember(es, counter, t);
    forall i | 0 <= i < |es|
      ensures t !in PersonTriples(es[i].name)
    {
    }
    var k :| 0 <= k < |jobs| && t in JobTriples(jobs, k, counter);
    JobTypes(jobs[k], counter, IsFirstUse(jobs, k), t);
    EntryOfJob(es, k);
    var i :| 0 <= i < |es| && jobs[k].emp == es[i] && jobs[k].org in es[i].worksFor;
    assert s == PlaceIri(PlaceLabel(es[i]));
  }

}
