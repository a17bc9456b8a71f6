/**
 * document_events/document_mapping.py: a document event becomes an RiC-O
 * `Record` named by its title, with an optional content type and creation
 * date, and every creator as a Person or CorporateBody that is the organic
 * provenance of the record. Its `create_uri_safe_string` is the death
 * converter's and its `parse_date` the politics converter's, so
 * `Death.CreateUriSafeString` and `Politics.ParseDate` model them.
 */
module Documents {
  import opened PyBuiltins
  import opened Rdf
  import Politics
  import Death

  /** `EX = Namespace("http://example.org/")` */
  const EX: Namespace := Example

  /** A creator; `kind` is its `type`, None when the key is absent. */
  datatype Creator = Creator(name: string, kind: Option<string>, role: string)

  /** `event["data"]["document"]`; `creators` is the `creator` list, empty when the key is absent. */
  datatype Document = Document(title: string, contentType: Option<string>, creationDate: Option<string>,
                               creators: seq<Creator>)

  function RecordIri(title: string, counter: nat): Term
  {
    Iri(EX, "record/" + Death.NameSlug(title) + "_" + NatToString(counter))
  }

  function ContentTypeIri(contentType: string): Term
  {
    Iri(EX, "contentType/" + Death.NameSlug(contentType))
  }

  function AgentIri(name: string): Term
  {
    Iri(EX, "agent/" + Death.NameSlug(name))
  }

  /**
   * A creator is a person when "person" occurs in its lower-cased type. The
   * type defaults to "person", which passes the test (`DefaultTypeIsPerson`),
   * so an absent type is a person.
   */
  predicate IsPersonType(kind: Option<string>)
  {
    kind.None? || HasSubstring(Lower(kind.value), "person")
  }

  /** The default type "person" passes the substring test, so the absent-type case agrees with the code's default. */
  lemma DefaultTypeIsPerson()
    ensures HasSubstring(Lower("person"), "person")
  {
    assert Lower("person") == "person";
  }

  /** The class a creator is typed with. */
  function CreatorClass(c: Creator): string
  {
    if IsPersonType(c.kind) then "Person" else "CorporateBody"
  }

  /** Authors and contributors, in any case, are the record's organic provenance. */
  predicate IsProvenanceRole(role: string)
  {
    Lower(role) == "author" || Lower(role) == "contributor"
  }

  /** The creation date, parsed only when the raw value is truthy. */
  function CreationDate(doc: Document): Option<string>
  {
    if Truthy(doc.creationDate) then Politics.ParseDate(doc.creationDate) else None
  }

  /** The record, its type and its title. */
  function RecordTriples(doc: Document, counter: nat): set<Triple>
  {
    var rec := RecordIri(doc.title, counter);
    {Triple(rec, RDF_TYPE, Rico("Record")), Triple(rec, Rico("name"), Lit(doc.title))}
  }

  /** The content type node and its link, for a truthy content type. */
  function ContentTypeTriples(doc: Document, counter: nat): set<Triple>
  {
    if Truthy(doc.contentType) then
      var ct := ContentTypeIri(doc.contentType.value);
      {Triple(ct, RDF_TYPE, Rico("ContentType")), Triple(ct, Rico("name"), Lit(doc.contentType.value)),
       Triple(RecordIri(doc.title, counter), Rico("hasContentOfType"), ct)}
    else {}
  }

  /** The creation date, when it parsed. */
  function CreationDateTriples(doc: Document, counter: nat, creationDate: Option<string>): set<Triple>
  {
    if Truthy(creationDate) then {Triple(RecordIri(doc.title, counter), Rico("hasCreationDate"), DateLit(creationDate.value))}
    else {}
  }

  /** What one turn of the creators loop adds for the record `rec`. */
  function CreatorTriples(c: Creator, rec: Term): set<Triple>
  {
    var agent := AgentIri(c.name);
    {Triple(agent, RDF_TYPE, Rico(CreatorClass(c))), Triple(agent, Rico("name"), Lit(c.name))}
    + (if IsProvenanceRole(c.role) then {Triple(rec, Rico("hasOrganicProvenance"), agent)} else {})
    + {Triple(agent, Rico("isOrganicProvenanceOf"), rec)}
  }

  function CreatorsTriples(cs: seq<Creator>, rec: Term): set<Triple>
    decreases |cs|
  {
    if cs == [] then {} else CreatorsTriples(cs[..|cs| - 1], rec) + CreatorTriples(cs[|cs| - 1], rec)
  }

  /** The graph, given the parsed creation date, in the order the converter adds the parts. */
  function DocumentGraph(doc: Document, counter: nat, creationDate: Option<string>): set<Triple>
  {
    RecordTriples(doc, counter) + ContentTypeTriples(doc, counter) + CreationDateTriples(doc, counter, creationDate)
    + CreatorsTriples(doc.creators, RecordIri(doc.title, counter))
  }

  /** `create_document_graph(event, counter)` */
  function DocumentTriples(doc: Document, counter: nat): set<Triple>
  {
    DocumentGraph(doc, counter, CreationDate(doc))
  }

  /** A triple the creators loop adds comes from the turn of one creator. */
  lemma {:induction false} CreatorsMember(cs: seq<Creator>, rec: Term, t: Triple)
    ensures t in CreatorsTriples(cs, rec) <==> exists c :: c in cs && t in CreatorTriples(c, rec)
    decreases |cs|
  {
    if cs != [] {
      var init := cs[..|cs| - 1];
      CreatorsMember(init, rec, t);
      if t in CreatorsTriples(init, rec) {
        var c :| c in init && t in CreatorTriples(c, rec);
        assert c in cs;
      }
      if exists c :: c in cs && t in CreatorTriples(c, rec) {
        var c :| c in cs && t in CreatorTriples(c, rec);
        var i :| 0 <= i < |cs| && cs[i] == c;
        if i < |cs| - 1 {
          assert init[i] == c;
        }
      }
    }
  }

  /** The fixed parts: the record's type, name, content type and creation date, and the content type node. */
  lemma FixedShape(doc: Document, counter: nat, creationDate: Option<string>, t: Triple)
    ensures t in RecordTriples(doc, counter) + ContentTypeTriples(doc, counter) + CreationDateTriples(doc, counter, creationDate) ==>
      || t == Triple(RecordIri(doc.title, counter), RDF_TYPE, Rico("Record"))
      || t == Triple(RecordIri(doc.title, counter), Rico("name"), Lit(doc.title))
      || (Truthy(doc.contentType) && t == Triple(ContentTypeIri(doc.contentType.value), RDF_TYPE, Rico("ContentType")))
      || (Truthy(doc.contentType) && t == Triple(ContentTypeIri(doc.contentType.value), Rico("name"), Lit(doc.contentType.value)))
      || (Truthy(doc.contentType) && t == Triple(RecordIri(doc.title, counter), Rico("hasContentOfType"), ContentTypeIri(doc.contentType.value)))
      || (Truthy(creationDate) && t == Triple(RecordIri(doc.title, counter), Rico("hasCreationDate"), DateLit(creationDate.value)))
  {
  }

  /** One creator's turn. */
  lemma CreatorShape(c: Creator, rec: Term, t: Triple)
    ensures t in CreatorTriples(c, rec) <==>
      || t == Triple(AgentIri(c.name), RDF_TYPE, Rico(CreatorClass(c)))
      || t == Triple(AgentIri(c.name), Rico("name"), Lit(c.name))
      || (IsProvenanceRole(c.role) && t == Triple(rec, Rico("hasOrganicProvenance"), AgentIri(c.name)))
      || t == Triple(AgentIri(c.name), Rico("isOrganicProvenanceOf"), rec)
  {
  }

  /** A triple of the graph is in a fixed part or in some creator's turn. */
  lemma GraphMember(doc: Document, counter: nat, creationDate: Option<string>, t: Triple)
    ensures t in DocumentGraph(doc, counter, creationDate) <==>
      || t in RecordTriples(doc, counter) + ContentTypeTriples(doc, counter) + CreationDateTriples(doc, counter, creationDate)
      || exists c :: c in doc.creators && t in CreatorTriples(c, RecordIri(doc.title, counter))
  {
    CreatorsMember(doc.creators, RecordIri(doc.title, counter), t);
  }

  /** The record is always there, typed Record and named by the title, and it is the only Record. */
  lemma RecordAlways(doc: Document, counter: nat, creationDate: Option<string>, s: Term)
    ensures var rec, g := RecordIri(doc.title, counter), DocumentGraph(doc, counter, creationDate);
      Triple(rec, Rico("name"), Lit(doc.title)) in g
      && (Triple(s, RDF_TYPE, Rico("Record")) in g <==> s == rec)
  {
    var rec := RecordIri(doc.title, counter);
    var t := Triple(s, RDF_TYPE, Rico("Record"));
    GraphMember(doc, counter, creationDate, t);
    FixedShape(doc, counter, creationDate, t);
    forall c | c in doc.creators
      ensures t !in CreatorTriples(c, rec)
    {
      CreatorShape(c, rec, t);
    }
  }

  /** The record has a content type exactly when `contentType` is truthy, and a ContentType node only then. */
  lemma ContentTypeOnlyWhenTruthy(doc: Document, counter: nat, creationDate: Option<string>, s: Term, o: Term)
    ensures Triple(s, Rico("hasContentOfType"), o) in DocumentGraph(doc, counter, creationDate) <==>
      Truthy(doc.contentType) && s == RecordIri(doc.title, counter) && o == ContentTypeIri(doc.contentType.value)
    ensures Triple(s, RDF_TYPE, Rico("ContentType")) in DocumentGraph(doc, counter, creationDate) <==>
      Truthy(doc.contentType) && s == ContentTypeIri(doc.contentType.value)
  {
    var rec := RecordIri(doc.title, counter);
    var t1, t2 := Triple(s, Rico("hasContentOfType"), o), Triple(s, RDF_TYPE, Rico("ContentType"));
    GraphMember(doc, counter, creationDate, t1);
    GraphMember(doc, counter, creationDate, t2);
    FixedShape(doc, counter, creationDate, t1);
    FixedShape(doc, counter, creationDate, t2);
    forall c | c in doc.creators
      ensures t1 !in CreatorTriples(c, rec) && t2 !in CreatorTriples(c, rec)
    {
      CreatorShape(c, rec, t1);
      CreatorShape(c, rec, t2);
    }
  }

  /** The record has a creation date exactly when the parsed date is truthy, and it is that date. */
  lemma CreationDateOnlyWhenParsed(doc: Document, counter: nat, creationDate: Option<string>, s: Term, o: Term)
    ensures Triple(s, Rico("hasCreationDate"), o) in DocumentGraph(doc, counter, creationDate) <==>
      Truthy(creationDate) && s == RecordIri(doc.title, counter) && o == DateLit(creationDate.value)
  {
    var rec := RecordIri(doc.title, counter);
    var t := Triple(s, Rico("hasCreationDate"), o);
    GraphMember(doc, counter, creationDate, t);
    FixedShape(doc, counter, creationDate, t);
    forall c | c in doc.creators
      ensures t !in CreatorTriples(c, rec)
    {
      CreatorShape(c, rec, t);
    }
  }

  /** A parse_date result holds a dash, so the creation date is truthy exactly when a truthy raw date parses. */
  lemma CreationDateParsed(doc: Document)
    ensures Truthy(CreationDate(doc)) <==> Truthy(doc.creationDate) && Politics.ParseDate(doc.creationDate).Some?
  {
  }

  /** A class other than Record and ContentType is typed exactly on the agents of the creators of that class. */
  lemma AgentTyped(doc: Document, counter: nat, creationDate: Option<string>, s: Term, cls: string)
    requires cls != "Record" && cls != "ContentType"
    ensures Triple(s, RDF_TYPE, Rico(cls)) in DocumentGraph(doc, counter, creationDate) <==>
      exists c :: c in doc.creators && CreatorClass(c) == cls && s == AgentIri(c.name)
  {
    var rec := RecordIri(doc.title, counter);
    var t := Triple(s, RDF_TYPE, Rico(cls));
    GraphMember(doc, counter, creationDate, t);
    FixedShape(doc, counter, creationDate, t);
    if exists c :: c in doc.creators && t in CreatorTriples(c, rec) {
      var c :| c in doc.creators && t in CreatorTriples(c, rec);
      CreatorShape(c, rec, t);
    }
    if exists c :: c in doc.creators && CreatorClass(c) == cls && s == AgentIri(c.name) {
      var c :| c in doc.creators && CreatorClass(c) == cls && s == AgentIri(c.name);
      CreatorShape(c, rec, t);
    }
  }

  /** Exactly the agents of creators whose type mentions "person" (or is absent) are typed Person. */
  lemma PersonCreators(doc: Document, counter: nat, creationDate: Option<string>, s: Term)
    ensures Triple(s, RDF_TYPE, Rico("Person")) in DocumentGraph(doc, counter, creationDate) <==>
      exists c :: c in doc.creators && IsPersonType(c.kind) && s == AgentIri(c.name)
  {
    AgentTyped(doc, counter, creationDate, s, "Person");
  }

  /** Exactly the agents of the other creators are typed CorporateBody. */
  lemma CorporateBodyCreators(doc: Document, counter: nat, creationDate: Option<string>, s: Term)
    ensures Triple(s, RDF_TYPE, Rico("CorporateBody")) in DocumentGraph(doc, counter, creationDate) <==>
      exists c :: c in doc.creators && !IsPersonType(c.kind) && s == AgentIri(c.name)
  {
    AgentTyped(doc, counter, creationDate, s, "CorporateBody");
  }

  /** The record's organic provenance is exactly its authors and contributors. */
  lemma ProvenanceByRole(doc: Document, counter: nat, creationDate: Option<string>, s: Term, o: Term)
    ensures Triple(s, Rico("hasOrganicProvenance"), o) in DocumentGraph(doc, counter, creationDate) <==>
      s == RecordIri(doc.title, counter) && exists c :: c in doc.creators && IsProvenanceRole(c.role) && o == AgentIri(c.name)
  {
    var rec := RecordIri(doc.title, counter);
    var t := Triple(s, Rico("hasOrganicProvenance"), o);
    GraphMember(doc, counter, creationDate, t);
    FixedShape(doc, counter, creationDate, t);
    if exists c :: c in doc.creators && t in CreatorTriples(c, rec) {
      var c :| c in doc.creators && t in CreatorTriples(c, rec);
      CreatorShape(c, rec, t);
    }
    if s == rec && exists c :: c in doc.creators && IsProvenanceRole(c.role) && o == AgentIri(c.name) {
      var c :| c in doc.creators && IsProvenanceRole(c.role) && o == AgentIri(c.name);
      CreatorShape(c, rec, t);
    }
  }

  /** Every creator, whatever its role, is the organic provenance of the record, and nothing else is. */
  lemma EveryCreatorIsProvenanceOf(doc: Document, counter: nat, creationDate: Option<string>, s: Term, o: Term)
    ensures Triple(s, Rico("isOrganicProvenanceOf"), o) in DocumentGraph(doc, counter, creationDate) <==>
      o == RecordIri(doc.title, counter) && exists c :: c in doc.creators && s == AgentIri(c.name)
  {
    var rec := RecordIri(doc.title, counter);
    var t := Triple(s, Rico("isOrganicProvenanceOf"), o);
    GraphMember(doc, counter, creationDate, t);
    FixedShape(doc, counter, creationDate, t);
    if exists c :: c in doc.creators && t in CreatorTriples(c, rec) {
      var c :| c in doc.creators && t in CreatorTriples(c, rec);
      CreatorShape(c, rec, t);
    }
    if o == rec && exists c :: c in doc.creators && s == AgentIri(c.name) {
      var c :| c in doc.creators && s == AgentIri(c.name);
      CreatorShape(c, rec, t);
    }
  }

  /** Without creators the graph is the record, its content type and its creation date: no agent at all. */
  lemma NoCreatorsNoAgents(doc: Document, counter: nat, creationDate: Option<string>)
    requires doc.creators == []
    ensures forall t :: t in DocumentGraph(doc, counter, creationDate) ==>
      t.s == RecordIri(doc.title, counter) || (Truthy(doc.contentType) && t.s == ContentTypeIri(doc.contentType.value))
  {
    forall t | t in DocumentGraph(doc, counter, creationDate)
      ensures t.s == RecordIri(doc.title, counter) || (Truthy(doc.contentType) && t.s == ContentTypeIri(doc.contentType.value))
    {
      FixedShape(doc, counter, creationDate, t);
    }
  }

  /** The type test is a substring test: any type with "person" inside it, such as "salesperson", gives a person. */
  lemma TypeMentioningPersonIsPerson(before: string, after: string)
    ensures IsPersonType(Some(before + "person" + after))
  {
    var kind := before + "person" + after;
    LowerAppend(before + "person", after);
    LowerAppend(before, "person");
    assert Lower("person") == "person";
    assert OccursAt(Lower(kind), "person", |before|);
    HasSubstringAt(Lower(kind), "person");
  }

  /** A text without the first character of a pattern does not contain the pattern. */
  lemma {:induction false} NoSubstringWithoutFirstChar(s: string, t: string)
    requires t != [] && t[0] !in s
    ensures !HasSubstring(s, t)
    decreases |s|
  {
    if s != [] {
      assert forall c :: c in s[1..] ==> c in s;
      NoSubstringWithoutFirstChar(s[1..], t);
    }
  }

  /** A type with no letter p in either case, such as "Organization", gives a corporate body. */
  lemma TypeWithoutPIsCorporateBody(kind: string)
    requires 'p' !in kind && 'P' !in kind
    ensures !IsPersonType(Some(kind))
  {
    assert 'p' !in Lower(kind) by {
      forall i | 0 <= i < |kind|
        ensures Lower(kind)[i] != 'p'
      {
        assert kind[i] in kind;
      }
    }
    NoSubstringWithoutFirstChar(Lower(kind), "person");
  }

  /** `create_document_graph(event, counter)` */
  method CreateDocumentGraph(doc: Document, counter: nat) returns (g: Graph)
    ensures fresh(g) && g.triples == DocumentTriples(doc, counter)
  {
    g := new Graph();
    var docUri := RecordIri(doc.title, counter);
    g.Add(docUri, RDF_TYPE, Rico("Record"));
    g.Add(docUri, Rico("name"), Lit(doc.title));
    assert g.triples == RecordTriples(doc, counter);
    AddContentType(g, doc, counter);
    AddCreationDate(g, doc, counter);
    AddCreators(g, doc.creators, docUri);
  }

  method AddContentType(g: Graph, doc: Document, counter: nat)
    modifies g
    ensures g.triples == old(g.triples) + ContentTypeTriples(doc, counter)
  {
    if Truthy(doc.contentType) {
      var contentTypeUri := ContentTypeIri(doc.contentType.value);
      g.Add(contentTypeUri, RDF_TYPE, Rico("ContentType"));
      g.Add(contentTypeUri, Rico("name"), Lit(doc.contentType.value));
      g.Add(RecordIri(doc.title, counter), Rico("hasContentOfType"), contentTypeUri);
    }
  }

  method AddCreationDate(g: Graph, doc: Document, counter: nat)
    modifies g
    ensures g.triples == old(g.triples) + CreationDateTriples(doc, counter, CreationDate(doc))
  {
    if Truthy(doc.creationDate) {
      var creationDate := Politics.ParseDate(doc.creationDate);
      if Truthy(creationDate) {
        g.Add(RecordIri(doc.title, counter), Rico("hasCreationDate"), DateLit(creationDate.value));
      }
    }
  }

  /** The creators loop. */
  method AddCreators(g: Graph, cs: seq<Creator>, docUri: Term)
    modifies g
    ensures g.triples == old(g.triples) + CreatorsTriples(cs, docUri)
  {
    for i := 0 to |cs|
      invariant g.triples == old(g.triples) + CreatorsTriples(cs[..i], docUri)
    {
      AddCreator(g, cs[i], docUri);
      assert cs[..i + 1][..i] == cs[..i];
    }
    assert cs[..|cs|] == cs;
  }

  method AddCreator(g: Graph, c: Creator, docUri: Term)
    modifies g
    ensures g.triples == old(g.triples) + CreatorTriples(c, docUri)
  {
    var creatorUri := AgentIri(c.name);
    if c.kind.None? || HasSubstring(Lower(c.kind.value), "person") {
      g.Add(creatorUri, RDF_TYPE, Rico("Person"));
    } else {
      g.Add(creatorUri, RDF_TYPE, Rico("CorporateBody"));
    }
    g.Add(creatorUri, Rico("name"), Lit(c.name));
    if Lower(c.role) == "author" {
      g.Add(docUri, Rico("hasOrganicProvenance"), creatorUri);
    } else if Lower(c.role) == "contributor" {
      g.Add(docUri, Rico("hasOrganicProvenance"), creatorUri);
    }
    g.Add(creatorUri, Rico("isOrganicProvenanceOf"), docUri);
  }
}
