/**
 * The slice of rdflib the converters use: IRIs minted from a namespace,
 * plain and xsd:date literals, triples, and a Graph that behaves as a set of
 * triples (adding a triple that is already there changes nothing).
 */
module Rdf {
  import opened PyBuiltins

  /** The namespaces the converters use: RDF, RiC-O, and the two spellings of EX. */
  datatype Namespace = RdfNs | RicoNs | Example | ExampleHash

  function NamespaceIri(ns: Namespace): string
  {
    match ns
    case RdfNs => "http://www.w3.org/1999/02/22-rdf-syntax-ns#"
    case RicoNs => "https://www.ica.org/standards/RiC/ontology#"
    case Example => "http://example.org/"
    case ExampleHash => "http://example.org/#"
  }

  /**
   * An RDF term. `Iri(ns, local)` is `ns[local]`; `Lit(s)` is `Literal(s)`;
   * `DateLit(s)` is `Literal(s, datatype=XSD.date)`.
   */
  datatype Term = Iri(ns: Namespace, local: string) | Lit(lex: string) | DateLit(lex: string)

  /** `str(term)`: the full text of an IRI, the lexical form of a literal. */
  function IriText(t: Term): string
  {
    match t
    case Iri(ns, local) => NamespaceIri(ns) + local
    case Lit(lex) => lex
    case DateLit(lex) => lex
  }

  /**
   * `ns[key]` where the key may be None: rdflib's `Namespace.term` appends
   * the key only when it is a string, so `ns[None]` is the namespace IRI.
   */
  function Lookup(ns: Namespace, key: Option<string>): (t: Term)
    ensures t.Iri? && t.ns == ns
    ensures key.None? ==> IriText(t) == NamespaceIri(ns)
  {
    Iri(ns, if key.Some? then key.value else "")
  }

  datatype Triple = Triple(s: Term, p: Term, o: Term)

  const RDF_TYPE: Term := Iri(RdfNs, "type")

  /** A class or property of the RiC-O ontology, `RICO.name`. */
  function Rico(name: string): Term
  {
    Iri(RicoNs, name)
  }

  /**
   * Keeping IRIs as (namespace, local name) pairs loses nothing: as long as
   * the two spellings of EX are not mixed (no converter mixes them), two IRIs
   * have the same text only when they are the same pair.
   */
  lemma IriTextInjective(a: Term, b: Term)
    requires a.Iri? && b.Iri?
    requires !(a.ns == Example && b.ns == ExampleHash) && !(a.ns == ExampleHash && b.ns == Example)
    requires IriText(a) == IriText(b)
    ensures a == b
  {
    var pa, pb := NamespaceIri(a.ns), NamespaceIri(b.ns);
    if a.ns == b.ns {
      assert a.local == IriText(a)[|pa|..];
    } else {
      var k := if a.ns == RicoNs || b.ns == RicoNs then 4 else 7;
      IriTextAt(a, k);
      IriTextAt(b, k);
      assert false;
    }
  }

  lemma IriTextAt(t: Term, k: nat)
    requires t.Iri? && k < |NamespaceIri(t.ns)|
    ensures IriText(t)[k] == NamespaceIri(t.ns)[k]
  {
  }

  /** rdflib's `Graph`: a mutable set of triples. */
  class Graph {
    var triples: set<Triple>

    constructor ()
      ensures triples == {}
    {
      triples := {};
    }

    /** `g.add((s, p, o))` */
    method Add(s: Term, p: Term, o: Term)
      modifies this
      ensures triples == old(triples) + {Triple(s, p, o)}
    {
      triples := triples + {Triple(s, p, o)};
    }
  }
}
