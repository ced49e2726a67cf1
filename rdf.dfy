/**
 * RDF terms and statements as the decoder builds them. The term constructors
 * of the surrounding library (blank-node creation, IRI creation, literal
 * creation) are taken as uninterpreted: a term records exactly the strings it
 * was built from.
 */
module Rdf {
  import opened JsonTokens

  datatype Term =
    | Iri(iri: string)
    | BNode(id: string)
    | Literal(lexical: string, language: Option<string>, datatypeIri: Option<string>)

  /** IRIs and blank nodes: the terms that may stand as subject or context. */
  predicate IsResource(t: Term)
  {
    t.Iri? || t.BNode?
  }

  /** A statement; `obj` is None when the decoder hands on no object term, `ctx` None is the default graph. */
  datatype Statement = Statement(subj: Term, pred: Term, obj: Option<Term>, ctx: Option<Term>)

  /** Subjects are resources, predicates are IRIs, contexts are resources or the default graph. */
  predicate WellTyped(sts: seq<Statement>)
  {
    forall i :: 0 <= i < |sts| ==>
      IsResource(sts[i].subj) && sts[i].pred.Iri? &&
      (sts[i].ctx.Some? ==> IsResource(sts[i].ctx.value))
  }

  const BlankNodePrefix: string := "_:"

  predicate HasBlankNodePrefix(s: string)
  {
    |s| >= 2 && s[..2] == BlankNodePrefix
  }

  /** The resource a subject or graph name stands for: "_:id" is a blank node, anything else an IRI. */
  function ResourceFor(name: string): (r: Term)
    ensures IsResource(r)
    ensures r.BNode? <==> HasBlankNodePrefix(name)
    ensures r.BNode? ==> BlankNodePrefix + r.id == name
    ensures r.Iri? ==> r.iri == name
  {
    if HasBlankNodePrefix(name) then BNode(name[2..]) else Iri(name)
  }

  /** The name under which a resource is written in RDF/JSON. */
  function NameOf(r: Term): string
    requires IsResource(r)
  {
    if r.BNode? then BlankNodePrefix + r.id else r.iri
  }

  /** Writing a resource's name and reading it back gives the resource, unless an IRI itself looks like a blank-node name. */
  lemma ResourceForNameOf(r: Term)
    requires r.BNode? || (r.Iri? && !HasBlankNodePrefix(r.iri))
    ensures ResourceFor(NameOf(r)) == r
  {
    if r.BNode? {
      var n := BlankNodePrefix + r.id;
      assert n[..2] == BlankNodePrefix;
      assert n[2..] == r.id;
    }
  }
}
