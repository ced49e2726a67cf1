/**
 * The meaning of the RDF/JSON decoder, one function per loop of the decoding
 * routine: each Scan function consumes the tokens one loop consumes and
 * either hands the rest of the stream back to the enclosing loop or stops
 * with an error. The statements handed to the RDF handler are accumulated in
 * `out`; they stay delivered when a later error aborts the decoding.
 */
module RdfJsonDecoder {
  import opened JsonTokens
  import opened Rdf

  // Field names and object types of RDF/JSON, with the graphs extension.
  const ValueKey: string := "value"
  const TypeKey: string := "type"
  const LangKey: string := "lang"
  const DatatypeKey: string := "datatype"
  const GraphsKey: string := "graphs"
  const LiteralType: string := "literal"
  const BNodeType: string := "bnode"
  const UriType: string := "uri"
  /** The graph name that stands for the default graph. */
  const NullGraph: string := "null"

  /** The parser settings consulted when a non-fatal error is reported. */
  datatype Setting =
    | FailOnMultipleObjectValues
    | FailOnMultipleObjectTypes
    | FailOnMultipleObjectLanguages
    | FailOnMultipleObjectDatatypes
    | FailOnUnknownProperty
    | SupportGraphsExtension

  datatype ParseError =
    | DocumentNotObject
    | SubjectNotObject
    | PredicateNotArray
    | ObjectNotObject
    | NoType
    | NoValue
    | LanguageOnBlankNode
    | DatatypeOnBlankNode
    | LanguageOnUri
    | DatatypeOnUri
    | ShortBlankNodeValue  // a blank-node object value too short to drop its two-character prefix
    | NoObject
    | NoPredicate
    | MissingName          // a subject or predicate position where no field name is reported
    | EndOfInput           // the token stream ends inside the document
    | Reported(setting: Setting)  // a reported error whose setting makes it abort

  datatype Result<+T> = Success(value: T) | Failure(error: ParseError)

  /** What a decoding run shows: the statements delivered, then the error that stopped it, if any. */
  datatype Outcome = Outcome(emitted: seq<Statement>, error: Option<ParseError>)

  /** The end of an inner loop: go on with the rest of the stream, or stop. */
  datatype Progress =
    | Continue(rest: seq<Token>, emitted: seq<Statement>)
    | Halt(emitted: seq<Statement>, error: ParseError)

  /** The fields read so far for one object of a predicate's array. */
  datatype ObjectFields = ObjectFields(
    valueText: Option<string>,
    typeText: Option<string>,
    language: Option<string>,
    datatypeIri: Option<string>,
    contexts: seq<string>)

  const NoFields: ObjectFields := ObjectFields(None, None, None, None, [])

  predicate Distinct(s: seq<string>)
  {
    forall i, j :: 0 <= i < j < |s| ==> s[i] != s[j]
  }

  function Elems(s: seq<string>): set<string>
  {
    set x | x in s
  }

  /** Adds a graph name to the set of graph names, kept in order of first appearance. */
  function AddContext(cs: seq<string>, g: string): (r: seq<string>)
    ensures Elems(r) == Elems(cs) + {g}
    ensures Distinct(cs) ==> Distinct(r)
    ensures cs <= r
  {
    if g in cs then cs else cs + [g]
  }

  /** The loop over a graphs array: every token up to the closing bracket names a graph. */
  function ScanGraphs(rest: seq<Token>, cs: seq<string>): (r: Result<(seq<string>, seq<Token>)>)
    ensures r.Success? ==> |r.value.1| < |rest|
    ensures r.Success? ==> cs <= r.value.0
    ensures r.Success? && Distinct(cs) ==> Distinct(r.value.0)
    decreases |rest|
  {
    if rest == [] then Failure(EndOfInput)
    else if rest[0].EndArray? then Success((cs, rest[1..]))
    else ScanGraphs(rest[1..], AddContext(cs, Text(rest[0])))
  }

  /**
   * The loop over the fields of one object. A known field takes the text of
   * the token after its name; a repeated one is reported under its setting
   * and otherwise overrides the earlier one. An unknown field is reported
   * and, when tolerated, only its name token is skipped.
   */
  function ScanFields(rest: seq<Token>, failing: set<Setting>, f: ObjectFields): (r: Result<(ObjectFields, seq<Token>)>)
    ensures r.Success? ==> |r.value.1| < |rest|
    ensures r.Success? ==> f.contexts <= r.value.0.contexts
    ensures r.Success? && Distinct(f.contexts) ==> Distinct(r.value.0.contexts)
    decreases |rest|
  {
    if rest == [] then Failure(EndOfInput)
    else if rest[0].EndObject? then Success((f, rest[1..]))
    else
      var key := CurrentName(rest[0]);
      var after := rest[1..];
      if key == Some(ValueKey) then
        if f.valueText.Some? && FailOnMultipleObjectValues in failing then Failure(Reported(FailOnMultipleObjectValues))
        else if after == [] then Failure(EndOfInput)
        else ScanFields(after[1..], failing, f.(valueText := Some(Text(after[0]))))
      else if key == Some(TypeKey) then
        if f.typeText.Some? && FailOnMultipleObjectTypes in failing then Failure(Reported(FailOnMultipleObjectTypes))
        else if after == [] then Failure(EndOfInput)
        else ScanFields(after[1..], failing, f.(typeText := Some(Text(after[0]))))
      else if key == Some(LangKey) then
        if f.language.Some? && FailOnMultipleObjectLanguages in failing then Failure(Reported(FailOnMultipleObjectLanguages))
        else if after == [] then Failure(EndOfInput)
        else ScanFields(after[1..], failing, f.(language := Some(Text(after[0]))))
      else if key == Some(DatatypeKey) then
        if f.datatypeIri.Some? && FailOnMultipleObjectDatatypes in failing then Failure(Reported(FailOnMultipleObjectDatatypes))
        else if after == [] then Failure(EndOfInput)
        else ScanFields(after[1..], failing, f.(datatypeIri := Some(Text(after[0]))))
      else if key == Some(GraphsKey) then
        if after == [] then Failure(EndOfInput)
        else if !after[0].StartArray? && SupportGraphsExtension in failing then Failure(Reported(SupportGraphsExtension))
        else
          match ScanGraphs(after[1..], f.contexts)
          case Failure(e) => Failure(e)
          case Success((cs, more)) => ScanFields(more, failing, f.(contexts := cs))
      else if FailOnUnknownProperty in failing then Failure(Reported(FailOnUnknownProperty))
      else ScanFields(after, failing, f)
  }

  /**
   * The object term built from the fields of one object: a type and a value
   * are required; a language tag or datatype only on a literal, where the
   * language tag wins over the datatype. An unrecognised type gives no term.
   */
  function BuildObject(f: ObjectFields): (r: Result<Option<Term>>)
    ensures r.Success? ==> f.typeText.Some? && f.valueText.Some?
    ensures f.typeText.None? ==> r == Failure(NoType)
    ensures f.typeText.Some? && f.valueText.None? ==> r == Failure(NoValue)
    ensures r.Success? && r.value.Some? && (f.language.Some? || f.datatypeIri.Some?) ==> f.typeText == Some(LiteralType)
    ensures r.Success? && r.value.Some? && r.value.value.Literal? ==>
      r.value.value.lexical == f.valueText.value && r.value.value.language == f.language &&
      r.value.value.datatypeIri == (if f.language.Some? then None else f.datatypeIri)
    ensures r.Success? && r.value.Some? && r.value.value.Iri? ==> r.value.value.iri == f.valueText.value
    ensures r.Success? && r.value.Some? && r.value.value.BNode? ==>
      |f.valueText.value| >= 2 && f.valueText.value[2..] == r.value.value.id
    ensures r.Success? && r.value.None? <==>
      f.typeText.Some? && f.valueText.Some? && f.typeText.value !in {LiteralType, BNodeType, UriType}
    ensures (f.typeText.Some? && f.typeText.value in {BNodeType, UriType} &&
             (f.language.Some? || f.datatypeIri.Some?)) ==> r.Failure?
    // what each type makes of a value
    ensures f.typeText == Some(LiteralType) && f.valueText.Some? ==>
      r == Success(Some(Literal(f.valueText.value, f.language, if f.language.Some? then None else f.datatypeIri)))
    ensures f.typeText == Some(UriType) && f.valueText.Some? ==>
      r == (if f.language.Some? then Failure(LanguageOnUri)
            else if f.datatypeIri.Some? then Failure(DatatypeOnUri)
            else Success(Some(Iri(f.valueText.value))))
    ensures f.typeText == Some(BNodeType) && f.valueText.Some? ==>
      r == (if f.language.Some? then Failure(LanguageOnBlankNode)
            else if f.datatypeIri.Some? then Failure(DatatypeOnBlankNode)
            else if |f.valueText.value| < 2 then Failure(ShortBlankNodeValue)
            else Success(Some(BNode(f.valueText.value[2..]))))
  {
    if f.typeText.None? then Failure(NoType)
    else if f.valueText.None? then Failure(NoValue)
    else
      var t, v := f.typeText.value, f.valueText.value;
      if t == LiteralType then
        if f.language.Some? then Success(Some(Literal(v, f.language, None)))
        else if f.datatypeIri.Some? then Success(Some(Literal(v, None, f.datatypeIri)))
        else Success(Some(Literal(v, None, None)))
      else if t == BNodeType then
        if f.language.Some? then Failure(LanguageOnBlankNode)
        else if f.datatypeIri.Some? then Failure(DatatypeOnBlankNode)
        else if |v| < 2 then Failure(ShortBlankNodeValue)
        else Success(Some(BNode(v[2..])))
      else if t == UriType then
        if f.language.Some? then Failure(LanguageOnUri)
        else if f.datatypeIri.Some? then Failure(DatatypeOnUri)
        else Success(Some(Iri(v)))
      else Success(None)
  }

  /** The context a graph name stands for: "null" is the default graph, otherwise a resource. */
  function ContextFor(g: string): (c: Option<Term>)
    ensures c.None? <==> g == NullGraph
    ensures c.Some? ==> c.value == ResourceFor(g) && NameOf(c.value) == g
  {
    if g == NullGraph then None else Some(ResourceFor(g))
  }

  /** The statements delivered for one object: one per graph name, or one without context when there is none. */
  function StatementsFor(subj: Term, pred: Term, obj: Option<Term>, cs: seq<string>): (r: seq<Statement>)
    ensures |r| == if cs == [] then 1 else |cs|
    ensures forall i :: 0 <= i < |r| ==> r[i].subj == subj && r[i].pred == pred && r[i].obj == obj
    ensures cs == [] ==> r[0].ctx.None?
    ensures forall i :: 0 <= i < |cs| ==> r[i].ctx == ContextFor(cs[i])
  {
    if cs == [] then [Statement(subj, pred, obj, None)]
    else seq(|cs|, i requires 0 <= i < |cs| => Statement(subj, pred, obj, ContextFor(cs[i])))
  }

  /** The loop over the objects of one predicate's array. */
  function ScanObjects(rest: seq<Token>, failing: set<Setting>, subj: Term, pred: Term, found: bool, out: seq<Statement>): (r: Progress)
    ensures out <= r.emitted
    ensures r.Continue? ==> |r.rest| < |rest|
    ensures r.Continue? && !found ==> |out| < |r.emitted|
    ensures WellTyped(out) && IsResource(subj) && pred.Iri? ==> WellTyped(r.emitted)
    decreases |rest|
  {
    if rest == [] then Halt(out, EndOfInput)
    else if rest[0].EndArray? then
      if found then Continue(rest[1..], out) else Halt(out, NoObject)
    else if !rest[0].StartObject? then Halt(out, ObjectNotObject)
    else
      match ScanFields(rest[1..], failing, NoFields)
      case Failure(e) => Halt(out, e)
      case Success((f, more)) =>
        match BuildObject(f)
        case Failure(e) => Halt(out, e)
        case Success(obj) => ScanObjects(more, failing, subj, pred, true, out + StatementsFor(subj, pred, obj, f.contexts))
  }

  /** The loop over the predicates of one subject. */
  function ScanPredicates(rest: seq<Token>, failing: set<Setting>, subj: Term, found: bool, out: seq<Statement>): (r: Progress)
    ensures out <= r.emitted
    ensures r.Continue? ==> |r.rest| < |rest|
    ensures r.Continue? && !found ==> |out| < |r.emitted|
    ensures WellTyped(out) && IsResource(subj) ==> WellTyped(r.emitted)
    decreases |rest|
  {
    if rest == [] then Halt(out, EndOfInput)
    else if rest[0].EndObject? then
      if found then Continue(rest[1..], out) else Halt(out, NoPredicate)
    else
      match CurrentName(rest[0])
      case None => Halt(out, MissingName)
      case Some(p) =>
        var after := rest[1..];
        if after == [] then Halt(out, EndOfInput)
        else if !after[0].StartArray? then Halt(out, PredicateNotArray)
        else
          match ScanObjects(after[1..], failing, subj, Iri(p), false, out)
          case Halt(o, e) => Halt(o, e)
          case Continue(more, o) => ScanPredicates(more, failing, subj, true, o)
  }

  /** A value, type, lang or datatype field that does not abort: its text fills the slot and the loop goes on after it. */
  lemma ScanScalarField(rest: seq<Token>, failing: set<Setting>, f: ObjectFields, g: ObjectFields)
    requires 2 <= |rest| && !rest[0].EndObject?
    requires || (CurrentName(rest[0]) == Some(ValueKey) && !(f.valueText.Some? && FailOnMultipleObjectValues in failing) &&
                 g == f.(valueText := Some(Text(rest[1]))))
             || (CurrentName(rest[0]) == Some(TypeKey) && !(f.typeText.Some? && FailOnMultipleObjectTypes in failing) &&
                 g == f.(typeText := Some(Text(rest[1]))))
             || (CurrentName(rest[0]) == Some(LangKey) && !(f.language.Some? && FailOnMultipleObjectLanguages in failing) &&
                 g == f.(language := Some(Text(rest[1]))))
             || (CurrentName(rest[0]) == Some(DatatypeKey) && !(f.datatypeIri.Some? && FailOnMultipleObjectDatatypes in failing) &&
                 g == f.(datatypeIri := Some(Text(rest[1]))))
    ensures ScanFields(rest, failing, f) == ScanFields(rest[2..], failing, g)
  {
    assert rest[1..][1..] == rest[2..];
  }

  /** A graphs field that does not abort reads its array: an error there is the field's error, otherwise its names are added and the loop goes on after the array. */
  lemma ScanGraphsField(rest: seq<Token>, failing: set<Setting>, f: ObjectFields)
    requires 2 <= |rest| && !rest[0].EndObject? && CurrentName(rest[0]) == Some(GraphsKey)
    requires !(!rest[1].StartArray? && SupportGraphsExtension in failing)
    ensures ScanFields(rest, failing, f)
         == (var g := ScanGraphs(rest[2..], f.contexts);
             if g.Failure? then Failure(g.error) else ScanFields(g.value.1, failing, f.(contexts := g.value.0)))
  {
    assert rest[1..][1..] == rest[2..];
  }

  /** An unknown field that does not abort is skipped. */
  lemma ScanUnknownField(rest: seq<Token>, failing: set<Setting>, f: ObjectFields)
    requires rest != [] && !rest[0].EndObject? && FailOnUnknownProperty !in failing
    requires CurrentName(rest[0]) !in {Some(ValueKey), Some(TypeKey), Some(LangKey), Some(DatatypeKey), Some(GraphsKey)}
    ensures ScanFields(rest, failing, f) == ScanFields(rest[1..], failing, f)
  {
  }

  /** One object of a predicate's array: its fields are read, the object is built, and its statements are emitted. */
  lemma ScanObjectsEntry(rest: seq<Token>, failing: set<Setting>, subj: Term, pred: Term, found: bool, out: seq<Statement>)
    requires rest != [] && rest[0].StartObject?
    ensures ScanObjects(rest, failing, subj, pred, found, out)
         == (var c := ScanFields(rest[1..], failing, NoFields);
             if c.Failure? then Halt(out, c.error)
             else
               var b := BuildObject(c.value.0);
               if b.Failure? then Halt(out, b.error)
               else ScanObjects(c.value.1, failing, subj, pred, true, out + StatementsFor(subj, pred, b.value, c.value.0.contexts)))
  {
  }

  /** An object whose fields are read and whose term is built adds its statements, and the array goes on after it. */
  lemma ScanObjectBuilt(rest: seq<Token>, failing: set<Setting>, subj: Term, pred: Term, found: bool, out: seq<Statement>,
                        f: ObjectFields, more: seq<Token>, obj: Option<Term>)
    requires rest != [] && rest[0].StartObject?
    requires ScanFields(rest[1..], failing, NoFields) == Success((f, more))
    requires BuildObject(f) == Success(obj)
    ensures ScanObjects(rest, failing, subj, pred, found, out)
         == ScanObjects(more, failing, subj, pred, true, out + StatementsFor(subj, pred, obj, f.contexts))
  {
  }

  /** A named field opening an array: its objects are read for that predicate, then the loop goes on. */
  lemma ScanPredicatesEntry(rest: seq<Token>, failing: set<Setting>, subj: Term, found: bool, out: seq<Statement>)
    requires 2 <= |rest| && CurrentName(rest[0]).Some? && rest[1].StartArray? && !rest[0].EndObject?
    ensures ScanPredicates(rest, failing, subj, found, out)
         == (var r := ScanObjects(rest[2..], failing, subj, Iri(CurrentName(rest[0]).value), false, out);
             if r.Halt? then r else ScanPredicates(r.rest, failing, subj, true, r.emitted))
  {
    assert rest[1..][1..] == rest[2..];
  }

  /** The loop over the subjects of the document; tokens after the closing brace are not read. */
  function ScanSubjects(rest: seq<Token>, failing: set<Setting>, out: seq<Statement>): (r: Outcome)
    ensures out <= r.emitted
    ensures WellTyped(out) ==> WellTyped(r.emitted)
    decreases |rest|
  {
    if rest == [] then Outcome(out, Some(EndOfInput))
    else if rest[0].EndObject? then Outcome(out, None)
    else
      match CurrentName(rest[0])
      case None => Outcome(out, Some(MissingName))
      case Some(s) =>
        var after := rest[1..];
        if after == [] then Outcome(out, Some(EndOfInput))
        else if !after[0].StartObject? then Outcome(out, Some(SubjectNotObject))
        else
          match ScanPredicates(after[1..], failing, ResourceFor(s), false, out)
          case Halt(o, e) => Outcome(o, Some(e))
          case Continue(more, o) => ScanSubjects(more, failing, o)
  }

  /** Decoding a whole token stream. */
  function Decode(ts: seq<Token>, failing: set<Setting>): (r: Outcome)
    ensures ts == [] || !ts[0].StartObject? ==> r == Outcome([], Some(DocumentNotObject))
    ensures WellTyped(r.emitted)
  {
    if ts == [] || !ts[0].StartObject? then Outcome([], Some(DocumentNotObject))
    else ScanSubjects(ts[1..], failing, [])
  }
}
