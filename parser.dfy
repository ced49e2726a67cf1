/**
 * The RDF/JSON decoding routine as it runs: a cursor `next` over the token
 * stream, the mutable locals of each loop, and the statements handed to the
 * RDF handler so far. Each loop of the routine is one method here, proved to
 * compute what the matching Scan function of RdfJsonDecoder describes.
 */
module RdfJsonParser {
  import opened JsonTokens
  import opened Rdf
  import opened RdfJsonDecoder

  /** Reads the names of a graphs array, after its opening token, up to and including its closing bracket. */
  method ParseGraphs(ts: seq<Token>, pos: nat, contexts: seq<string>) returns (cs: seq<string>, next: nat, err: Option<ParseError>)
    requires pos <= |ts|
    ensures next <= |ts|
    ensures err.None? ==> pos < next
    ensures ScanGraphs(ts[pos..], contexts) == if err.Some? then Failure(err.value) else Success((cs, ts[next..]))
  {
    cs, next := contexts, pos;
    while true
      invariant pos <= next <= |ts|
      invariant ScanGraphs(ts[next..], cs) == ScanGraphs(ts[pos..], contexts)
      decreases |ts| - next
    {
      if next == |ts| {
        err := Some(EndOfInput);
        return;
      }
      var t := ts[next];
      ghost var here, before := next, cs;
      assert ts[next..][1..] == ts[next + 1..];
      next := next + 1;
      if t.EndArray? {
        break;
      }
      var nextGraph := Text(t);
      if nextGraph !in cs {
        cs := cs + [nextGraph];
      }
      assert cs == AddContext(before, nextGraph);
      assert ScanGraphs(ts[here..], before) == ScanGraphs(ts[next..], cs);
    }
    err := None;
  }

  /** Reads the fields of one object, after its opening brace, up to and including its closing brace. */
  method ParseObjectFields(ts: seq<Token>, pos: nat, failing: set<Setting>) returns (f: ObjectFields, next: nat, err: Option<ParseError>)
    requires pos <= |ts|
    ensures next <= |ts|
    ensures err.None? ==> pos < next
    ensures ScanFields(ts[pos..], failing, NoFields) == if err.Some? then Failure(err.value) else Success((f, ts[next..]))
  {
    var nextValue: Option<string> := None;
    var nextType: Option<string> := None;
    var nextDatatype: Option<string> := None;
    var nextLanguage: Option<string> := None;
    var nextContexts: seq<string> := [];
    f, next := NoFields, pos;
    while true
      invariant pos <= next <= |ts|
      invariant ScanFields(ts[next..], failing, ObjectFields(nextValue, nextType, nextLanguage, nextDatatype, nextContexts))
             == ScanFields(ts[pos..], failing, NoFields)
      decreases |ts| - next
    {
      if next == |ts| {
        err := Some(EndOfInput);
        return;
      }
      var t := ts[next];
      ghost var here, fields := next, ObjectFields(nextValue, nextType, nextLanguage, nextDatatype, nextContexts);
      assert ts[next..][1..] == ts[next + 1..];
      next := next + 1;
      if t.EndObject? {
        break;
      }
      var fieldName := CurrentName(t);
      if fieldName == Some(ValueKey) {
        if nextValue.Some? && FailOnMultipleObjectValues in failing {
          err := Some(Reported(FailOnMultipleObjectValues));
          return;
        }
        if next == |ts| {
          err := Some(EndOfInput);
          return;
        }
        nextValue := Some(Text(ts[next]));
        next := next + 1;
        assert ts[here..][2..] == ts[next..];
        ScanScalarField(ts[here..], failing, fields, fields.(valueText := nextValue));
      } else if fieldName == Some(TypeKey) {
        if nextType.Some? && FailOnMultipleObjectTypes in failing {
          err := Some(Reported(FailOnMultipleObjectTypes));
          return;
        }
        if next == |ts| {
          err := Some(EndOfInput);
          return;
        }
        nextType := Some(Text(ts[next]));
        next := next + 1;
        assert ts[here..][2..] == ts[next..];
        ScanScalarField(ts[here..], failing, fields, fields.(typeText := nextType));
      } else if fieldName == Some(LangKey) {
        if nextLanguage.Some? && FailOnMultipleObjectLanguages in failing {
          err := Some(Reported(FailOnMultipleObjectLanguages));
          return;
        }
        if next == |ts| {
          err := Some(EndOfInput);
          return;
        }
        nextLanguage := Some(Text(ts[next]));
        next := next + 1;
        assert ts[here..][2..] == ts[next..];
        ScanScalarField(ts[here..], failing, fields, fields.(language := nextLanguage));
      } else if fieldName == Some(DatatypeKey) {
        if nextDatatype.Some? && FailOnMultipleObjectDatatypes in failing {
          err := Some(Reported(FailOnMultipleObjectDatatypes));
          return;
        }
        if next == |ts| {
          err := Some(EndOfInput);
          return;
        }
        nextDatatype := Some(Text(ts[next]));
        next := next + 1;
        assert ts[here..][2..] == ts[next..];
        ScanScalarField(ts[here..], failing, fields, fields.(datatypeIri := nextDatatype));
      } else if fieldName == Some(GraphsKey) {
        if next == |ts| {
          err := Some(EndOfInput);
          return;
        }
        var opening := ts[next];
        assert ts[next..][1..] == ts[next + 1..];
        next := next + 1;
        if !opening.StartArray? && SupportGraphsExtension in failing {
          err := Some(Reported(SupportGraphsExtension));
          return;
        }
        assert ts[here..][2..] == ts[next..];
        ScanGraphsField(ts[here..], failing, fields);
        var graphErr;
        nextContexts, next, graphErr := ParseGraphs(ts, next, nextContexts);
        if graphErr.Some? {
          err := graphErr;
          return;
        }
      } else if FailOnUnknownProperty in failing {
        err := Some(Reported(FailOnUnknownProperty));
        return;
      } else {
        ScanUnknownField(ts[here..], failing, fields);
      }
    }
    f := ObjectFields(nextValue, nextType, nextLanguage, nextDatatype, nextContexts);
    err := None;
  }

  /** Hands the statements for one object to the handler: one per graph name, or one without context. */
  method EmitStatements(subj: Term, pred: Term, obj: Option<Term>, contexts: seq<string>, out: seq<Statement>)
    returns (emitted: seq<Statement>)
    ensures emitted == out + StatementsFor(subj, pred, obj, contexts)
  {
    emitted := out;
    if contexts != [] {
      for i := 0 to |contexts|
        invariant emitted == out + StatementsFor(subj, pred, obj, contexts)[..i]
      {
        var nextContext := contexts[i];
        var context: Option<Term>;
        if nextContext == NullGraph {
          context := None;
        } else if HasBlankNodePrefix(nextContext) {
          context := Some(BNode(nextContext[2..]));
        } else {
          context := Some(Iri(nextContext));
        }
        emitted := emitted + [Statement(subj, pred, obj, context)];
      }
    } else {
      emitted := emitted + [Statement(subj, pred, obj, None)];
    }
  }

  /** Reads the objects of one predicate's array, after its opening bracket, up to and including its closing bracket. */
  method ParseObjects(ts: seq<Token>, pos: nat, failing: set<Setting>, subj: Term, pred: Term, out: seq<Statement>)
    returns (emitted: seq<Statement>, next: nat, err: Option<ParseError>)
    requires pos <= |ts|
    ensures next <= |ts|
    ensures err.None? ==> pos < next
    ensures ScanObjects(ts[pos..], failing, subj, pred, false, out)
         == if err.Some? then Halt(emitted, err.value) else Continue(ts[next..], emitted)
  {
    emitted, next := out, pos;
    var foundObject := false;
    while true
      invariant pos <= next <= |ts|
      invariant ScanObjects(ts[next..], failing, subj, pred, foundObject, emitted)
             == ScanObjects(ts[pos..], failing, subj, pred, false, out)
      decreases |ts| - next
    {
      if next == |ts| {
        err := Some(EndOfInput);
        return;
      }
      var t := ts[next];
      ghost var here := next;
      assert ts[next..][1..] == ts[next + 1..];
      if t.StartObject? {
        ScanObjectsEntry(ts[next..], failing, subj, pred, foundObject, emitted);
      }
      next := next + 1;
      if t.EndArray? {
        break;
      }
      if !t.StartObject? {
        err := Some(ObjectNotObject);
        return;
      }
      var f, afterObject, fieldErr := ParseObjectFields(ts, next, failing);
      if fieldErr.Some? {
        err := fieldErr;
        return;
      }
      var built := BuildObject(f);
      if built.Failure? {
        err := Some(built.error);
        return;
      }
      ScanObjectBuilt(ts[here..], failing, subj, pred, foundObject, emitted, f, ts[afterObject..], built.value);
      foundObject := true;
      emitted := EmitStatements(subj, pred, built.value, f.contexts, emitted);
      next := afterObject;
    }
    if !foundObject {
      err := Some(NoObject);
      return;
    }
    err := None;
  }

  /** Reads the predicates of one subject, after its opening brace, up to and including its closing brace. */
  method ParsePredicates(ts: seq<Token>, pos: nat, failing: set<Setting>, subj: Term, out: seq<Statement>)
    returns (emitted: seq<Statement>, next: nat, err: Option<ParseError>)
    requires pos <= |ts|
    ensures next <= |ts|
    ensures err.None? ==> pos < next
    ensures ScanPredicates(ts[pos..], failing, subj, false, out)
         == if err.Some? then Halt(emitted, err.value) else Continue(ts[next..], emitted)
  {
    emitted, next := out, pos;
    var foundPredicate := false;
    while true
      invariant pos <= next <= |ts|
      invariant ScanPredicates(ts[next..], failing, subj, foundPredicate, emitted)
             == ScanPredicates(ts[pos..], failing, subj, false, out)
      decreases |ts| - next
    {
      if next == |ts| {
        err := Some(EndOfInput);
        return;
      }
      ghost var wasFound, before := foundPredicate, ts[next..];
      var t := ts[next];
      assert ts[next..][1..] == ts[next + 1..];
      next := next + 1;
      if t.EndObject? {
        assert ScanPredicates(before, failing, subj, wasFound, emitted)
            == if wasFound then Continue(ts[next..], emitted) else Halt(emitted, NoPredicate);
        break;
      }
      var predStr := CurrentName(t);
      if predStr.None? {
        err := Some(MissingName);
        return;
      }
      var predIri := Iri(predStr.value);
      foundPredicate := true;
      if next == |ts| {
        err := Some(EndOfInput);
        return;
      }
      var opening := ts[next];
      assert ts[next..][1..] == ts[next + 1..];
      next := next + 1;
      if !opening.StartArray? {
        err := Some(PredicateNotArray);
        return;
      }
      assert before[2..] == ts[next..];
      ScanPredicatesEntry(before, failing, subj, wasFound, emitted);
      emitted, next, err := ParseObjects(ts, next, failing, subj, predIri, emitted);
      if err.Some? {
        return;
      }
    }
    if !foundPredicate {
      err := Some(NoPredicate);
      return;
    }
    err := None;
  }

  /**
   * Decodes a whole token stream: the document must open with an object
   * whose fields are the subjects. Returns the statements handed to the
   * handler, in order, and the error that stopped the decoding, if any.
   */
  method ParseRdfJson(ts: seq<Token>, failing: set<Setting>) returns (emitted: seq<Statement>, err: Option<ParseError>)
    ensures Outcome(emitted, err) == Decode(ts, failing)
  {
    emitted := [];
    if ts == [] || !ts[0].StartObject? {
      err := Some(DocumentNotObject);
      return;
    }
    var next := 1;
    while true
      invariant 1 <= next <= |ts|
      invariant ScanSubjects(ts[next..], failing, emitted) == Decode(ts, failing)
      decreases |ts| - next
    {
      if next == |ts| {
        err := Some(EndOfInput);
        return;
      }
      var t := ts[next];
      assert ts[next..][1..] == ts[next + 1..];
      next := next + 1;
      if t.EndObject? {
        break;
      }
      var subjStr := CurrentName(t);
      if subjStr.None? {
        err := Some(MissingName);
        return;
      }
      var subject := if HasBlankNodePrefix(subjStr.value) then BNode(subjStr.value[2..]) else Iri(subjStr.value);
      if next == |ts| {
        err := Some(EndOfInput);
        return;
      }
      var opening := ts[next];
      assert ts[next..][1..] == ts[next + 1..];
      next := next + 1;
      if !opening.StartObject? {
        err := Some(SubjectNotObject);
        return;
      }
      emitted, next, err := ParsePredicates(ts, next, failing, subject, emitted);
      if err.Some? {
        return;
      }
    }
    err := None;
  }
}
