/**
 * RDF/JSON documents as a tree, the token stream a JSON parser delivers for
 * them, and what such a document means: the statements it denotes, or the
 * first error in document order. The theorem DecodeSerialized connects this
 * reference semantics to the token-level decoder.
 */
module RdfJsonDocument {
  import opened JsonTokens
  import opened Rdf
  import opened RdfJsonDecoder

  /** One field of an object in a predicate's array; OtherField is any field of another name. */
  datatype Field =
    | ValueField(text: string)
    | TypeField(text: string)
    | LangField(text: string)
    | DatatypeField(text: string)
    | GraphsField(names: seq<string>)
    | OtherField(key: string, text: string)

  datatype ObjectNode = ObjectNode(fields: seq<Field>)
  datatype PredicateNode = PredicateNode(iri: string, objects: seq<ObjectNode>)
  datatype SubjectNode = SubjectNode(name: string, predicates: seq<PredicateNode>)
  datatype Document = Document(subjects: seq<SubjectNode>)

  predicate KnownKey(k: string)
  {
    k == ValueKey || k == TypeKey || k == LangKey || k == DatatypeKey || k == GraphsKey
  }

  /** Every OtherField really has a name the decoder does not recognise. */
  predicate FieldsWellKeyed(fs: seq<Field>)
  {
    forall i :: 0 <= i < |fs| ==> fs[i].OtherField? ==> !KnownKey(fs[i].key)
  }

  predicate ObjectsWellKeyed(os: seq<ObjectNode>)
  {
    forall i :: 0 <= i < |os| ==> FieldsWellKeyed(os[i].fields)
  }

  predicate PredicatesWellKeyed(ps: seq<PredicateNode>)
  {
    forall i :: 0 <= i < |ps| ==> ObjectsWellKeyed(ps[i].objects)
  }

  predicate SubjectsWellKeyed(ss: seq<SubjectNode>)
  {
    forall i :: 0 <= i < |ss| ==> PredicatesWellKeyed(ss[i].predicates)
  }

  // ---------------------------------------------------------------------
  // The token stream of a document

  function GraphTokens(gs: seq<string>): seq<Token>
  {
    if gs == [] then [] else [Scalar(gs[0], None)] + GraphTokens(gs[1..])
  }

  function FieldTokens(field: Field): seq<Token>
  {
    match field
    case ValueField(t) => [FieldName(ValueKey), Scalar(t, Some(ValueKey))]
    case TypeField(t) => [FieldName(TypeKey), Scalar(t, Some(TypeKey))]
    case LangField(t) => [FieldName(LangKey), Scalar(t, Some(LangKey))]
    case DatatypeField(t) => [FieldName(DatatypeKey), Scalar(t, Some(DatatypeKey))]
    case GraphsField(gs) =>
      [FieldName(GraphsKey), StartArray(Some(GraphsKey))] + GraphTokens(gs) + [EndArray(Some(GraphsKey))]
    case OtherField(k, t) => [FieldName(k), Scalar(t, Some(k))]
  }

  function FieldsTokens(fs: seq<Field>): seq<Token>
  {
    if fs == [] then [] else FieldTokens(fs[0]) + FieldsTokens(fs[1..])
  }

  function ObjectsTokens(os: seq<ObjectNode>): seq<Token>
  {
    if os == [] then []
    else [StartObject(None)] + FieldsTokens(os[0].fields) + [EndObject(None)] + ObjectsTokens(os[1..])
  }

  function PredicatesTokens(ps: seq<PredicateNode>): seq<Token>
  {
    if ps == [] then []
    else
      PredicateTokens(ps[0]) + PredicatesTokens(ps[1..])
  }

  function SubjectsTokens(ss: seq<SubjectNode>): seq<Token>
  {
    if ss == [] then []
    else
      SubjectTokens(ss[0]) + SubjectsTokens(ss[1..])
  }

  function Serialize(doc: Document): seq<Token>
  {
    [StartObject(None)] + SubjectsTokens(doc.subjects) + [EndObject(None)]
  }

  // ---------------------------------------------------------------------
  // What a document means

  /** Adds graph names one by one to a duplicate-free list of names. */
  function AddContexts(cs: seq<string>, gs: seq<string>): seq<string>
    decreases |gs|
  {
    if gs == [] then cs else AddContexts(AddContext(cs, gs[0]), gs[1..])
  }

  /** One field applied to the fields read so far; repeated and unknown fields abort when their setting says so. */
  function ApplyField(f: ObjectFields, field: Field, failing: set<Setting>): Result<ObjectFields>
  {
    match field
    case ValueField(t) =>
      if f.valueText.Some? && FailOnMultipleObjectValues in failing then Failure(Reported(FailOnMultipleObjectValues))
      else Success(f.(valueText := Some(t)))
    case TypeField(t) =>
      if f.typeText.Some? && FailOnMultipleObjectTypes in failing then Failure(Reported(FailOnMultipleObjectTypes))
      else Success(f.(typeText := Some(t)))
    case LangField(t) =>
      if f.language.Some? && FailOnMultipleObjectLanguages in failing then Failure(Reported(FailOnMultipleObjectLanguages))
      else Success(f.(language := Some(t)))
    case DatatypeField(t) =>
      if f.datatypeIri.Some? && FailOnMultipleObjectDatatypes in failing then Failure(Reported(FailOnMultipleObjectDatatypes))
      else Success(f.(datatypeIri := Some(t)))
    case GraphsField(gs) => Success(f.(contexts := AddContexts(f.contexts, gs)))
    case OtherField(_, _) =>
      if FailOnUnknownProperty in failing then Failure(Reported(FailOnUnknownProperty)) else Success(f)
  }

  function CollectFields(f: ObjectFields, fs: seq<Field>, failing: set<Setting>): Result<ObjectFields>
    decreases |fs|
  {
    if fs == [] then Success(f)
    else
      match ApplyField(f, fs[0], failing)
      case Failure(e) => Failure(e)
      case Success(g) => CollectFields(g, fs[1..], failing)
  }

  function DenoteObject(subj: Term, pred: Term, o: ObjectNode, failing: set<Setting>): Result<seq<Statement>>
  {
    match CollectFields(NoFields, o.fields, failing)
    case Failure(e) => Failure(e)
    case Success(f) =>
      match BuildObject(f)
      case Failure(e) => Failure(e)
      case Success(obj) => Success(StatementsFor(subj, pred, obj, f.contexts))
  }

  /** `a`, then `b` unless `a` stopped with an error. */
  function Then(a: Outcome, b: Outcome): Outcome
  {
    if a.error.Some? then a else Outcome(a.emitted + b.emitted, b.error)
  }

  function DenoteObjects(subj: Term, pred: Term, os: seq<ObjectNode>, failing: set<Setting>): Outcome
  {
    if os == [] then Outcome([], None)
    else
      match DenoteObject(subj, pred, os[0], failing)
      case Failure(e) => Outcome([], Some(e))
      case Success(sts) => Then(Outcome(sts, None), DenoteObjects(subj, pred, os[1..], failing))
  }

  /** A predicate with no object is an error. */
  function DenotePredicate(subj: Term, p: PredicateNode, failing: set<Setting>): Outcome
  {
    if p.objects == [] then Outcome([], Some(NoObject))
    else DenoteObjects(subj, Iri(p.iri), p.objects, failing)
  }

  function DenotePredicates(subj: Term, ps: seq<PredicateNode>, failing: set<Setting>): Outcome
  {
    if ps == [] then Outcome([], None)
    else Then(DenotePredicate(subj, ps[0], failing), DenotePredicates(subj, ps[1..], failing))
  }

  /** A subject with no predicate is an error. */
  function DenoteSubject(s: SubjectNode, failing: set<Setting>): Outcome
  {
    if s.predicates == [] then Outcome([], Some(NoPredicate))
    else DenotePredicates(ResourceFor(s.name), s.predicates, failing)
  }

  function DenoteSubjects(ss: seq<SubjectNode>, failing: set<Setting>): Outcome
  {
    if ss == [] then Outcome([], None)
    else Then(DenoteSubject(ss[0], failing), DenoteSubjects(ss[1..], failing))
  }

  function Denote(doc: Document, failing: set<Setting>): Outcome
  {
    DenoteSubjects(doc.subjects, failing)
  }

  // ---------------------------------------------------------------------
  // The decoder computes the meaning of every serialized document

  /** An inner loop's end, given what the rest of its part of the document means. */
  function Resume(o: Outcome, out: seq<Statement>, tail: seq<Token>): Progress
  {
    if o.error.Some? then Halt(out + o.emitted, o.error.value) else Continue(tail, out + o.emitted)
  }

  /** The outer loop's end, given what the rest of the document means. */
  function Finish(o: Outcome, out: seq<Statement>): Outcome
  {
    Outcome(out + o.emitted, o.error)
  }

  /** Finishing after a part that emitted `sts` without error is finishing the rest with `sts` already emitted. */
  lemma FinishThen(sts: seq<Statement>, d: Outcome, out: seq<Statement>)
    ensures Finish(Then(Outcome(sts, None), d), out) == Finish(d, out + sts)
  {
    assert out + (sts + d.emitted) == out + sts + d.emitted;
  }

  /** Resuming after a part that emitted `sts` without error is resuming the rest with `sts` already emitted. */
  lemma ResumeThen(sts: seq<Statement>, d: Outcome, out: seq<Statement>, tail: seq<Token>)
    ensures Resume(Then(Outcome(sts, None), d), out, tail) == Resume(d, out + sts, tail)
  {
    assert out + (sts + d.emitted) == out + sts + d.emitted;
  }

  lemma {:induction false} ScanGraphsOf(gs: seq<string>, cs: seq<string>, n: Option<string>, tail: seq<Token>)
    ensures ScanGraphs(GraphTokens(gs) + [EndArray(n)] + tail, cs) == Success((AddContexts(cs, gs), tail))
    decreases |gs|
  {
    var rest := GraphTokens(gs) + [EndArray(n)] + tail;
    if gs == [] {
      assert rest == [EndArray(n)] + tail;
      assert rest[1..] == tail;
    } else {
      assert rest == [Scalar(gs[0], None)] + (GraphTokens(gs[1..]) + [EndArray(n)] + tail);
      assert rest[1..] == GraphTokens(gs[1..]) + [EndArray(n)] + tail;
      ScanGraphsOf(gs[1..], AddContext(cs, gs[0]), n, tail);
    }
  }

  /** Reading the tokens of one field does what applying the field says. */
  lemma ScanFieldStep(field: Field, f: ObjectFields, failing: set<Setting>, more: seq<Token>)
    requires field.OtherField? ==> !KnownKey(field.key)
    ensures ApplyField(f, field, failing).Failure? ==>
              ScanFields(FieldTokens(field) + more, failing, f) == Failure(ApplyField(f, field, failing).error)
    ensures ApplyField(f, field, failing).Success? ==>
              ScanFields(FieldTokens(field) + more, failing, f) == ScanFields(more, failing, ApplyField(f, field, failing).value)
  {
    if field.GraphsField? {
      ScanGraphsFieldStep(field.names, f, failing, more);
    } else if field.OtherField? {
      ScanOtherFieldStep(field, f, failing, more);
    } else {
      ScanScalarFieldStep(field, f, failing, more);
    }
  }

  lemma ScanScalarFieldStep(field: Field, f: ObjectFields, failing: set<Setting>, more: seq<Token>)
    requires field.ValueField? || field.TypeField? || field.LangField? || field.DatatypeField?
    ensures ApplyField(f, field, failing).Failure? ==>
              ScanFields(FieldTokens(field) + more, failing, f) == Failure(ApplyField(f, field, failing).error)
    ensures ApplyField(f, field, failing).Success? ==>
              ScanFields(FieldTokens(field) + more, failing, f) == ScanFields(more, failing, ApplyField(f, field, failing).value)
  {
    var rest := FieldTokens(field) + more;
    assert rest[0] == FieldTokens(field)[0];
    assert rest[1..][0] == FieldTokens(field)[1];
    assert rest[1..][1..] == more;
  }

  lemma ScanGraphsFieldStep(gs: seq<string>, f: ObjectFields, failing: set<Setting>, more: seq<Token>)
    ensures ScanFields(FieldTokens(GraphsField(gs)) + more, failing, f)
         == ScanFields(more, failing, f.(contexts := AddContexts(f.contexts, gs)))
  {
    var inner := GraphTokens(gs) + [EndArray(Some(GraphsKey))] + more;
    assert FieldTokens(GraphsField(gs)) + more == [FieldName(GraphsKey), StartArray(Some(GraphsKey))] + inner;
    var rest := [FieldName(GraphsKey), StartArray(Some(GraphsKey))] + inner;
    assert rest[2..] == inner;
    ScanGraphsField(rest, failing, f);
    ScanGraphsOf(gs, f.contexts, Some(GraphsKey), more);
  }

  lemma ScanOtherFieldStep(field: Field, f: ObjectFields, failing: set<Setting>, more: seq<Token>)
    requires field.OtherField? && !KnownKey(field.key)
    ensures ApplyField(f, field, failing).Failure? ==>
              ScanFields(FieldTokens(field) + more, failing, f) == Failure(ApplyField(f, field, failing).error)
    ensures ApplyField(f, field, failing).Success? ==>
              ScanFields(FieldTokens(field) + more, failing, f) == ScanFields(more, failing, ApplyField(f, field, failing).value)
  {
    var rest := FieldTokens(field) + more;
    assert rest[0] == FieldName(field.key);
    assert rest[1..] == [Scalar(field.text, Some(field.key))] + more;
    assert rest[1..][1..] == more;
  }

  lemma {:induction false} ScanFieldsOf(fs: seq<Field>, f: ObjectFields, failing: set<Setting>, n: Option<string>, tail: seq<Token>)
    requires FieldsWellKeyed(fs)
    ensures CollectFields(f, fs, failing).Failure? ==>
              ScanFields(FieldsTokens(fs) + [EndObject(n)] + tail, failing, f) == Failure(CollectFields(f, fs, failing).error)
    ensures CollectFields(f, fs, failing).Success? ==>
              ScanFields(FieldsTokens(fs) + [EndObject(n)] + tail, failing, f) == Success((CollectFields(f, fs, failing).value, tail))
    decreases |fs|
  {
    var rest := FieldsTokens(fs) + [EndObject(n)] + tail;
    if fs == [] {
      assert rest == [EndObject(n)] + tail;
      assert rest[1..] == tail;
    } else {
      var more := FieldsTokens(fs[1..]) + [EndObject(n)] + tail;
      assert rest == FieldTokens(fs[0]) + more;
      FieldsWellKeyedTail(fs);
      ScanFieldStep(fs[0], f, failing, more);
      var step := ApplyField(f, fs[0], failing);
      if step.Failure? {
        assert CollectFields(f, fs, failing) == Failure(step.error);
        assert ScanFields(rest, failing, f) == Failure(step.error);
      } else {
        assert CollectFields(f, fs, failing) == CollectFields(step.value, fs[1..], failing);
        assert ScanFields(rest, failing, f) == ScanFields(more, failing, step.value);
        ScanFieldsOf(fs[1..], step.value, failing, n, tail);
      }
    }
  }

  lemma FieldsWellKeyedTail(fs: seq<Field>)
    requires fs != [] && FieldsWellKeyed(fs)
    ensures FieldsWellKeyed(fs[1..])
  {
    forall i | 0 <= i < |fs[1..]| && fs[1..][i].OtherField? ensures !KnownKey(fs[1..][i].key) {
      assert fs[1..][i] == fs[i + 1];
    }
  }

  /** Reading the tokens of one object does what DenoteObject says. */
  lemma ScanObjectStep(o: ObjectNode, failing: set<Setting>, subj: Term, pred: Term, found: bool, out: seq<Statement>, more: seq<Token>)
    requires FieldsWellKeyed(o.fields)
    ensures DenoteObject(subj, pred, o, failing).Failure? ==>
              ScanObjects([StartObject(None)] + FieldsTokens(o.fields) + [EndObject(None)] + more, failing, subj, pred, found, out)
              == Halt(out, DenoteObject(subj, pred, o, failing).error)
    ensures DenoteObject(subj, pred, o, failing).Success? ==>
              ScanObjects([StartObject(None)] + FieldsTokens(o.fields) + [EndObject(None)] + more, failing, subj, pred, found, out)
              == ScanObjects(more, failing, subj, pred, true, out + DenoteObject(subj, pred, o, failing).value)
  {
    var inner := FieldsTokens(o.fields) + [EndObject(None)] + more;
    assert [StartObject(None)] + FieldsTokens(o.fields) + [EndObject(None)] + more == [StartObject(None)] + inner;
    assert ScanObjects([StartObject(None)] + inner, failing, subj, pred, found, out)
        == (var c := ScanFields(inner, failing, NoFields);
            if c.Failure? then Halt(out, c.error)
            else
              var b := BuildObject(c.value.0);
              if b.Failure? then Halt(out, b.error)
              else ScanObjects(c.value.1, failing, subj, pred, true, out + StatementsFor(subj, pred, b.value, c.value.0.contexts))) by {
      assert ([StartObject(None)] + inner)[1..] == inner;
      ScanObjectsEntry([StartObject(None)] + inner, failing, subj, pred, found, out);
    }
    ScanFieldsOf(o.fields, NoFields, failing, None, more);
    var c := CollectFields(NoFields, o.fields, failing);
    if c.Failure? {
      assert ScanFields(inner, failing, NoFields) == Failure(c.error);
      assert DenoteObject(subj, pred, o, failing) == Failure(c.error);
    } else {
      assert ScanFields(inner, failing, NoFields) == Success((c.value, more));
      var b := BuildObject(c.value);
      assert DenoteObject(subj, pred, o, failing)
          == if b.Failure? then Failure(b.error) else Success(StatementsFor(subj, pred, b.value, c.value.contexts));
    }
  }

  lemma {:induction false} ScanObjectsOf(os: seq<ObjectNode>, failing: set<Setting>, subj: Term, pred: Term, found: bool,
                                         out: seq<Statement>, n: Option<string>, tail: seq<Token>)
    requires ObjectsWellKeyed(os)
    requires found || os != []
    ensures ScanObjects(ObjectsTokens(os) + [EndArray(n)] + tail, failing, subj, pred, found, out)
         == Resume(DenoteObjects(subj, pred, os, failing), out, tail)
    decreases |os|
  {
    var rest := ObjectsTokens(os) + [EndArray(n)] + tail;
    if os == [] {
      assert rest == [EndArray(n)] + tail;
      assert rest[1..] == tail;
      assert out + [] == out;
    } else {
      var more := ObjectsTokens(os[1..]) + [EndArray(n)] + tail;
      assert rest == [StartObject(None)] + FieldsTokens(os[0].fields) + [EndObject(None)] + more;
      assert FieldsWellKeyed(os[0].fields);
      ScanObjectStep(os[0], failing, subj, pred, found, out, more);
      assert ObjectsWellKeyed(os[1..]) by {
        forall i | 0 <= i < |os[1..]| ensures FieldsWellKeyed(os[1..][i].fields) {
          assert os[1..][i] == os[i + 1];
        }
      }
      var r := DenoteObject(subj, pred, os[0], failing);
      if r.Failure? {
        assert out + [] == out;
      } else {
        var d := DenoteObjects(subj, pred, os[1..], failing);
        assert DenoteObjects(subj, pred, os, failing) == Then(Outcome(r.value, None), d);
        ScanObjectsOf(os[1..], failing, subj, pred, true, out + r.value, n, tail);
        ResumeThen(r.value, d, out, tail);
      }
    }
  }

  /** The tokens of one predicate: its name, then the array of its objects. */
  function PredicateTokens(p: PredicateNode): seq<Token>
  {
    [FieldName(p.iri), StartArray(Some(p.iri))] + ObjectsTokens(p.objects) + [EndArray(Some(p.iri))]
  }

  /** Reading the tokens of one predicate does what DenotePredicate says. */
  lemma ScanPredicateStep(p: PredicateNode, failing: set<Setting>, subj: Term, found: bool, out: seq<Statement>, more: seq<Token>)
    requires ObjectsWellKeyed(p.objects)
    ensures DenotePredicate(subj, p, failing).error.Some? ==>
              ScanPredicates(PredicateTokens(p) + more, failing, subj, found, out)
              == Halt(out + DenotePredicate(subj, p, failing).emitted, DenotePredicate(subj, p, failing).error.value)
    ensures DenotePredicate(subj, p, failing).error.None? ==>
              ScanPredicates(PredicateTokens(p) + more, failing, subj, found, out)
              == ScanPredicates(more, failing, subj, true, out + DenotePredicate(subj, p, failing).emitted)
  {
    var inner := ObjectsTokens(p.objects) + [EndArray(Some(p.iri))] + more;
    assert PredicateTokens(p) + more == [FieldName(p.iri), StartArray(Some(p.iri))] + inner;
    var r := ScanObjects(inner, failing, subj, Iri(p.iri), false, out);
    assert ScanPredicates(PredicateTokens(p) + more, failing, subj, found, out)
        == if r.Halt? then r else ScanPredicates(r.rest, failing, subj, true, r.emitted) by {
      assert ([FieldName(p.iri), StartArray(Some(p.iri))] + inner)[2..] == inner;
      ScanPredicatesEntry([FieldName(p.iri), StartArray(Some(p.iri))] + inner, failing, subj, found, out);
    }
    if p.objects == [] {
      assert inner == [EndArray(Some(p.iri))] + more;
      assert r == Halt(out, NoObject);
      assert out + [] == out;
    } else {
      ScanObjectsOf(p.objects, failing, subj, Iri(p.iri), false, out, Some(p.iri), more);
      assert r == Resume(DenotePredicate(subj, p, failing), out, more);
    }
  }

  lemma {:induction false} ScanPredicatesOf(ps: seq<PredicateNode>, failing: set<Setting>, subj: Term, found: bool,
                                            out: seq<Statement>, n: Option<string>, tail: seq<Token>)
    requires PredicatesWellKeyed(ps)
    requires found || ps != []
    ensures ScanPredicates(PredicatesTokens(ps) + [EndObject(n)] + tail, failing, subj, found, out)
         == Resume(DenotePredicates(subj, ps, failing), out, tail)
    decreases |ps|
  {
    var rest := PredicatesTokens(ps) + [EndObject(n)] + tail;
    if ps == [] {
      assert rest == [EndObject(n)] + tail;
      assert rest[1..] == tail;
      assert out + [] == out;
    } else {
      var p := ps[0];
      var more := PredicatesTokens(ps[1..]) + [EndObject(n)] + tail;
      assert rest == PredicateTokens(p) + more;
      assert ObjectsWellKeyed(p.objects);
      ScanPredicateStep(p, failing, subj, found, out, more);
      assert PredicatesWellKeyed(ps[1..]) by {
        forall i | 0 <= i < |ps[1..]| ensures ObjectsWellKeyed(ps[1..][i].objects) {
          assert ps[1..][i] == ps[i + 1];
        }
      }
      var d := DenotePredicate(subj, p, failing);
      if d.error.None? {
        var d' := DenotePredicates(subj, ps[1..], failing);
        assert DenotePredicates(subj, ps, failing) == Then(Outcome(d.emitted, None), d');
        ScanPredicatesOf(ps[1..], failing, subj, true, out + d.emitted, n, tail);
        ResumeThen(d.emitted, d', out, tail);
      }
    }
  }

  /** A named field opening an object hands the object to the predicate loop for that subject. */
  lemma ScanSubjectsOpening(failing: set<Setting>, out: seq<Statement>, s: string, inner: seq<Token>)
    ensures ScanSubjects([FieldName(s), StartObject(Some(s))] + inner, failing, out)
         == (var r := ScanPredicates(inner, failing, ResourceFor(s), false, out);
             if r.Halt? then Outcome(r.emitted, Some(r.error)) else ScanSubjects(r.rest, failing, r.emitted))
  {
    var rest := [FieldName(s), StartObject(Some(s))] + inner;
    assert rest[1..][1..] == inner;
  }

  /** The tokens of one subject: its name, then the object of its predicates. */
  function SubjectTokens(s: SubjectNode): seq<Token>
  {
    [FieldName(s.name), StartObject(Some(s.name))] + PredicatesTokens(s.predicates) + [EndObject(Some(s.name))]
  }

  /** Reading the tokens of one subject does what DenoteSubject says. */
  lemma ScanSubjectStep(s: SubjectNode, failing: set<Setting>, out: seq<Statement>, more: seq<Token>)
    requires PredicatesWellKeyed(s.predicates)
    ensures DenoteSubject(s, failing).error.Some? ==>
              ScanSubjects(SubjectTokens(s) + more, failing, out) == Outcome(out + DenoteSubject(s, failing).emitted, DenoteSubject(s, failing).error)
    ensures DenoteSubject(s, failing).error.None? ==>
              ScanSubjects(SubjectTokens(s) + more, failing, out) == ScanSubjects(more, failing, out + DenoteSubject(s, failing).emitted)
  {
    var inner := PredicatesTokens(s.predicates) + [EndObject(Some(s.name))] + more;
    assert SubjectTokens(s) + more == [FieldName(s.name), StartObject(Some(s.name))] + inner;
    ScanSubjectsOpening(failing, out, s.name, inner);
    var r := ScanPredicates(inner, failing, ResourceFor(s.name), false, out);
    if s.predicates == [] {
      assert inner == [EndObject(Some(s.name))] + more;
      assert r == Halt(out, NoPredicate);
      assert out + [] == out;
    } else {
      ScanPredicatesOf(s.predicates, failing, ResourceFor(s.name), false, out, Some(s.name), more);
      assert r == Resume(DenoteSubject(s, failing), out, more);
    }
  }

  lemma {:induction false} ScanSubjectsOf(ss: seq<SubjectNode>, failing: set<Setting>, out: seq<Statement>,
                                          n: Option<string>, tail: seq<Token>)
    requires SubjectsWellKeyed(ss)
    ensures ScanSubjects(SubjectsTokens(ss) + [EndObject(n)] + tail, failing, out) == Finish(DenoteSubjects(ss, failing), out)
    decreases |ss|
  {
    var rest := SubjectsTokens(ss) + [EndObject(n)] + tail;
    if ss == [] {
      assert rest == [EndObject(n)] + tail;
      assert out + [] == out;
    } else {
      var s := ss[0];
      var more := SubjectsTokens(ss[1..]) + [EndObject(n)] + tail;
      assert rest == SubjectTokens(s) + more;
      assert PredicatesWellKeyed(s.predicates);
      ScanSubjectStep(s, failing, out, more);
      assert SubjectsWellKeyed(ss[1..]) by {
        forall i | 0 <= i < |ss[1..]| ensures PredicatesWellKeyed(ss[1..][i].predicates) {
          assert ss[1..][i] == ss[i + 1];
        }
      }
      var d := DenoteSubject(s, failing);
      if d.error.None? {
        var d' := DenoteSubjects(ss[1..], failing);
        assert DenoteSubjects(ss, failing) == Then(Outcome(d.emitted, None), d');
        ScanSubjectsOf(ss[1..], failing, out + d.emitted, n, tail);
        FinishThen(d.emitted, d', out);
      }
    }
  }

  // ---------------------------------------------------------------------
  // Structure violations after a well-formed prefix are fatal

  /** Emitting `a` and then `b` after `out` is emitting their concatenation. */
  lemma EmitInTurn(out: seq<Statement>, a: seq<Statement>, b: seq<Statement>, ab: seq<Statement>)
    requires ab == a + b
    ensures out + a + b == out + ab
  {
  }

  /**
   * A non-empty, error-free sequence of objects, split into its first object
   * and the rest: tokens, well-keyedness and statements all split alike.
   */
  lemma ObjectsCons(subj: Term, pred: Term, os: seq<ObjectNode>, failing: set<Setting>, rest: seq<Token>)
    requires os != [] && ObjectsWellKeyed(os) && DenoteObjects(subj, pred, os, failing).error.None?
    ensures ObjectsTokens(os) + rest == [StartObject(None)] + FieldsTokens(os[0].fields) + [EndObject(None)] + (ObjectsTokens(os[1..]) + rest)
    ensures FieldsWellKeyed(os[0].fields) && ObjectsWellKeyed(os[1..])
    ensures DenoteObject(subj, pred, os[0], failing).Success?
    ensures DenoteObjects(subj, pred, os[1..], failing).error.None?
    ensures DenoteObjects(subj, pred, os, failing).emitted
         == DenoteObject(subj, pred, os[0], failing).value + DenoteObjects(subj, pred, os[1..], failing).emitted
  {
    assert ObjectsWellKeyed(os[1..]) by {
      forall i | 0 <= i < |os[1..]| ensures FieldsWellKeyed(os[1..][i].fields) {
        assert os[1..][i] == os[i + 1];
      }
    }
  }

  /** The same split for a non-empty, error-free sequence of predicates. */
  lemma PredicatesCons(subj: Term, ps: seq<PredicateNode>, failing: set<Setting>, rest: seq<Token>)
    requires ps != [] && PredicatesWellKeyed(ps) && DenotePredicates(subj, ps, failing).error.None?
    ensures PredicatesTokens(ps) + rest == PredicateTokens(ps[0]) + (PredicatesTokens(ps[1..]) + rest)
    ensures ObjectsWellKeyed(ps[0].objects) && PredicatesWellKeyed(ps[1..])
    ensures DenotePredicate(subj, ps[0], failing).error.None?
    ensures DenotePredicates(subj, ps[1..], failing).error.None?
    ensures DenotePredicates(subj, ps, failing).emitted
         == DenotePredicate(subj, ps[0], failing).emitted + DenotePredicates(subj, ps[1..], failing).emitted
  {
    assert PredicatesWellKeyed(ps[1..]) by {
      forall i | 0 <= i < |ps[1..]| ensures ObjectsWellKeyed(ps[1..][i].objects) {
        assert ps[1..][i] == ps[i + 1];
      }
    }
  }

  /** The same split for a non-empty, error-free sequence of subjects. */
  lemma SubjectsCons(ss: seq<SubjectNode>, failing: set<Setting>, rest: seq<Token>)
    requires ss != [] && SubjectsWellKeyed(ss) && DenoteSubjects(ss, failing).error.None?
    ensures SubjectsTokens(ss) + rest == SubjectTokens(ss[0]) + (SubjectsTokens(ss[1..]) + rest)
    ensures PredicatesWellKeyed(ss[0].predicates) && SubjectsWellKeyed(ss[1..])
    ensures DenoteSubject(ss[0], failing).error.None?
    ensures DenoteSubjects(ss[1..], failing).error.None?
    ensures DenoteSubjects(ss, failing).emitted == DenoteSubject(ss[0], failing).emitted + DenoteSubjects(ss[1..], failing).emitted
  {
    assert SubjectsWellKeyed(ss[1..]) by {
      forall i | 0 <= i < |ss[1..]| ensures PredicatesWellKeyed(ss[1..][i].predicates) {
        assert ss[1..][i] == ss[i + 1];
      }
    }
  }

  /** Objects that decode without error deliver their statements and leave the rest of the array to the loop. */
  lemma {:induction false} ScanObjectsPrefix(os: seq<ObjectNode>, failing: set<Setting>, subj: Term, pred: Term, found: bool,
                                             out: seq<Statement>, rest: seq<Token>)
    requires ObjectsWellKeyed(os)
    requires DenoteObjects(subj, pred, os, failing).error.None?
    ensures ScanObjects(ObjectsTokens(os) + rest, failing, subj, pred, found, out)
         == ScanObjects(rest, failing, subj, pred, found || os != [], out + DenoteObjects(subj, pred, os, failing).emitted)
    decreases |os|
  {
    if os == [] {
      assert ObjectsTokens(os) + rest == rest;
      assert out + [] == out;
    } else {
      var more := ObjectsTokens(os[1..]) + rest;
      ObjectsCons(subj, pred, os, failing, rest);
      var sts := DenoteObject(subj, pred, os[0], failing).value;
      var e := DenoteObjects(subj, pred, os, failing).emitted;
      ScanObjectStep(os[0], failing, subj, pred, found, out, more);
      ScanObjectsPrefix(os[1..], failing, subj, pred, true, out + sts, rest);
      EmitInTurn(out, sts, DenoteObjects(subj, pred, os[1..], failing).emitted, e);
      assert ScanObjects(more, failing, subj, pred, true, out + sts) == ScanObjects(rest, failing, subj, pred, true, out + e);
    }
  }

  /** Predicates that decode without error deliver their statements and leave the rest of the subject to the loop. */
  lemma {:induction false} ScanPredicatesPrefix(ps: seq<PredicateNode>, failing: set<Setting>, subj: Term, found: bool,
                                                out: seq<Statement>, rest: seq<Token>)
    requires PredicatesWellKeyed(ps)
    requires DenotePredicates(subj, ps, failing).error.None?
    ensures ScanPredicates(PredicatesTokens(ps) + rest, failing, subj, found, out)
         == ScanPredicates(rest, failing, subj, found || ps != [], out + DenotePredicates(subj, ps, failing).emitted)
    decreases |ps|
  {
    if ps == [] {
      assert PredicatesTokens(ps) + rest == rest;
      assert out + [] == out;
    } else {
      var more := PredicatesTokens(ps[1..]) + rest;
      PredicatesCons(subj, ps, failing, rest);
      var sts := DenotePredicate(subj, ps[0], failing).emitted;
      var e := DenotePredicates(subj, ps, failing).emitted;
      ScanPredicateStep(ps[0], failing, subj, found, out, more);
      ScanPredicatesPrefix(ps[1..], failing, subj, true, out + sts, rest);
      EmitInTurn(out, sts, DenotePredicates(subj, ps[1..], failing).emitted, e);
      assert ScanPredicates(more, failing, subj, true, out + sts) == ScanPredicates(rest, failing, subj, true, out + e);
    }
  }

  /** Subjects that decode without error deliver their statements and leave the rest of the document to the loop. */
  lemma {:induction false} ScanSubjectsPrefix(ss: seq<SubjectNode>, failing: set<Setting>, out: seq<Statement>, rest: seq<Token>)
    requires SubjectsWellKeyed(ss)
    requires DenoteSubjects(ss, failing).error.None?
    ensures ScanSubjects(SubjectsTokens(ss) + rest, failing, out) == ScanSubjects(rest, failing, out + DenoteSubjects(ss, failing).emitted)
    decreases |ss|
  {
    if ss == [] {
      assert SubjectsTokens(ss) + rest == rest;
      assert out + [] == out;
    } else {
      var more := SubjectsTokens(ss[1..]) + rest;
      SubjectsCons(ss, failing, rest);
      var sts := DenoteSubject(ss[0], failing).emitted;
      var e := DenoteSubjects(ss, failing).emitted;
      ScanSubjectStep(ss[0], failing, out, more);
      ScanSubjectsPrefix(ss[1..], failing, out + sts, rest);
      EmitInTurn(out, sts, DenoteSubjects(ss[1..], failing).emitted, e);
      assert ScanSubjects(more, failing, out + sts) == ScanSubjects(rest, failing, out + e);
    }
  }

  lemma DecodeOpening(inner: seq<Token>, failing: set<Setting>)
    ensures Decode([StartObject(None)] + inner, failing) == ScanSubjects(inner, failing, [])
  {
    assert ([StartObject(None)] + inner)[1..] == inner;
  }

  lemma SubjectValueNotObject(s: string, t: Token, tail: seq<Token>, failing: set<Setting>, out: seq<Statement>)
    requires !t.StartObject?
    ensures ScanSubjects([FieldName(s), t] + tail, failing, out) == Outcome(out, Some(SubjectNotObject))
  {
    var rest := [FieldName(s), t] + tail;
    assert rest[0] == FieldName(s) && rest[1..][0] == t;
  }

  lemma PredicateValueNotArray(p: string, t: Token, tail: seq<Token>, failing: set<Setting>, subj: Term, found: bool, out: seq<Statement>)
    requires !t.StartArray?
    ensures ScanPredicates([FieldName(p), t] + tail, failing, subj, found, out) == Halt(out, PredicateNotArray)
  {
    var rest := [FieldName(p), t] + tail;
    assert rest[0] == FieldName(p) && rest[1..][0] == t;
  }

  lemma ElementNotObject(t: Token, tail: seq<Token>, failing: set<Setting>, subj: Term, pred: Term, found: bool, out: seq<Statement>)
    requires !t.StartObject? && !t.EndArray?
    ensures ScanObjects([t] + tail, failing, subj, pred, found, out) == Halt(out, ObjectNotObject)
  {
    assert ([t] + tail)[0] == t;
  }

  /**
   * A subject whose value is not an object stops the decoding with
   * SubjectNotObject, after the statements of the subjects before it.
   */
  lemma RejectsSubjectNotObject(ss: seq<SubjectNode>, s: string, t: Token, tail: seq<Token>, failing: set<Setting>)
    requires SubjectsWellKeyed(ss) && DenoteSubjects(ss, failing).error.None?
    requires !t.StartObject?
    ensures Decode([StartObject(None)] + (SubjectsTokens(ss) + ([FieldName(s), t] + tail)), failing)
         == Outcome(DenoteSubjects(ss, failing).emitted, Some(SubjectNotObject))
  {
    DecodeOpening(SubjectsTokens(ss) + ([FieldName(s), t] + tail), failing);
    ScanSubjectsPrefix(ss, failing, [], [FieldName(s), t] + tail);
    SubjectValueNotObject(s, t, tail, failing, [] + DenoteSubjects(ss, failing).emitted);
    assert [] + DenoteSubjects(ss, failing).emitted == DenoteSubjects(ss, failing).emitted;
  }

  /**
   * A predicate whose value is not an array stops the decoding with
   * PredicateNotArray, after the statements of everything before it.
   */
  lemma RejectsPredicateNotArray(ss: seq<SubjectNode>, s: string, ps: seq<PredicateNode>, p: string, t: Token, tail: seq<Token>,
                                 failing: set<Setting>)
    requires SubjectsWellKeyed(ss) && DenoteSubjects(ss, failing).error.None?
    requires PredicatesWellKeyed(ps) && DenotePredicates(ResourceFor(s), ps, failing).error.None?
    requires !t.StartArray?
    ensures Decode([StartObject(None)] + (SubjectsTokens(ss) + ([FieldName(s), StartObject(Some(s))] +
                   (PredicatesTokens(ps) + ([FieldName(p), t] + tail)))), failing)
         == Outcome(DenoteSubjects(ss, failing).emitted + DenotePredicates(ResourceFor(s), ps, failing).emitted,
                    Some(PredicateNotArray))
  {
    var a := DenoteSubjects(ss, failing).emitted;
    var b := DenotePredicates(ResourceFor(s), ps, failing).emitted;
    var inner := PredicatesTokens(ps) + ([FieldName(p), t] + tail);
    var rest := [FieldName(s), StartObject(Some(s))] + inner;
    DecodeOpening(SubjectsTokens(ss) + rest, failing);
    ScanSubjectsPrefix(ss, failing, [], rest);
    assert [] + a == a;
    ScanSubjectsOpening(failing, a, s, inner);
    ScanPredicatesPrefix(ps, failing, ResourceFor(s), false, a, [FieldName(p), t] + tail);
    PredicateValueNotArray(p, t, tail, failing, ResourceFor(s), ps != [], a + b);
  }

  /**
   * An element of a predicate's array that is not an object stops the
   * decoding with ObjectNotObject, after the statements of everything before it.
   */
  lemma RejectsObjectNotObject(ss: seq<SubjectNode>, s: string, ps: seq<PredicateNode>, p: string, os: seq<ObjectNode>,
                               t: Token, tail: seq<Token>, failing: set<Setting>)
    requires SubjectsWellKeyed(ss) && DenoteSubjects(ss, failing).error.None?
    requires PredicatesWellKeyed(ps) && DenotePredicates(ResourceFor(s), ps, failing).error.None?
    requires ObjectsWellKeyed(os) && DenoteObjects(ResourceFor(s), Iri(p), os, failing).error.None?
    requires !t.StartObject? && !t.EndArray?
    ensures Decode([StartObject(None)] + (SubjectsTokens(ss) + ([FieldName(s), StartObject(Some(s))] +
                   (PredicatesTokens(ps) + ([FieldName(p), StartArray(Some(p))] + (ObjectsTokens(os) + ([t] + tail)))))), failing)
         == Outcome(DenoteSubjects(ss, failing).emitted + DenotePredicates(ResourceFor(s), ps, failing).emitted
                    + DenoteObjects(ResourceFor(s), Iri(p), os, failing).emitted,
                    Some(ObjectNotObject))
  {
    var a := DenoteSubjects(ss, failing).emitted;
    var b := DenotePredicates(ResourceFor(s), ps, failing).emitted;
    var c := DenoteObjects(ResourceFor(s), Iri(p), os, failing).emitted;
    var objs := ObjectsTokens(os) + ([t] + tail);
    var preds := PredicatesTokens(ps) + ([FieldName(p), StartArray(Some(p))] + objs);
    var rest := [FieldName(s), StartObject(Some(s))] + preds;
    DecodeOpening(SubjectsTokens(ss) + rest, failing);
    ScanSubjectsPrefix(ss, failing, [], rest);
    assert [] + a == a;
    ScanSubjectsOpening(failing, a, s, preds);
    ScanPredicatesPrefix(ps, failing, ResourceFor(s), false, a, [FieldName(p), StartArray(Some(p))] + objs);
    assert ([FieldName(p), StartArray(Some(p))] + objs)[2..] == objs;
    ScanPredicatesEntry([FieldName(p), StartArray(Some(p))] + objs, failing, ResourceFor(s), ps != [], a + b);
    ScanObjectsPrefix(os, failing, ResourceFor(s), Iri(p), false, a + b, [t] + tail);
    ElementNotObject(t, tail, failing, ResourceFor(s), Iri(p), os != [], a + b + c);
  }

  /** Decoding the token stream of a document gives exactly the document's meaning. */
  lemma DecodeSerialized(doc: Document, failing: set<Setting>)
    requires SubjectsWellKeyed(doc.subjects)
    ensures Decode(Serialize(doc), failing) == Denote(doc, failing)
  {
    var body := SubjectsTokens(doc.subjects) + [EndObject(None)] + [];
    assert Serialize(doc) == [StartObject(None)] + body;
    assert ([StartObject(None)] + body)[1..] == body;
    ScanSubjectsOf(doc.subjects, failing, [], None, []);
    var d := Denote(doc, failing);
    assert Finish(d, []) == d by {
      assert [] + d.emitted == d.emitted;
    }
  }
}
