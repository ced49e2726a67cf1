/**
 * What the decoder promises about the fields of an object and the statements
 * of a document, stated over the document semantics of RdfJsonDocument (which
 * DecodeSerialized ties to the token-level decoder): which field occurrence
 * wins, exactly when a repeated or unknown field aborts, how many statements
 * one object yields and in which contexts, and what their subject and
 * predicate are.
 */
module RdfJsonProperties {
  import opened JsonTokens
  import opened Rdf
  import opened RdfJsonDecoder
  import opened RdfJsonDocument

  // ---------------------------------------------------------------------
  // Field occurrences

  /** The text a field gives for `key` when it is the value, type, lang or datatype field. */
  function TextFor(field: Field, key: string): Option<string>
  {
    match field
    case ValueField(t) => if key == ValueKey then Some(t) else None
    case TypeField(t) => if key == TypeKey then Some(t) else None
    case LangField(t) => if key == LangKey then Some(t) else None
    case DatatypeField(t) => if key == DatatypeKey then Some(t) else None
    case _ => None
  }

  /** The slot of the collected fields that `key` fills. */
  function Slot(f: ObjectFields, key: string): Option<string>
  {
    if key == ValueKey then f.valueText
    else if key == TypeKey then f.typeText
    else if key == LangKey then f.language
    else if key == DatatypeKey then f.datatypeIri
    else None
  }

  /** The setting under which a repeated field of `key` is reported. */
  function SettingFor(key: string): Setting
  {
    if key == ValueKey then FailOnMultipleObjectValues
    else if key == TypeKey then FailOnMultipleObjectTypes
    else if key == LangKey then FailOnMultipleObjectLanguages
    else FailOnMultipleObjectDatatypes
  }

  /** The text of the last field of `key`, looking from the end; `init` when there is none. */
  function LastText(fs: seq<Field>, key: string, init: Option<string>): Option<string>
    decreases |fs|
  {
    if fs == [] then init
    else if TextFor(fs[|fs| - 1], key).Some? then TextFor(fs[|fs| - 1], key)
    else LastText(fs[..|fs| - 1], key, init)
  }

  /** How many fields give a text for `key`. */
  function Occurrences(fs: seq<Field>, key: string): nat
    decreases |fs|
  {
    if fs == [] then 0 else (if TextFor(fs[0], key).Some? then 1 else 0) + Occurrences(fs[1..], key)
  }

  /** How many fields have a name the decoder does not know. */
  function Unknowns(fs: seq<Field>): nat
    decreases |fs|
  {
    if fs == [] then 0 else (if fs[0].OtherField? then 1 else 0) + Unknowns(fs[1..])
  }

  /** `key` is given more than once, counting a slot already filled in `f`, and its setting makes that abort. */
  predicate TooMany(f: ObjectFields, fs: seq<Field>, failing: set<Setting>, key: string)
  {
    SettingFor(key) in failing && Occurrences(fs, key) + (if Slot(f, key).Some? then 1 else 0) >= 2
  }

  /** Some repeated or unknown field is reported under a setting that makes it abort. */
  predicate Reportable(f: ObjectFields, fs: seq<Field>, failing: set<Setting>)
  {
    TooMany(f, fs, failing, ValueKey) || TooMany(f, fs, failing, TypeKey) ||
    TooMany(f, fs, failing, LangKey) || TooMany(f, fs, failing, DatatypeKey) ||
    (FailOnUnknownProperty in failing && Unknowns(fs) > 0)
  }

  /** The graph names listed by the graphs fields of an object. */
  function GraphNames(fs: seq<Field>): set<string>
    decreases |fs|
  {
    if fs == [] then {} else (if fs[0].GraphsField? then Elems(fs[0].names) else {}) + GraphNames(fs[1..])
  }

  // ---------------------------------------------------------------------
  // Small facts used below

  lemma LastTextCons(x: Field, fs: seq<Field>, key: string, init: Option<string>)
    ensures LastText([x] + fs, key, init) == LastText(fs, key, if TextFor(x, key).Some? then TextFor(x, key) else init)
    decreases |fs|
  {
    var xs := [x] + fs;
    if fs != [] {
      assert xs[|xs| - 1] == fs[|fs| - 1];
      assert xs[..|xs| - 1] == [x] + fs[..|fs| - 1];
      LastTextCons(x, fs[..|fs| - 1], key, init);
    } else {
      assert xs[..|xs| - 1] == [];
    }
  }

  lemma ApplyFieldSlot(f: ObjectFields, field: Field, failing: set<Setting>, key: string)
    requires ApplyField(f, field, failing).Success?
    ensures Slot(ApplyField(f, field, failing).value, key)
         == if TextFor(field, key).Some? then TextFor(field, key) else Slot(f, key)
  {
  }

  lemma ElemsFirst(gs: seq<string>)
    requires gs != []
    ensures Elems(gs) == {gs[0]} + Elems(gs[1..])
  {
    assert gs == [gs[0]] + gs[1..];
  }

  lemma AddContextsElems(cs: seq<string>, gs: seq<string>)
    ensures Elems(AddContexts(cs, gs)) == Elems(cs) + Elems(gs)
    ensures Distinct(cs) ==> Distinct(AddContexts(cs, gs))
    decreases |gs|
  {
    if gs != [] {
      AddContextsElems(AddContext(cs, gs[0]), gs[1..]);
      ElemsFirst(gs);
    }
  }

  lemma {:induction false} DistinctCard(s: seq<string>)
    requires Distinct(s)
    ensures |Elems(s)| == |s|
    decreases |s|
  {
    if s != [] {
      var t := s[..|s| - 1];
      assert Distinct(t);
      DistinctCard(t);
      assert s == t + [s[|s| - 1]];
      assert Elems(s) == Elems(t) + {s[|s| - 1]};
      assert s[|s| - 1] !in Elems(t);
    }
  }

  // ---------------------------------------------------------------------
  // Repeated and unknown fields

  /**
   * When the fields of an object are collected without error, each of value,
   * type, lang and datatype holds the text of its last occurrence, or what it
   * held before when the object does not give it.
   */
  lemma {:induction false} LastOccurrenceWins(f: ObjectFields, fs: seq<Field>, failing: set<Setting>, key: string)
    ensures CollectFields(f, fs, failing).Success? ==>
              Slot(CollectFields(f, fs, failing).value, key) == LastText(fs, key, Slot(f, key))
    decreases |fs|
  {
    if fs != [] && ApplyField(f, fs[0], failing).Success? {
      var g := ApplyField(f, fs[0], failing).value;
      ApplyFieldSlot(f, fs[0], failing, key);
      LastOccurrenceWins(g, fs[1..], failing, key);
      assert fs == [fs[0]] + fs[1..];
      LastTextCons(fs[0], fs[1..], key, Slot(f, key));
    }
  }

  /** The setting a field is reported under when it is repeated or unknown. */
  function ReportSetting(field: Field): Setting
  {
    match field
    case ValueField(_) => FailOnMultipleObjectValues
    case TypeField(_) => FailOnMultipleObjectTypes
    case LangField(_) => FailOnMultipleObjectLanguages
    case DatatypeField(_) => FailOnMultipleObjectDatatypes
    case GraphsField(_) => SupportGraphsExtension
    case OtherField(_, _) => FailOnUnknownProperty
  }

  /** A single field aborts exactly when it makes the fields reportable, and then with its own setting. */
  lemma ReportableFirst(f: ObjectFields, field: Field, failing: set<Setting>)
    ensures !Reportable(f, [], failing)
    ensures ApplyField(f, field, failing).Failure? <==> Reportable(f, [field], failing)
    ensures ApplyField(f, field, failing).Failure? ==>
              ApplyField(f, field, failing).error == Reported(ReportSetting(field)) && ReportSetting(field) in failing
  {
    assert [field][1..] == [];
  }

  /** After a field that does not abort, the rest is reportable exactly when the whole is. */
  lemma ReportableStep(f: ObjectFields, field: Field, rest: seq<Field>, failing: set<Setting>)
    requires ApplyField(f, field, failing).Success?
    ensures Reportable(ApplyField(f, field, failing).value, rest, failing) <==> Reportable(f, [field] + rest, failing)
  {
    var g := ApplyField(f, field, failing).value;
    var fs := [field] + rest;
    assert fs[0] == field && fs[1..] == rest;
    assert Unknowns(fs) == (if field.OtherField? then 1 else 0) + Unknowns(rest);
    forall k | k in {ValueKey, TypeKey, LangKey, DatatypeKey}
      ensures TooMany(g, rest, failing, k) <==> TooMany(f, fs, failing, k)
    {
      ApplyFieldSlot(f, field, failing, k);
      assert Occurrences(fs, k) == (if TextFor(field, k).Some? then 1 else 0) + Occurrences(rest, k);
    }
  }

  /**
   * Collecting the fields of an object fails exactly when a field is
   * repeated, or unknown, under a setting that makes that abort. The error is
   * the report of the first field at which that happens, under that field's
   * setting.
   */
  lemma {:induction false} CollectFieldsFailsIff(f: ObjectFields, fs: seq<Field>, failing: set<Setting>)
    ensures CollectFields(f, fs, failing).Failure? <==> Reportable(f, fs, failing)
    ensures CollectFields(f, fs, failing).Failure? ==>
              exists i :: 0 <= i < |fs| && !Reportable(f, fs[..i], failing) && Reportable(f, fs[..i + 1], failing) &&
                          CollectFields(f, fs, failing).error == Reported(ReportSetting(fs[i]))
    ensures CollectFields(f, fs, failing).Failure? ==>
              CollectFields(f, fs, failing).error.Reported? && CollectFields(f, fs, failing).error.setting in failing
    decreases |fs|
  {
    if fs != [] {
      var field := fs[0];
      assert fs == [field] + fs[1..];
      ReportableFirst(f, field, failing);
      match ApplyField(f, field, failing)
      case Failure(e) =>
        assert Reportable(f, fs, failing) by {
          ReportableMonotone(f, [field], fs[1..], failing);
        }
        assert fs[..0] == [] && fs[..1] == [field];
      case Success(g) =>
        CollectFieldsFailsIff(g, fs[1..], failing);
        ReportableStep(f, field, fs[1..], failing);
        if CollectFields(g, fs[1..], failing).Failure? {
          var j :| 0 <= j < |fs[1..]| && !Reportable(g, fs[1..][..j], failing) && Reportable(g, fs[1..][..j + 1], failing) &&
                   CollectFields(g, fs[1..], failing).error == Reported(ReportSetting(fs[1..][j]));
          ReportableStep(f, field, fs[1..][..j], failing);
          ReportableStep(f, field, fs[1..][..j + 1], failing);
          assert fs[..j + 1] == [field] + fs[1..][..j];
          assert fs[..j + 2] == [field] + fs[1..][..j + 1];
          assert fs[j + 1] == fs[1..][j];
        }
    }
  }

  /**
   * A graphs field whose value does not open an array is reported under
   * SupportGraphsExtension. When that setting aborts, reading the object's
   * fields fails with that report; otherwise the tokens after the value are
   * read as graph names up to the next closing bracket, and the field loop
   * goes on after it.
   */
  lemma GraphsNotArrayReported(t: Token, rest: seq<Token>, failing: set<Setting>, f: ObjectFields)
    requires !t.StartArray?
    ensures SupportGraphsExtension in failing ==>
              ScanFields([FieldName(GraphsKey), t] + rest, failing, f) == Failure(Reported(SupportGraphsExtension))
    ensures SupportGraphsExtension !in failing ==>
              ScanFields([FieldName(GraphsKey), t] + rest, failing, f)
              == (var g := ScanGraphs(rest, f.contexts);
                  if g.Failure? then Failure(g.error) else ScanFields(g.value.1, failing, f.(contexts := g.value.0)))
  {
    var all := [FieldName(GraphsKey), t] + rest;
    assert all[1..][0] == t;
    if SupportGraphsExtension !in failing {
      assert all[2..] == rest;
      ScanGraphsField(all, failing, f);
    }
  }

  /** Adding fields never makes reportable fields unreportable. */
  lemma ReportableMonotone(f: ObjectFields, fs: seq<Field>, more: seq<Field>, failing: set<Setting>)
    ensures Reportable(f, fs, failing) ==> Reportable(f, fs + more, failing)
  {
    forall k | k in {ValueKey, TypeKey, LangKey, DatatypeKey} ensures Occurrences(fs, k) <= Occurrences(fs + more, k) {
      OccurrencesAppend(fs, more, k);
    }
    UnknownsAppend(fs, more);
  }

  lemma {:induction false} OccurrencesAppend(fs: seq<Field>, more: seq<Field>, key: string)
    ensures Occurrences(fs + more, key) == Occurrences(fs, key) + Occurrences(more, key)
    decreases |fs|
  {
    if fs == [] {
      assert fs + more == more;
    } else {
      assert (fs + more)[1..] == fs[1..] + more;
      OccurrencesAppend(fs[1..], more, key);
    }
  }

  lemma {:induction false} UnknownsAppend(fs: seq<Field>, more: seq<Field>)
    ensures Unknowns(fs + more) == Unknowns(fs) + Unknowns(more)
    decreases |fs|
  {
    if fs == [] {
      assert fs + more == more;
    } else {
      assert (fs + more)[1..] == fs[1..] + more;
      UnknownsAppend(fs[1..], more);
    }
  }

  /** Applying one field adds the names of a graphs field to the contexts, each once, and leaves them alone otherwise. */
  lemma ApplyFieldContexts(f: ObjectFields, field: Field, failing: set<Setting>)
    requires ApplyField(f, field, failing).Success?
    ensures Elems(ApplyField(f, field, failing).value.contexts)
         == Elems(f.contexts) + (if field.GraphsField? then Elems(field.names) else {})
    ensures Distinct(f.contexts) ==> Distinct(ApplyField(f, field, failing).value.contexts)
  {
    if field.GraphsField? {
      AddContextsElems(f.contexts, field.names);
    }
  }

  /** The contexts collected for an object are its graph names, each once. */
  lemma {:induction false} CollectedContexts(f: ObjectFields, fs: seq<Field>, failing: set<Setting>)
    ensures CollectFields(f, fs, failing).Success? ==>
              Elems(CollectFields(f, fs, failing).value.contexts) == Elems(f.contexts) + GraphNames(fs)
    ensures CollectFields(f, fs, failing).Success? && Distinct(f.contexts) ==>
              Distinct(CollectFields(f, fs, failing).value.contexts)
    decreases |fs|
  {
    if fs != [] && ApplyField(f, fs[0], failing).Success? {
      var g := ApplyField(f, fs[0], failing).value;
      ApplyFieldContexts(f, fs[0], failing);
      CollectedContexts(g, fs[1..], failing);
      assert CollectFields(f, fs, failing) == CollectFields(g, fs[1..], failing);
      assert GraphNames(fs) == (if fs[0].GraphsField? then Elems(fs[0].names) else {}) + GraphNames(fs[1..]);
    }
  }

  // ---------------------------------------------------------------------
  // The statements of one object

  /** The contexts of a list of statements. */
  function ContextsOf(sts: seq<Statement>): set<Option<Term>>
  {
    set st | st in sts :: st.ctx
  }

  /** The contexts of the statements for one object: the default one alone, or those of its graph names. */
  lemma StatementsForContexts(subj: Term, pred: Term, obj: Option<Term>, cs: seq<string>)
    ensures ContextsOf(StatementsFor(subj, pred, obj, cs))
         == if cs == [] then {None} else set g | g in Elems(cs) :: ContextFor(g)
  {
    var sts := StatementsFor(subj, pred, obj, cs);
    if cs == [] {
      assert sts == [sts[0]];
    } else {
      forall x | x in ContextsOf(sts) ensures x in set g | g in Elems(cs) :: ContextFor(g) {
        var i :| 0 <= i < |sts| && sts[i].ctx == x;
        assert cs[i] in Elems(cs);
      }
      forall g | g in Elems(cs) ensures ContextFor(g) in ContextsOf(sts) {
        var i :| 0 <= i < |cs| && cs[i] == g;
        assert sts[i] in sts;
      }
    }
  }

  /**
   * An object that decodes yields one statement per distinct graph name, in
   * the context that name stands for, or a single statement without context
   * when it names no graph; all of them share the subject, predicate and
   * object term.
   */
  lemma StatementsPerObject(subj: Term, pred: Term, o: ObjectNode, failing: set<Setting>)
    ensures DenoteObject(subj, pred, o, failing).Success? ==>
              |DenoteObject(subj, pred, o, failing).value| == if GraphNames(o.fields) == {} then 1 else |GraphNames(o.fields)|
    ensures DenoteObject(subj, pred, o, failing).Success? ==>
              ContextsOf(DenoteObject(subj, pred, o, failing).value)
              == if GraphNames(o.fields) == {} then {None} else set g | g in GraphNames(o.fields) :: ContextFor(g)
  {
    var c := CollectFields(NoFields, o.fields, failing);
    if c.Success? && BuildObject(c.value).Success? {
      var cs := c.value.contexts;
      CollectedContexts(NoFields, o.fields, failing);
      assert Elems([]) == {};
      DistinctCard(cs);
      assert GraphNames(o.fields) == Elems(cs);
      StatementsForContexts(subj, pred, BuildObject(c.value).value, cs);
    }
  }

  /**
   * An object that decodes has a type and a value, each taken from its last
   * occurrence; one that names no type, or no value, fails with that error
   * unless a repeated or unknown field aborted first.
   */
  lemma TypeAndValueRequired(subj: Term, pred: Term, o: ObjectNode, failing: set<Setting>)
    ensures DenoteObject(subj, pred, o, failing).Success? ==>
              LastText(o.fields, TypeKey, None).Some? && LastText(o.fields, ValueKey, None).Some?
    ensures !Reportable(NoFields, o.fields, failing) && LastText(o.fields, TypeKey, None).None? ==>
              DenoteObject(subj, pred, o, failing) == Failure(NoType)
    ensures !Reportable(NoFields, o.fields, failing) && LastText(o.fields, TypeKey, None).Some? &&
            LastText(o.fields, ValueKey, None).None? ==>
              DenoteObject(subj, pred, o, failing) == Failure(NoValue)
  {
    CollectFieldsFailsIff(NoFields, o.fields, failing);
    LastOccurrenceWins(NoFields, o.fields, failing, TypeKey);
    LastOccurrenceWins(NoFields, o.fields, failing, ValueKey);
  }

  /**
   * A literal object carries the last value, and the last language tag if
   * there is one; only without a language tag does it carry the last datatype.
   */
  lemma LiteralObject(subj: Term, pred: Term, o: ObjectNode, failing: set<Setting>)
    ensures DenoteObject(subj, pred, o, failing).Success? && LastText(o.fields, TypeKey, None) == Some(LiteralType) &&
            LastText(o.fields, ValueKey, None).Some? ==>
              var lang := LastText(o.fields, LangKey, None);
              var lit := Literal(LastText(o.fields, ValueKey, None).value, lang,
                                 if lang.Some? then None else LastText(o.fields, DatatypeKey, None));
              forall st | st in DenoteObject(subj, pred, o, failing).value :: st.obj == Some(lit)
  {
    var c := CollectFields(NoFields, o.fields, failing);
    if c.Success? {
      LastOccurrenceWins(NoFields, o.fields, failing, TypeKey);
      LastOccurrenceWins(NoFields, o.fields, failing, ValueKey);
      LastOccurrenceWins(NoFields, o.fields, failing, LangKey);
      LastOccurrenceWins(NoFields, o.fields, failing, DatatypeKey);
    }
  }

  // ---------------------------------------------------------------------
  // The statements of a subject

  /**
   * Every statement a subject's predicates yield has that subject and, as
   * predicate, the IRI of one of the predicates.
   */
  lemma {:induction false} PredicatesShape(subj: Term, ps: seq<PredicateNode>, failing: set<Setting>)
    ensures forall st | st in DenotePredicates(subj, ps, failing).emitted ::
              st.subj == subj && exists p | p in ps :: st.pred == Iri(p.iri)
    decreases |ps|
  {
    if ps != [] {
      PredicateShape(subj, ps[0], failing);
      PredicatesShape(subj, ps[1..], failing);
      forall st | st in DenotePredicates(subj, ps, failing).emitted
        ensures st.subj == subj && exists p | p in ps :: st.pred == Iri(p.iri)
      {
        var a := DenotePredicate(subj, ps[0], failing);
        var b := DenotePredicates(subj, ps[1..], failing);
        if st in a.emitted {
          assert ps[0] in ps;
        } else {
          assert a.error.None? && DenotePredicates(subj, ps, failing).emitted == a.emitted + b.emitted;
          assert st in b.emitted;
          assert exists q | q in ps[1..] :: st.pred == Iri(q.iri);
          var q :| q in ps[1..] && st.pred == Iri(q.iri);
          assert q in ps;
        }
      }
    }
  }

  /** Every statement one predicate yields has the given subject and that predicate's IRI. */
  lemma PredicateShape(subj: Term, p: PredicateNode, failing: set<Setting>)
    ensures forall st | st in DenotePredicate(subj, p, failing).emitted :: st.subj == subj && st.pred == Iri(p.iri)
  {
    if p.objects != [] {
      ObjectsShape(subj, Iri(p.iri), p.objects, failing);
    }
  }

  lemma {:induction false} ObjectsShape(subj: Term, pred: Term, os: seq<ObjectNode>, failing: set<Setting>)
    ensures forall st | st in DenoteObjects(subj, pred, os, failing).emitted :: st.subj == subj && st.pred == pred
    decreases |os|
  {
    if os != [] {
      ObjectsShape(subj, pred, os[1..], failing);
    }
  }

  /**
   * Every statement a subject yields has as subject the blank node or IRI its
   * name stands for, and as predicate one of its predicates' IRIs.
   */
  lemma SubjectShape(s: SubjectNode, failing: set<Setting>)
    ensures forall st | st in DenoteSubject(s, failing).emitted ::
              st.subj == ResourceFor(s.name) && exists p | p in s.predicates :: st.pred == Iri(p.iri)
  {
    PredicatesShape(ResourceFor(s.name), s.predicates, failing);
  }
}
