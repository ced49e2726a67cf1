# RDF/JSON decoder of RDF4J Rio, modelled in Dafny

This project models the decoding routine of RDF4J's RDF/JSON parser,
`RDFJSONParser.rdfJsonToHandlerInternal`. The routine reads the JSON token
stream of a document shaped as in section 2 of the W3C Working Group Note
"RDF 1.1 JSON Alternate Serialization (RDF/JSON)":
`{ "S": { "P": [ { "type": …, "value": …, "lang": …, "datatype": … } ] } }`.
It also accepts RDF4J's `graphs` extension, which lists the named graphs an
object belongs to. For every object it hands RDF statements to an RDF handler.
It checks the document's structure level by level; a violation is a fatal
error. Repeated and unknown fields are reported under parser settings, which
decide whether the report aborts the parse.

Files and modules:

- `tokens.dfy`, module `JsonTokens`: a Jackson token, with the text and the
  current field name Jackson reports at that position.
- `rdf.dfy`, module `Rdf`: RDF terms and statements. `ResourceFor` is the
  `_:` rule that maps a name to a blank node or an IRI.
- `decoder.dfy`, module `RdfJsonDecoder`: the meaning of each loop of the
  routine as a tail-recursive function over the remaining tokens (`ScanGraphs`,
  `ScanFields`, `ScanObjects`, `ScanPredicates`, `ScanSubjects`). It also holds
  the object-building step (`BuildObject`), the statements of one object
  (`StatementsFor`) and the whole decoding (`Decode`).
- `parser.dfy`, module `RdfJsonParser`: the routine as it runs. There is one
  method per `while` loop, each with a cursor over the token stream, the
  loop's mutable locals (`nextValue`, `nextType`, …, `nextContexts`,
  `foundObject`, `foundPredicate`) and the statements delivered so far. Each
  method is proved to compute exactly what its Scan function describes.
- `document.dfy`, module `RdfJsonDocument`: RDF/JSON documents as trees,
  their token streams (`Serialize`), and a reference semantics (`Denote`): the
  statements a document stands for, or the first error in document order. The
  theorem `DecodeSerialized` proves that decoding the token stream of any
  well-keyed document (one whose unknown fields do not reuse the name of a
  known field) gives exactly its meaning.
- `properties.dfy`, module `RdfJsonProperties`: the rules the routine
  promises, proved over the reference semantics. They cover:
  - which occurrence of a repeated field wins;
  - exactly when repeated or unknown fields abort;
  - how many statements an object yields, and in which contexts;
  - the subject and predicate of every statement.

Modelling choices:

- **Settings.** A report under a setting (`reportError`) aborts exactly when
  the setting is in the set `failing`; otherwise decoding continues. A fatal
  report (`reportFatalError`) always aborts.
- **The handler.** It is modelled as the sequence of statements it receives.
  Statements delivered before an error stay delivered: every result is an
  `Outcome` holding the delivered statements and the error, if any.
- **The object term.** An object whose `type` is none of literal, bnode or uri
  gets no term (`obj == None`), because the routine passes `null` to
  `createStatement` in that case.
- **Java runtime failures** are modelled as errors:
  - a missing field name at a subject or predicate position is `MissingName`;
  - a blank-node object value shorter than two elements of the string is
    `ShortBlankNodeValue` (a string is a sequence of Unicode scalar values
    here, where Java counts UTF-16 code units);
  - a token stream that ends inside the document is `EndOfInput`.

## Model

| member | source | states |
|---|---|---|
| Rdf.ResourceFor | core/rio/rdfjson/src/main/java/org/eclipse/rdf4j/rio/rdfjson/RDFJSONParser.java:185 | a name starting with `_:` becomes the blank node named by the rest; any other name becomes the IRI it spells; the result is always a resource |
| Rdf.ResourceForNameOf | core/rio/rdfjson/src/main/java/org/eclipse/rdf4j/rio/rdfjson/RDFJSONParser.java:185 | the `_:` mapping loses nothing: every blank node, and every IRI not starting with `_:`, is recovered from the name written for it |
| RdfJsonDecoder.AddContext | core/rio/rdfjson/src/main/java/org/eclipse/rdf4j/rio/rdfjson/RDFJSONParser.java:271 | adding a graph name gives the old names plus that one, still without duplicates, and keeps the earlier names in place |
| RdfJsonDecoder.ScanGraphs | core/rio/rdfjson/src/main/java/org/eclipse/rdf4j/rio/rdfjson/RDFJSONParser.java:269-272 | the graphs loop consumes tokens, only adds names, and keeps the name set free of duplicates |
| RdfJsonDecoder.ScanFields | core/rio/rdfjson/src/main/java/org/eclipse/rdf4j/rio/rdfjson/RDFJSONParser.java:215-279 | the field loop consumes tokens, only adds contexts, and keeps them free of duplicates |
| RdfJsonDecoder.BuildObject | core/rio/rdfjson/src/main/java/org/eclipse/rdf4j/rio/rdfjson/RDFJSONParser.java:281-322 | a missing type is NoType and a missing value is NoValue; with both present, a literal is the value with the language, and with the datatype only when there is no language; a uri object is the IRI of the value, and fails with LanguageOnUri or DatatypeOnUri when it has a language or a datatype; a bnode object is the value without its first two characters, and fails with LanguageOnBlankNode, DatatypeOnBlankNode or ShortBlankNodeValue; exactly an unrecognised type gives no term |
| RdfJsonDecoder.ContextFor | core/rio/rdfjson/src/main/java/org/eclipse/rdf4j/rio/rdfjson/RDFJSONParser.java:329-335 | "null" and only "null" stands for the default graph; any other name is the resource the `_:` rule makes of it, and gives that name back |
| RdfJsonDecoder.StatementsFor | core/rio/rdfjson/src/main/java/org/eclipse/rdf4j/rio/rdfjson/RDFJSONParser.java:325-346 | one statement per graph name, in that name's context, or exactly one without context when there are none; all share the subject, predicate and object |
| RdfJsonDecoder.ScanObjects | core/rio/rdfjson/src/main/java/org/eclipse/rdf4j/rio/rdfjson/RDFJSONParser.java:201-352 | the object loop only appends statements; when it returns normally it has consumed tokens and, starting without an object, delivered at least one statement; it delivers only well-formed statements |
| RdfJsonDecoder.ScanPredicates | core/rio/rdfjson/src/main/java/org/eclipse/rdf4j/rio/rdfjson/RDFJSONParser.java:190-357 | the predicate loop only appends statements; when it returns normally it has consumed tokens and, starting without a predicate, delivered at least one statement; it delivers only well-formed statements |
| RdfJsonDecoder.ScanSubjects | core/rio/rdfjson/src/main/java/org/eclipse/rdf4j/rio/rdfjson/RDFJSONParser.java:181-188 | the subject loop only appends statements, and only well-formed ones |
| RdfJsonDecoder.Decode | core/rio/rdfjson/src/main/java/org/eclipse/rdf4j/rio/rdfjson/RDFJSONParser.java:175-179 | a stream that does not open with an object fails with DocumentNotObject before any statement is delivered; every delivered statement has a resource subject, an IRI predicate and a resource or default context |
| RdfJsonParser.ParseGraphs | core/rio/rdfjson/src/main/java/org/eclipse/rdf4j/rio/rdfjson/RDFJSONParser.java:269-272 | the graphs loop, run on the stream, computes the names, the resume position and the error that ScanGraphs gives |
| RdfJsonParser.ParseObjectFields | core/rio/rdfjson/src/main/java/org/eclipse/rdf4j/rio/rdfjson/RDFJSONParser.java:209-279 | the field loop, updating nextValue, nextType, nextLanguage, nextDatatype and nextContexts in place, computes exactly what ScanFields gives |
| RdfJsonParser.EmitStatements | core/rio/rdfjson/src/main/java/org/eclipse/rdf4j/rio/rdfjson/RDFJSONParser.java:325-346 | the delivery loop appends exactly the statements StatementsFor gives for the object |
| RdfJsonParser.ParseObjects | core/rio/rdfjson/src/main/java/org/eclipse/rdf4j/rio/rdfjson/RDFJSONParser.java:201-352 | the object loop with its foundObject flag delivers the statements, and stops with the error and at the position, that ScanObjects gives |
| RdfJsonParser.ParsePredicates | core/rio/rdfjson/src/main/java/org/eclipse/rdf4j/rio/rdfjson/RDFJSONParser.java:190-357 | the predicate loop with its foundPredicate flag delivers the statements, and stops with the error and at the position, that ScanPredicates gives |
| RdfJsonParser.ParseRdfJson | core/rio/rdfjson/src/main/java/org/eclipse/rdf4j/rio/rdfjson/RDFJSONParser.java:175-359 | the whole routine delivers exactly the statements, and stops with exactly the error, that Decode gives |
| RdfJsonDocument.ScanGraphsOf | core/rio/rdfjson/src/main/java/org/eclipse/rdf4j/rio/rdfjson/RDFJSONParser.java:269-272 | reading a graphs array adds its names one by one, skipping names already present |
| RdfJsonDocument.ScanFieldsOf | core/rio/rdfjson/src/main/java/org/eclipse/rdf4j/rio/rdfjson/RDFJSONParser.java:215-279 | reading the fields of an object fails or succeeds as applying its fields in order does, and resumes right after its closing brace |
| RdfJsonDocument.ScanObjectsOf | core/rio/rdfjson/src/main/java/org/eclipse/rdf4j/rio/rdfjson/RDFJSONParser.java:203-348 | reading a predicate's array delivers each object's statements in order and stops at the first object that fails |
| RdfJsonDocument.ScanPredicatesOf | core/rio/rdfjson/src/main/java/org/eclipse/rdf4j/rio/rdfjson/RDFJSONParser.java:191-353 | reading a subject's object delivers each predicate's statements in order; a predicate with an empty array stops it with NoObject |
| RdfJsonDocument.ScanSubjectsOf | core/rio/rdfjson/src/main/java/org/eclipse/rdf4j/rio/rdfjson/RDFJSONParser.java:181-358 | reading the subjects delivers each subject's statements in order; a subject with no predicate stops it with NoPredicate |
| RdfJsonDocument.DecodeSerialized | core/rio/rdfjson/src/main/java/org/eclipse/rdf4j/rio/rdfjson/RDFJSONParser.java:175-359 | decoding the token stream of any well-keyed document delivers exactly the statements, and ends with exactly the error, that the document's meaning gives |
| RdfJsonDocument.RejectsSubjectNotObject | core/rio/rdfjson/src/main/java/org/eclipse/rdf4j/rio/rdfjson/RDFJSONParser.java:186-188 | after subjects that decode without error, a subject whose value does not open an object stops decoding with SubjectNotObject, having delivered exactly those subjects' statements |
| RdfJsonDocument.RejectsPredicateNotArray | core/rio/rdfjson/src/main/java/org/eclipse/rdf4j/rio/rdfjson/RDFJSONParser.java:197-199 | after error-free subjects and predicates, a predicate whose value does not open an array stops decoding with PredicateNotArray, having delivered exactly their statements |
| RdfJsonDocument.RejectsObjectNotObject | core/rio/rdfjson/src/main/java/org/eclipse/rdf4j/rio/rdfjson/RDFJSONParser.java:204-207 | after error-free subjects, predicates and objects, an array element that neither closes the array nor opens an object stops decoding with ObjectNotObject, having delivered exactly their statements |
| RdfJsonProperties.LastOccurrenceWins | core/rio/rdfjson/src/main/java/org/eclipse/rdf4j/rio/rdfjson/RDFJSONParser.java:217-262 | when the fields of an object are read without error, value, type, lang and datatype each hold their last occurrence's text |
| RdfJsonProperties.CollectFieldsFailsIff | core/rio/rdfjson/src/main/java/org/eclipse/rdf4j/rio/rdfjson/RDFJSONParser.java:217-278 | reading an object's fields fails exactly when a repeated value, type, lang or datatype field, or an unknown field, is reported under a setting that makes it abort; the error names the setting of the first such field, and that setting is one that aborts |
| RdfJsonProperties.GraphsNotArrayReported | core/rio/rdfjson/src/main/java/org/eclipse/rdf4j/rio/rdfjson/RDFJSONParser.java:263-272 | a graphs field whose value does not open an array fails with the SupportGraphsExtension report when that setting aborts; otherwise the following tokens are read as graph names up to the next closing bracket and the field loop goes on |
| RdfJsonProperties.CollectedContexts | core/rio/rdfjson/src/main/java/org/eclipse/rdf4j/rio/rdfjson/RDFJSONParser.java:213-272 | the contexts collected for an object are exactly the names in its graphs fields, each once |
| RdfJsonProperties.StatementsPerObject | core/rio/rdfjson/src/main/java/org/eclipse/rdf4j/rio/rdfjson/RDFJSONParser.java:213-346 | an object that decodes yields one statement per distinct graph name, or one when it names none; their contexts are exactly the contexts of those names, or only the default one |
| RdfJsonProperties.TypeAndValueRequired | core/rio/rdfjson/src/main/java/org/eclipse/rdf4j/rio/rdfjson/RDFJSONParser.java:283-291 | an object that decodes has a type and a value; without a type it fails with NoType, and with a type but no value with NoValue, unless a reported field aborted first |
| RdfJsonProperties.LiteralObject | core/rio/rdfjson/src/main/java/org/eclipse/rdf4j/rio/rdfjson/RDFJSONParser.java:293-301 | a literal object is the last value with the last language tag, and carries the last datatype only when it has no language tag |
| RdfJsonProperties.PredicatesShape | core/rio/rdfjson/src/main/java/org/eclipse/rdf4j/rio/rdfjson/RDFJSONParser.java:191-346 | every statement a subject's predicates yield has that subject, and as predicate the IRI of one of its predicates |
| RdfJsonProperties.PredicateShape | core/rio/rdfjson/src/main/java/org/eclipse/rdf4j/rio/rdfjson/RDFJSONParser.java:192-346 | every statement one predicate yields has the given subject and that predicate's IRI |
| RdfJsonProperties.ObjectsShape | core/rio/rdfjson/src/main/java/org/eclipse/rdf4j/rio/rdfjson/RDFJSONParser.java:336-342 | every statement the objects of one predicate yield has the given subject and predicate |
| RdfJsonProperties.SubjectShape | core/rio/rdfjson/src/main/java/org/eclipse/rdf4j/rio/rdfjson/RDFJSONParser.java:182-346 | every statement a subject yields has as subject the blank node or IRI its name stands for, and as predicate one of its predicates' IRIs |

## Left out

- Stream input and Jackson: `parse(InputStream, …)` and `parse(Reader, …)` (lines 71-173) create and close the Jackson parser, clear state and call `startRDF`/`endRDF`. `configureNewJsonFactory` (lines 392-447) only sets Jackson flags. The model starts from the token stream Jackson would deliver, and a token carries the text and current name Jackson reports for it.
- `getSupportedSettings` (lines 361-385) only builds a set of setting keys.
- `createNode`, `createLiteral`, `createURI`, `reportError` and `reportFatalError` belong to `AbstractRDFParser`, which is not part of this model. The value factory's `vf.createIRI` (lines 185, 194, 321, 334) and `vf.createStatement` (lines 336, 342) are not part of it either. Term and statement creation is modelled as plain constructors, so any normalisation or validation these calls perform is not modelled. The two reporting calls become the `failing` setting set and fatal errors. Error messages and locations are not modelled.
- `RDFJSONUtility`, which holds the field names and type names, is not part of this model. Its constants are taken to be "value", "type", "lang", "datatype", "graphs", "literal", "bnode", "uri" and "null", as in the RDF/JSON note and the graphs extension.
- Token stream errors: Jackson throws on malformed or truncated JSON; this is modelled as the error `EndOfInput`. A missing current name at a subject makes `subjStr.startsWith` (line 185) throw a `NullPointerException`. At a predicate it is passed to `vf.createIRI` (line 194), whose behaviour on `null` is not part of this model. Both cases are modelled as the error `MissingName`. The exception types are not modelled.
- RdfJsonParser.ParseObjectFields: `nextContexts` is a `HashSet`, whose iteration order Java leaves unspecified. The model keeps the names in order of first appearance. The properties about contexts (`CollectedContexts`, `StatementsPerObject`) are stated as sets and hold for any order, but the exact order of statements within one object is not modelled.
- RdfJsonDecoder.BuildObject: drops the first two elements of a blank-node value, and reports `ShortBlankNodeValue` below two, counting Unicode scalar values. Java's `substring(2)` (line 311) counts UTF-16 code units, so a value that starts with a character outside the Basic Multilingual Plane is cut differently. `Rdf.ResourceFor` (line 185) and `RdfJsonDecoder.ContextFor` (line 332) drop the `_:` prefix, which is two code units in both counts, so they are unaffected.
- A `null` handler, which makes the routine drop statements (lines 337, 343), is not modelled; the handler is always the returned sequence.
- What the value factory does with a `null` object term (an object of unrecognised type) is not modelled; the statement carries no object.
- RdfJsonProperties.CollectFieldsFailsIff: its "exactly when" is stated over the tree semantics, whose `Field` has no graphs field with a non-array value. The report for such a value (lines 264-267) is covered by `GraphsNotArrayReported` on the token level instead: under a failing `SupportGraphsExtension` it aborts with that report; when tolerated, the loop reads the following tokens as graph names up to the next closing bracket.
- The reference semantics in `RdfJsonDocument` covers documents whose values are plain tokens. A field with an unknown name whose value is a nested object or array is decoded by `ScanFields` but has no counterpart in `Field`.
- The other files of the repository (sail configuration classes, generated syntax nodes, store tests) hold no decoding logic and are not modelled.
