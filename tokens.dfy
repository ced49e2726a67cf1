/**
 * The token stream an RDF/JSON document is decoded from, as a streaming JSON
 * parser hands it out: one token per "next token" call. Each token also
 * carries what the parser reports while positioned on it: its text, and its
 * current field name (the name itself for a field-name token; for any other
 * token whatever name the JSON parser's context reports, possibly none).
 */
module JsonTokens {

  datatype Option<+T> = None | Some(value: T)

  datatype Token =
    | StartObject(name: Option<string>)
    | EndObject(name: Option<string>)
    | StartArray(name: Option<string>)
    | EndArray(name: Option<string>)
    | FieldName(field: string)
    | Scalar(text: string, name: Option<string>)

  /** The current name reported while positioned on `t`. */
  function CurrentName(t: Token): Option<string>
  {
    match t
    case StartObject(n) => n
    case EndObject(n) => n
    case StartArray(n) => n
    case EndArray(n) => n
    case FieldName(f) => Some(f)
    case Scalar(_, n) => n
  }

  /** The text reported while positioned on `t` (JSON null reads as "null"). */
  function Text(t: Token): string
  {
    match t
    case StartObject(_) => "{"
    case EndObject(_) => "}"
    case StartArray(_) => "["
    case EndArray(_) => "]"
    case FieldName(f) => f
    case Scalar(s, _) => s
  }
}
