/**
 * The structured view of what Foundation's JSONEncoder writes and JSONDecoder
 * reads. Bytes and characters are not modelled: a JSON text is identified with
 * the value it parses to, and every other string or buffer is only known to be
 * unparsable or not UTF-8.
 */
module Json {
  import opened Wrappers

  /** A JSON value. Numbers are integers here; floating point is not modelled. */
  datatype Value =
    | Null
    | Bool(b: bool)
    | Number(n: int)
    | Str(s: string)
    | Array(items: seq<Value>)
    | Object(fields: map<string, Value>)

  /** A Swift `String`: either JSON text denoting `root`, or text that does not parse as JSON. */
  datatype Text = Document(root: Value) | Unparsable

  /** A Foundation `Data` buffer: the UTF-8 encoding of some text, or bytes that are not valid UTF-8. */
  datatype Data = Utf8(text: Text) | InvalidUtf8

  /** `JSONEncoder().encode`: the UTF-8 bytes of the JSON text of `v`. */
  function Serialize(v: Value): (d: Data)
    ensures Parse(d) == Some(v)
  {
    Utf8(Document(v))
  }

  /** The parsing step of `JSONDecoder().decode(_:from:)`: None for bytes that are not UTF-8 JSON text. */
  function Parse(d: Data): (r: Option<Value>)
    ensures r.Some? <==> d.Utf8? && d.text.Document?
  {
    match d
    case Utf8(Document(v)) => Some(v)
    case _ => None
  }

  /** `String(data:encoding: .utf8)`: fails exactly on bytes that are not valid UTF-8. */
  function StringFromData(d: Data): (r: Option<Text>)
    ensures r.None? <==> d == InvalidUtf8
  {
    match d
    case Utf8(t) => Some(t)
    case InvalidUtf8 => None
  }

  /** `String.data(using: .utf8)`: every Swift string has a UTF-8 encoding. */
  function DataFromString(t: Text): (d: Data)
    ensures StringFromData(d) == Some(t)
  {
    Utf8(t)
  }
}
