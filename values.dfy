/** Python values as the analyser sees them: the JSON data decoded from the
    model's reply, optional results (`None`), and the exceptions that can
    escape an operation. */
module Values {

  /** Python's `None` or a value. */
  datatype Option<+T> = None | Some(value: T)

  /** A value produced by `json.loads`. Numbers are integers only. */
  datatype Json =
    | JNull
    | JBool(b: bool)
    | JNumber(n: int)
    | JString(s: string)
    | JArray(items: seq<Json>)
    | JObject(fields: map<string, Json>)

  /** A decoded JSON object: a Python `dict` with string keys. */
  type Dict = map<string, Json>

  /** Python's built-in `len`: defined on strings, lists and dicts; `None`
      stands for the `TypeError` it raises on every other value. */
  function Len(v: Json): Option<nat>
  {
    match v
    case JString(s) => Some(|s|)
    case JArray(items) => Some(|items|)
    case JObject(fields) => Some(|fields|)
    case _ => None
  }

  /** The exceptions that can leave an operation of the analyser. */
  datatype Exception =
    | TypeError          // len() of a number, boolean or null
    | AttributeError     // `.get` on None
    | UnicodeDecodeError // a role file that is not UTF-8 (a ValueError)
    | PdfReadError       // a file the PDF library cannot parse
    | PermissionError
    | IsADirectoryError
    | OSError

  /** What a Python call does: return a value or raise. */
  datatype Outcome<+T> = Returned(value: T) | Raised(error: Exception)
}
