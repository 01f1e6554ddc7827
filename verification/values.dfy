/** Scalar values as they travel between the Python back end and the
    TypeScript front end (decoded JSON, JavaScript properties, Python `dict.get`). */
module Values {
  import opened Wrappers

  /** A scalar JSON/JavaScript value. `Undefined` only arises on the JavaScript
      side (a missing property); a Python `dict.get` of a missing key gives `Null`. */
  datatype Value = Undefined | Null | Bool(b: bool) | Num(n: real) | Str(s: string)

  /** Truthiness, which JavaScript and Python agree on for these scalars. */
  predicate Truthy(v: Value) {
    match v
    case Undefined => false
    case Null => false
    case Bool(b) => b
    case Num(n) => n != 0.0
    case Str(s) => s != ""
  }

  /** Python `d.get(key)`: the stored value, or `None` when the key is missing. */
  function PyGet(d: map<string, Value>, key: string): Value {
    if key in d then d[key] else Null
  }

  /** JavaScript `obj.key`: the property, or `undefined` when it is missing. */
  function JsProp(d: map<string, Value>, key: string): Value {
    if key in d then d[key] else Undefined
  }

  /** JavaScript `a || b`: the first operand when it is truthy, else the second. */
  function JsOr(a: Value, b: Value): Value {
    if Truthy(a) then a else b
  }

  /** Python `f"{x}"` for a text that may be `None`: `None` renders as "None". */
  function PyStr(x: Option<string>): string {
    match x
    case Some(s) => s
    case None => "None"
  }

  /** Python truthiness of an optional text: present and non-empty. */
  predicate PyTruthyText(x: Option<string>) {
    x.Some? && x.value != ""
  }
}
