/**
 * The Python values a decoded JSON payload is made of, and the three
 * operations the message handler applies to them: `dict.get` with a
 * default, truth testing (`if value:`), and the built-in `float()`.
 * Python's `None` and JSON `null` are the same value, `JNull`.
 */
module PyValues {

  import opened Wrappers
  import opened Text

  datatype Json =
    | JNull
    | JBool(b: bool)
    | JNum(n: real)
    | JStr(s: string)
    | JList(items: seq<Json>)
    | JObject(fields: map<string, Json>)

  /**
   * `d.get(key, default)`: the stored value whenever the key is present,
   * even when that value is `None`; the default only when it is absent.
   */
  function Get(d: map<string, Json>, key: string, default: Json): (v: Json)
    ensures key in d ==> v == d[key]
    ensures key !in d ==> v == default
  {
    if key in d then d[key] else default
  }

  /** Python truth testing: `None`, `False`, zero and empty containers are false. */
  predicate Truthy(v: Json) {
    match v
    case JNull => false
    case JBool(b) => b
    case JNum(n) => n != 0.0
    case JStr(s) => s != []
    case JList(items) => items != []
    case JObject(fields) => fields != map[]
  }

  /**
   * `float(v)`: numbers as they are, booleans as 1.0 and 0.0, text through
   * the decimal parser; `None` (a TypeError or ValueError in Python) for
   * `None`, lists, objects and text that is not a decimal.
   */
  function ToFloat(v: Json): (r: Option<real>)
    ensures v.JNull? || v.JList? || v.JObject? ==> r == None
    ensures v.JNum? ==> r == Some(v.n)
    ensures v.JBool? ==> r == Some(if v.b then 1.0 else 0.0)
    ensures v.JStr? ==> r == ParseFloat(v.s)
  {
    match v
    case JNum(n) => Some(n)
    case JBool(b) => Some(if b then 1.0 else 0.0)
    case JStr(s) => ParseFloat(s)
    case _ => None
  }

  /**
   * `float(v) if v is not None else None`, the coercion applied to the
   * optional columns: `Some(None)` for a missing value, `Some(Some(x))` for a
   * converted one and `None` when `float()` fails.
   */
  function ToOptionalFloat(v: Json): (r: Option<Option<real>>)
    ensures v == JNull <==> r == Some(None)
    ensures v != JNull ==> (r.None? <==> ToFloat(v).None?)
    ensures r.Some? && r.value.Some? ==> ToFloat(v) == r.value
  {
    if v == JNull then Some(None)
    else match ToFloat(v)
      case Some(x) => Some(Some(x))
      case None => None
  }
}
