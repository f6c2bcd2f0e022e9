/** Decoded JSON message bodies as the Python services see them after
    `json.loads(body.decode())`, and the Python conversions the services apply
    to the decoded values (`int(v)`, `float(v)`, `d[key]`, `d.get(key)`). */
module JsonValue {
  import opened Wrappers
  import Numeric

  /** A JSON value; `JNull` is Python's `None`, integers and other numbers are
      kept apart as `json.loads` keeps `int` and `float` apart. */
  datatype Json =
    | JNull
    | JBool(b: bool)
    | JInt(i: int)
    | JFloat(r: real)
    | JStr(s: string)
    | JArray(items: seq<Json>)
    | JObject(fields: map<string, Json>)

  /** A received message body: bytes that are not UTF-8 (`.decode()` raises
      `UnicodeDecodeError`), text that is not JSON (`json.loads` raises
      `JSONDecodeError`), or a decoded value. */
  datatype Body = NotUtf8 | NotJson | Decoded(value: Json)

  /** Python's `int(x)` on a float: truncation toward zero. */
  function Truncate(r: real): (i: int)
    ensures r >= 0.0 ==> 0.0 <= i as real <= r && r < i as real + 1.0
    ensures r < 0.0 ==> r <= i as real <= 0.0 && i as real - 1.0 < r
  {
    if r >= 0.0 then r.Floor else -((-r).Floor)
  }

  /** Python's `int(v)`; `None` where it raises (`TypeError` on `None`, lists
      and dicts, `ValueError` on text that is not an integer). */
  function PyInt(v: Json): (r: Option<int>)
    ensures v.JInt? ==> r == Some(v.i)
    ensures v.JNull? || v.JArray? || v.JObject? ==> r.None?
  {
    match v
    case JBool(b) => Some(if b then 1 else 0)
    case JInt(i) => Some(i)
    case JFloat(x) => Some(Truncate(x))
    case JStr(s) => Numeric.PyInt(s)
    case _ => None
  }

  /** Python's `float(v)`; `None` where it raises. */
  function PyFloat(v: Json): (r: Option<real>)
    ensures v.JFloat? ==> r == Some(v.r)
    ensures v.JInt? ==> r == Some(v.i as real)
    ensures v.JNull? || v.JArray? || v.JObject? ==> r.None?
  {
    match v
    case JBool(b) => Some(if b then 1.0 else 0.0)
    case JInt(i) => Some(i as real)
    case JFloat(x) => Some(x)
    case JStr(s) => Numeric.PyFloat(s)
    case _ => None
  }

  /** Python's `v[key]`: the member of an object; `None` where it raises
      (`KeyError` on a missing key, `TypeError` on anything but a dict). */
  function Index(v: Json, key: string): (r: Option<Json>)
    ensures r.Some? <==> v.JObject? && key in v.fields
    ensures r.Some? ==> r.value == v.fields[key]
  {
    if v.JObject? && key in v.fields then Some(v.fields[key]) else None
  }

  /** Python's `v.get(key)`: the member of an object, `None` (here `JNull`)
      when it is missing; `None` (here the outer `None`) where `.get` itself
      raises `AttributeError` because `v` is not a dict. */
  function Get(v: Json, key: string): (r: Option<Json>)
    ensures r.Some? <==> v.JObject?
    ensures v.JObject? && key in v.fields ==> r == Some(v.fields[key])
    ensures v.JObject? && key !in v.fields ==> r == Some(JNull)
  {
    if !v.JObject? then None
    else if key in v.fields then Some(v.fields[key])
    else Some(JNull)
  }
}
