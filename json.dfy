/**
 * Untyped JavaScript values as they arrive from a parsed response body or a
 * cache entry: the JSON values plus `undefined`, with property access,
 * `typeof`, truthiness and `Array.isArray`. Numbers are integers here.
 */
module Json {
  import opened Wrappers

  datatype Json =
    | JUndefined
    | JNull
    | JBool(b: bool)
    | JNum(n: int)
    | JStr(s: string)
    | JArr(items: seq<Json>)
    | JObj(fields: map<string, Json>)

  /** JavaScript truthiness: `undefined`, `null`, `false`, `0` and `""` are falsy. */
  predicate Truthy(v: Json) {
    match v
    case JUndefined => false
    case JNull => false
    case JBool(b) => b
    case JNum(n) => n != 0
    case JStr(s) => s != ""
    case JArr(_) => true
    case JObj(_) => true
  }

  /** `typeof v`: `null`, arrays and objects are all "object". */
  function TypeOf(v: Json): (t: string)
    ensures t == "object" <==> v.JNull? || v.JArr? || v.JObj?
    ensures t == "string" <==> v.JStr?
  {
    match v
    case JUndefined => "undefined"
    case JNull => "object"
    case JBool(_) => "boolean"
    case JNum(_) => "number"
    case JStr(_) => "string"
    case JArr(_) => "object"
    case JObj(_) => "object"
  }

  /** What reading a property of `undefined` or `null` throws. */
  function ReadError(key: string): string {
    "TypeError: Cannot read properties of undefined or null (reading '" + key + "')"
  }

  /**
   * `v.key`: a member of an object, `undefined` for a missing member or a
   * property of any other non-nullish value, and a `TypeError` on
   * `undefined` and `null`.
   */
  function Get(v: Json, key: string): (r: Result<Json>)
    ensures r.Err? <==> v.JUndefined? || v.JNull?
    ensures v.JObj? && key in v.fields ==> r == Ok(v.fields[key])
    ensures v.JObj? && key !in v.fields ==> r == Ok(JUndefined)
  {
    match v
    case JUndefined => Err(ReadError(key))
    case JNull => Err(ReadError(key))
    case JObj(m) => Ok(if key in m then m[key] else JUndefined)
    case _ => Ok(JUndefined)
  }

  /** `v?.key`: `undefined` on a nullish value instead of an error. */
  function OptGet(v: Json, key: string): (r: Json)
    ensures Get(v, key).Ok? ==> r == Get(v, key).value
    ensures Get(v, key).Err? ==> r == JUndefined
  {
    if v.JUndefined? || v.JNull? then JUndefined else Get(v, key).value
  }

  /** `a || b`. */
  function Or(a: Json, b: Json): (r: Json)
    ensures Truthy(a) ==> r == a
    ensures !Truthy(a) ==> r == b
  {
    if Truthy(a) then a else b
  }

  /** `typeof v === 'string'`, with the string. */
  function AsString(v: Json): (r: Option<string>)
    ensures r.Some? <==> v.JStr?
    ensures v.JStr? ==> r.value == v.s
  {
    if v.JStr? then Some(v.s) else None
  }

  /** `key in v` for an object value. */
  predicate HasKey(v: Json, key: string) {
    v.JObj? && key in v.fields
  }
}
