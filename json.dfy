/** The JavaScript values that cross the boundaries of the model: parsed
    request bodies, credential keys and the properties read from them. */
module Json {
  import opened Wrappers

  /** A JavaScript value as `JSON.parse` can produce it, plus `undefined`
      (what reading an absent property yields).  NaN and the infinities
      cannot come out of JSON and are not represented. */
  datatype JsValue =
    | JsUndefined
    | JsNull
    | JsBool(b: bool)
    | JsNumber(n: real)
    | JsString(s: string)
    | JsArray(items: seq<JsValue>)
    | JsObject(fields: map<string, JsValue>)

  /** JavaScript truthiness: `undefined`, `null`, `false`, `0` and `""` are
      falsy; every array and object, even an empty one, is truthy. */
  predicate Truthy(v: JsValue) {
    match v
    case JsUndefined => false
    case JsNull => false
    case JsBool(b) => b
    case JsNumber(n) => n != 0.0
    case JsString(s) => s != ""
    case JsArray(_) => true
    case JsObject(_) => true
  }

  /** The property read `v.name` (also what `const { name } = v` does).
      Reading a property of `null` or `undefined` throws a TypeError, which is
      `None` here.  Only own data properties are modelled: the names this
      model reads (`polygon`, `client_email`, `private_key`) are not
      inherited by any JSON value. */
  function Get(v: JsValue, name: string): (r: Option<JsValue>)
    ensures r.None? <==> v.JsNull? || v.JsUndefined?
    ensures r.Some? && !(v.JsObject? && name in v.fields) ==> r.value == JsUndefined
    ensures v.JsObject? && name in v.fields ==> r == Some(v.fields[name])
  {
    match v
    case JsUndefined => None
    case JsNull => None
    case JsObject(fields) => if name in fields then Some(fields[name]) else Some(JsUndefined)
    case _ => Some(JsUndefined)
  }
}
