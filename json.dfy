/** JSON values as both the Flask server and the React client see them, with each language's truthiness. */
module JsonValue {
  import opened Base

  /** A decoded JSON document. Objects are maps: the server's `jsonify` sorts keys, so key order is not observable. */
  datatype Json =
    | JNull
    | JBool(b: bool)
    | JNum(n: int)
    | JStr(s: string)
    | JArr(items: seq<Json>)
    | JObj(fields: map<string, Json>)

  /** Python's `bool(v)` on the value `json.loads` produced: None, False, 0 and empty containers are falsy. */
  predicate PyTruthy(v: Json): (b: bool)
    ensures !b <==> v in {JNull, JBool(false), JNum(0), JStr(""), JArr([]), JObj(map[])}
  {
    match v
    case JNull => false
    case JBool(b) => b
    case JNum(n) => n != 0
    case JStr(s) => s != ""
    case JArr(xs) => xs != []
    case JObj(m) => m != map[]
  }

  /** JavaScript truthiness of a value that may be `undefined` (None): arrays and objects are always truthy. */
  predicate JsTruthy(v: Option<Json>): (b: bool)
    ensures !b <==> v in {None, Some(JNull), Some(JBool(false)), Some(JNum(0)), Some(JStr(""))}
    ensures v.Some? && PyTruthy(v.value) ==> b
  {
    match v
    case None => false
    case Some(JNull) => false
    case Some(JBool(b)) => b
    case Some(JNum(n)) => n != 0
    case Some(JStr(s)) => s != ""
    case Some(JArr(_)) => true
    case Some(JObj(_)) => true
  }

  /** The name CPython gives the type of a decoded value, as it appears in exception messages. */
  function PyTypeName(v: Json): string {
    match v
    case JNull => "NoneType"
    case JBool(_) => "bool"
    case JNum(_) => "int"
    case JStr(_) => "str"
    case JArr(_) => "list"
    case JObj(_) => "dict"
  }

  /** Python's `d.get(key)` on a dict, or JavaScript's `obj.key` on an object: absent keys give None. */
  function Member(v: Json, key: string): (r: Option<Json>)
    ensures r.Some? <==> v.JObj? && key in v.fields
    ensures r.Some? ==> r.value == v.fields[key]
  {
    if v.JObj? && key in v.fields then Some(v.fields[key]) else None
  }

}
