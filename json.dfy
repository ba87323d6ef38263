/**
  JSON values as the client sees them after `json.loads`, and the handful of
  Python operations the client applies to them without checking their type
  first: truthiness, the `in` test, subscription, `.get` and `len`.  Each of
  these behaves as Python does on every kind of value, raising where Python
  raises.
 */
module Json {
  import opened Wrappers
  import opened Strings

  /** A decoded JSON document.  Objects are Python dicts, so member order is not kept. */
  datatype Json =
    | JNull
    | JBool(b: bool)
    | JNum(n: int)
    | JStr(s: string)
    | JArr(items: seq<Json>)
    | JObj(fields: map<string, Json>)

  /** The empty dict `{}`. */
  const EmptyObject: Json := JObj(map[])

  /** `bool(j)`: `None`, `False`, `0`, `""`, `[]` and `{}` are false. */
  predicate Truthy(j: Json) {
    match j
    case JNull => false
    case JBool(b) => b
    case JNum(n) => n != 0
    case JStr(s) => s != ""
    case JArr(items) => items != []
    case JObj(fields) => fields != map[]
  }

  /** `key in j` for a string `key`: a dict tests its keys, a list its elements,
      a string its substrings; on anything else Python raises. */
  function In(key: string, j: Json): (r: Outcome<bool>)
    ensures r.Raises? <==> !(j.JObj? || j.JArr? || j.JStr?)
    ensures j.JObj? ==> r == Returns(key in j.fields)
  {
    match j
    case JObj(fields) => Returns(key in fields)
    case JArr(items) => Returns(JStr(key) in items)
    case JStr(s) => Returns(Contains(s, key))
    case _ => Raises(TypeError)
  }

  /** `j[key]` for a string `key`, used only after `key in j` returned true:
      a dict yields the member; a list or string refuses a string index. */
  function Subscript(j: Json, key: string): (r: Outcome<Json>)
    requires In(key, j) == Returns(true)
    ensures r.Returns? <==> j.JObj?
  {
    match j
    case JObj(fields) => Returns(fields[key])
    case _ => Raises(TypeError)
  }

  /** `j.get(key, default)`: only dicts have `.get`. */
  function Get(j: Json, key: string, default: Json): (r: Outcome<Json>)
    ensures r.Raises? <==> !j.JObj?
    ensures j.JObj? && key in j.fields ==> r == Returns(j.fields[key])
    ensures j.JObj? && key !in j.fields ==> r == Returns(default)
  {
    match j
    case JObj(fields) => Returns(if key in fields then fields[key] else default)
    case _ => Raises(AttributeError)
  }

  /** `len(j)`: lists, strings and dicts have a length. */
  function Len(j: Json): (r: Outcome<nat>)
    ensures r.Returns? <==> (j.JArr? || j.JStr? || j.JObj?)
  {
    match j
    case JArr(items) => Returns(|items|)
    case JStr(s) => Returns(|s|)
    case JObj(fields) => Returns(|fields|)
    case _ => Raises(TypeError)
  }
}
