/**
 * Parsed JSON values as JavaScript sees them after `JSON.parse`, plus `undefined` for a
 * property that is absent. JavaScript truthiness and `||` are written out explicitly.
 */
module Json {

  datatype Json =
    | JUndefined
    | JNull
    | JBool(b: bool)
    | JNum(n: real)
    | JStr(s: string)
    | JArr(elems: seq<Json>)
    | JObj(fields: map<string, Json>)

  /** JavaScript truthiness: `undefined`, `null`, `false`, `0` and `""` are falsy. */
  predicate Truthy(j: Json) {
    match j
    case JUndefined => false
    case JNull => false
    case JBool(b) => b
    case JNum(n) => n != 0.0
    case JStr(s) => s != ""
    case JArr(_) => true
    case JObj(_) => true
  }

  /** `null` or `undefined`: reading a property of such a value throws a TypeError. */
  predicate IsNullish(j: Json) { j.JUndefined? || j.JNull? }

  /** `typeof j === "object"`, which holds for `null` and for arrays too. */
  predicate IsObjectType(j: Json) { j.JNull? || j.JArr? || j.JObj? }

  /** `j[key]` for a value that is not nullish: absent keys read as `undefined`. */
  function Get(j: Json, key: string): (r: Json)
    ensures r != JUndefined ==> j.JObj? && key in j.fields && r == j.fields[key]
  {
    if j.JObj? && key in j.fields then j.fields[key] else JUndefined
  }

  /** `a || b`: the first operand when it is truthy, otherwise the second. */
  function Or(a: Json, b: Json): (r: Json)
    ensures Truthy(r) <==> Truthy(a) || Truthy(b)
    ensures r == a || r == b
  {
    if Truthy(a) then a else b
  }

  /** How a parameter is bound to SQL: `undefined` is sent as NULL. */
  function Bind(j: Json): (r: Json)
    ensures r != JUndefined
    ensures Truthy(r) == Truthy(j)
  {
    if j.JUndefined? then JNull else j
  }
}
