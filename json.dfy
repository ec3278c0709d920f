/**
 * A JSON value as the client sees a decoded response body, with the
 * JavaScript conversions the error reporting applies to it: truthiness,
 * property lookup, `String(value)`, `Object.values`, `Array.prototype.flat`
 * and `Array.prototype.join`.
 */
module Json {
  import opened Text

  /** `JNull` stands for both `null` and `undefined`. Object fields are kept in
      the order `Object.values` lists them, with distinct keys, as `JSON.parse`
      produces them; for the field-name keys of the server's error bodies that
      is the order the server wrote them in (JavaScript would list
      integer-like keys first, which those bodies do not have). */
  datatype Json =
    | JNull
    | JBool(b: bool)
    | JNum(n: int)
    | JStr(s: string)
    | JArr(items: seq<Json>)
    | JObj(fields: seq<(string, Json)>)

  /** JavaScript truthiness: null, false, 0 and "" are falsy; arrays and objects are truthy. */
  predicate Truthy(v: Json) {
    match v
    case JNull => false
    case JBool(b) => b
    case JNum(n) => n != 0
    case JStr(s) => s != ""
    case JArr(_) => true
    case JObj(_) => true
  }

  /** Property access `obj[key]` on an object's fields; a missing key reads as undefined. */
  function Get(fields: seq<(string, Json)>, key: string): Json {
    if fields == [] then JNull
    else if fields[0].0 == key then fields[0].1
    else Get(fields[1..], key)
  }

  /** `parts.join(sep)`. */
  function Join(parts: seq<string>, sep: string): string {
    if parts == [] then ""
    else if |parts| == 1 then parts[0]
    else parts[0] + sep + Join(parts[1..], sep)
  }

  /** How `join` prints one element: null and undefined print as the empty string. */
  function ElementString(v: Json): string
    decreases v, 1
  {
    if v.JNull? then "" else ToJsString(v)
  }

  /** `String(value)`, as `alert` applies it to its argument. */
  function ToJsString(v: Json): string
    decreases v, 0
  {
    match v
    case JNull => "null"
    case JBool(b) => if b then "true" else "false"
    case JNum(n) => IntToString(n)
    case JStr(s) => s
    case JArr(items) =>
      Join(seq(|items|, i requires 0 <= i < |items| => ElementString(items[i])), ",")
    case JObj(_) => "[object Object]"
  }

  /** `Object.values(value)` for an array or an object. */
  function Values(v: Json): seq<Json>
    requires v.JArr? || v.JObj?
  {
    if v.JArr? then v.items else seq(|v.fields|, i requires 0 <= i < |v.fields| => v.fields[i].1)
  }

  /** `values.flat()`: arrays are spliced in one level deep. */
  function Flat(values: seq<Json>): seq<Json> {
    if values == [] then []
    else (if values[0].JArr? then values[0].items else [values[0]]) + Flat(values[1..])
  }

  /** Each element printed as `join` prints it. */
  function ElementStrings(values: seq<Json>): (r: seq<string>)
    ensures |r| == |values|
  {
    seq(|values|, i requires 0 <= i < |values| => ElementString(values[i]))
  }
}
