/**
 * JSON values as the scripts see them after `JSON.parse`, JavaScript
 * truthiness, and the string conversion a template literal applies.
 * Numbers are integers: the ledger and the metadata only ever hold
 * integral numbers (lamports, milliseconds, slots).
 */
module JsonValue {
  import opened Wrappers
  import Strings

  datatype Json =
    | JNull
    | JBool(b: bool)
    | JNum(n: int)
    | JStr(s: string)
    | JArr(items: seq<Json>)
    | JObj(fields: map<string, Json>)

  /** A plain object: a ledger record, a metadata object. */
  type Entry = map<string, Json>

  /** `obj[key]`; `None` stands for `undefined`. */
  function Get(obj: Entry, key: string): (r: Option<Json>)
    ensures r.Some? <==> key in obj
    ensures r.Some? ==> r.value == obj[key]
  {
    if key in obj then Some(obj[key]) else None
  }

  /** `v?.key`: `undefined` unless `v` is an object holding `key`. */
  function Member(v: Json, key: string): (r: Option<Json>)
    ensures r.Some? <==> v.JObj? && key in v.fields
  {
    if v.JObj? then Get(v.fields, key) else None
  }

  /** JavaScript truthiness of a possibly-undefined JSON value. */
  predicate Truthy(v: Option<Json>)
  {
    match v
    case None => false
    case Some(JNull) => false
    case Some(JBool(b)) => b
    case Some(JNum(n)) => n != 0
    case Some(JStr(s)) => s != ""
    case Some(JArr(_)) => true
    case Some(JObj(_)) => true
  }

  /** `String(v)`, as `${v}` renders a value inside a template literal. */
  function Text(v: Option<Json>): string
  {
    match v
    case None => "undefined"
    case Some(j) => JsString(j)
  }

  function JsString(j: Json): string
    decreases j, 1
  {
    match j
    case JNull => "null"
    case JBool(b) => if b then "true" else "false"
    case JNum(n) => Strings.ShowInt(n)
    case JStr(s) => s
    case JArr(items) => ArrayText(items)
    case JObj(_) => "[object Object]"
  }

  /** `Array.prototype.join(',')`: null elements render as the empty string. */
  function ArrayText(items: seq<Json>): string
    decreases items, 0
  {
    if items == [] then ""
    else
      var first := if items[0] == JNull then "" else JsString(items[0]);
      if |items| == 1 then first else first + "," + ArrayText(items[1..])
  }
}
