/**
 * Parsed JSON values and the pieces of JavaScript semantics the data layer
 * applies to them: property access, truthiness (`||`), nullish coalescing
 * (`??`), `String(v)` and `Number(v)`.
 */
module Json {
  import opened Wrappers
  import Text

  /** A value produced by `JSON.parse`. Numbers are integral (see README). */
  datatype Json =
    | JNull
    | JBool(b: bool)
    | JNum(n: int)
    | JStr(s: string)
    | JArr(items: seq<Json>)
    | JObj(fields: map<string, Json>)

  /**
   * The parts of the JavaScript runtime that the data layer consults and the
   * model does not reproduce: the clock, `new Date(v).getTime()` (None when
   * it is NaN), and `Number(v)` for a string, array or object.
   */
  datatype Runtime = Runtime(now: int, parseDate: Json -> Option<int>, numberOf: Json -> int)

  /**
   * `v.key` on a parsed value that is not null: an object's own property,
   * and undefined (None) otherwise. None of the keys the data layer reads is a
   * property of an array, a string, a number or a boolean.
   */
  function Get(v: Json, key: string): (r: Option<Json>)
    ensures r.Some? <==> v.JObj? && key in v.fields
    ensures r.Some? ==> r.value == v.fields[key]
  {
    if v.JObj? && key in v.fields then Some(v.fields[key]) else None
  }

  /** JavaScript truthiness; None is `undefined`. */
  predicate Truthy(v: Option<Json>) {
    match v
    case None => false
    case Some(JNull) => false
    case Some(JBool(b)) => b
    case Some(JNum(n)) => n != 0
    case Some(JStr(s)) => s != ""
    case Some(JArr(_)) => true
    case Some(JObj(_)) => true
  }

  /** `a || b` */
  function Or(a: Option<Json>, b: Option<Json>): (r: Option<Json>)
    ensures Truthy(r) <==> Truthy(a) || Truthy(b)
    ensures Truthy(a) ==> r == a
    ensures !Truthy(a) ==> r == b
  {
    if Truthy(a) then a else b
  }

  /** `v == null`: undefined or null. */
  predicate Nullish(v: Option<Json>) {
    v.None? || v.value.JNull?
  }

  /** `a ?? b` */
  function Coalesce(a: Option<Json>, b: Option<Json>): (r: Option<Json>)
    ensures !Nullish(a) ==> r == a
    ensures Nullish(a) ==> r == b
  {
    if Nullish(a) then b else a
  }

  /** `String(v)`. Arrays are joined with commas, a null element printing as nothing. */
  function ToStr(v: Json): string
  {
    match v
    case JNull => "null"
    case JBool(b) => if b then "true" else "false"
    case JNum(n) => Text.IntToString(n)
    case JStr(s) => s
    case JArr(items) => JoinItems(items)
    case JObj(_) => "[object Object]"
  }

  /** `items.join(",")` as `Array.prototype.toString` does it. */
  function JoinItems(items: seq<Json>): string
  {
    if items == [] then ""
    else
      var last := items[|items| - 1];
      var text := if last.JNull? then "" else ToStr(last);
      if |items| == 1 then text else JoinItems(items[..|items| - 1]) + "," + text
  }

  /** `Number(v)`; for strings, arrays and objects the runtime decides. */
  function ToNumber(v: Json, rt: Runtime): (r: int)
    ensures v.JNum? ==> r == v.n
    ensures v.JNull? ==> r == 0
    ensures v.JBool? ==> r == (if v.b then 1 else 0)
  {
    match v
    case JNull => 0
    case JBool(b) => if b then 1 else 0
    case JNum(n) => n
    case _ => rt.numberOf(v)
  }

  /**
   * The property names every plain JavaScript object inherits from
   * `Object.prototype`. `key in obj` is true for them, and `obj[key]` is
   * truthy for them, although the object has no such own property.
   */
  const ObjectPrototypeNames: set<string> := {
    "constructor", "__defineGetter__", "__defineSetter__", "hasOwnProperty",
    "__lookupGetter__", "__lookupSetter__", "isPrototypeOf", "propertyIsEnumerable",
    "toString", "valueOf", "__proto__", "toLocaleString"
  }
}
