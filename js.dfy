/** The few JavaScript value rules the resume builder leans on: falsy fields,
    template-literal interpolation, `||` defaults, parsed JSON and member access. */
module Js {

  datatype Option<+T> = None | Some(value: T)

  datatype Result<+T> = Ok(value: T) | Err(message: string)

  /** A record field that holds a string, `null`, or nothing at all. */
  datatype Val = Undefined | Null | Str(s: string)

  /** JavaScript truthiness of a field: only a non-empty string is truthy. */
  predicate Truthy(v: Val) {
    v.Str? && v.s != ""
  }

  /** `${v}` in a template literal. */
  function Show(v: Val): string {
    match v
    case Undefined => "undefined"
    case Null => "null"
    case Str(s) => s
  }

  /** `v || d`, for a string default `d`. */
  function Or(v: Val, d: string): string {
    if Truthy(v) then v.s else d
  }

  /** `v || ''` — the text a falsy field contributes. */
  function Text(v: Val): string {
    Or(v, "")
  }

  lemma TextEmptyIffFalsy(v: Val)
    ensures Text(v) == "" <==> !Truthy(v)
  {
  }

  /** The members every plain JavaScript object inherits from Object.prototype.
      Looking one of these names up on `{}` finds the inherited member, not `undefined`. */
  const PrototypeMembers: set<string> := {
    "constructor", "__defineGetter__", "__defineSetter__", "hasOwnProperty",
    "__lookupGetter__", "__lookupSetter__", "isPrototypeOf", "propertyIsEnumerable",
    "toString", "valueOf", "__proto__", "toLocaleString"
  }

  /** A parsed JSON value (the result of `JSON.parse`). */
  datatype Json =
    | JNull
    | JBool(b: bool)
    | JNum(n: real)
    | JStr(str: string)
    | JArr(items: seq<Json>)
    | JObj(fields: map<string, Json>)

  /** Truthiness of a JSON value; `undefined` is modelled as `None`. */
  predicate JTruthy(j: Json) {
    match j
    case JNull => false
    case JBool(b) => b
    case JNum(n) => n != 0.0
    case JStr(s) => s != ""
    case JArr(_) => true
    case JObj(_) => true
  }

  predicate Present(o: Option<Json>) {
    o.Some? && JTruthy(o.value)
  }

  /** `j.key` for the plain member names the code reads (none of them is `length`,
      an array index or an Object.prototype member). Reading a member of `null`
      throws a TypeError; primitives, arrays and objects without the key give `undefined`. */
  function Member(j: Json, key: string): (r: Result<Option<Json>>)
    ensures r.Err? <==> j.JNull?
    ensures j.JObj? && key in j.fields ==> r == Ok(Some(j.fields[key]))
  {
    match j
    case JNull => Err("TypeError: Cannot read properties of null")
    case JObj(m) => Ok(if key in m then Some(m[key]) else None)
    case _ => Ok(None)
  }

  /** `o?.key` on a possibly-undefined value: `undefined` stays `undefined`. */
  function OptMember(o: Option<Json>, key: string): Result<Option<Json>> {
    match o
    case None => Ok(None)
    case Some(j) => Member(j, key)
  }

  /** `j[0]` for a truthy value: the first element of an array, the first character
      of a string, an object's member named "0", or `undefined`. */
  function First(j: Json): Option<Json> {
    match j
    case JArr(xs) => if |xs| > 0 then Some(xs[0]) else None
    case JStr(s) => if |s| > 0 then Some(JStr(s[..1])) else None
    case JObj(m) => if "0" in m then Some(m["0"]) else None
    case _ => None
  }
}
