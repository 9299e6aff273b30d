/** JavaScript's view of parsed or stored JSON values as text: reading a member of a
    row, writing a value into a template literal, and `Array.prototype.join`. */
module JsonText {
  import opened Js
  import opened Strings

  /** A database row, or any plain object: member names to values. */
  type Row = map<string, Json>

  /** `row.key`: `undefined` (None) when the row has no such member. */
  function Get(row: Row, key: string): (r: Option<Json>)
    ensures r.Some? <==> key in row
    ensures key in row ==> r.value == row[key]
  {
    if key in row then Some(row[key]) else None
  }

  /** `String(v)`, as a template literal writes a value; the text of a number is the
      engine's `Number::toString`, supplied as `num`. */
  function Interpolate(v: Option<Json>, num: real -> string): (r: string)
    ensures v == None ==> r == "undefined"
    ensures v == Some(JNull) ==> r == "null"
    ensures forall s :: v == Some(JStr(s)) ==> r == s
  {
    match v
    case None => "undefined"
    case Some(j) => ValueString(j, num)
  }

  /** `String(j)` of a present value: arrays are joined with ','. */
  function ValueString(j: Json, num: real -> string): string
    decreases j, 1
  {
    match j
    case JNull => "null"
    case JBool(b) => if b then "true" else "false"
    case JNum(n) => num(n)
    case JStr(s) => s
    case JArr(_) => ArrayJoin(j, ",", num)
    case JObj(_) => "[object Object]"
  }

  /** `array.join(sep)`: each element's text, a null element as ''. */
  function ArrayJoin(j: Json, sep: string, num: real -> string): (r: string)
    requires j.JArr?
    ensures (forall i :: 0 <= i < |j.items| ==> j.items[i].JStr?) ==>
      r == Join(seq(|j.items|, i requires 0 <= i < |j.items| => j.items[i].str), sep)
    decreases j, 0
  {
    var texts := seq(|j.items|, i requires 0 <= i < |j.items| =>
      assert j.items[i] < j;
      if j.items[i].JNull? then "" else ValueString(j.items[i], num));
    assert (forall i :: 0 <= i < |j.items| ==> j.items[i].JStr?) ==>
      texts == seq(|j.items|, i requires 0 <= i < |j.items| => j.items[i].str);
    Join(texts, sep)
  }

  /** `v.join(sep)` on a member that may not be an array: anything but an array has no
      `join`, and calling it throws a TypeError. */
  function JoinMember(v: Option<Json>, sep: string, num: real -> string): (r: Result<string>)
    ensures r.Ok? <==> v.Some? && v.value.JArr?
    ensures v.Some? && v.value.JArr? ==> r.value == ArrayJoin(v.value, sep, num)
  {
    if v.Some? && v.value.JArr? then Ok(ArrayJoin(v.value, sep, num))
    else Err("TypeError: join is not a function")
  }

  /** `v || d` written into a template: the value's text when truthy, else `d`. */
  function OrDefault(v: Option<Json>, d: string, num: real -> string): (r: string)
    ensures !Present(v) ==> r == d
    ensures forall s :: v == Some(JStr(s)) && s != "" ==> r == s
  {
    if Present(v) then Interpolate(v, num) else d
  }
}
