/**
 * The part of JavaScript's value semantics that the pages, the service layer
 * and the API routes rely on: truthiness, `a || b`, property reads (`.` and
 * `?.`), object spread and string conversion.  Numbers are integers.
 */
module Js {
  import Decimal

  datatype Value =
    | Undefined
    | Null
    | Bool(b: bool)
    | Num(n: int)
    | Str(s: string)
    | Arr(items: seq<Value>)
    | Obj(fields: map<string, Value>)

  /** `undefined` and `null`: reading a property of one of them with `.` throws a TypeError. */
  predicate Nullish(v: Value) {
    v.Undefined? || v.Null?
  }

  /** The values that `if (v)` accepts. */
  predicate Truthy(v: Value) {
    match v
    case Undefined => false
    case Null => false
    case Bool(b) => b
    case Num(n) => n != 0
    case Str(s) => s != ""
    case Arr(_) => true
    case Obj(_) => true
  }

  /** `a || b`. */
  function Or(a: Value, b: Value): Value {
    if Truthy(a) then a else b
  }

  /**
   * `v?.key`: the property of an object, `undefined` when it is missing or when
   * `v` is not an object (for `undefined` and `null` this is what optional
   * chaining gives; callers that use a plain `.` check `Nullish` first).
   */
  function Get(v: Value, key: string): Value {
    if v.Obj? && key in v.fields then v.fields[key] else Undefined
  }

  /** The own properties that `{...v}` copies. */
  function Spread(v: Value): map<string, Value> {
    if v.Obj? then v.fields else map[]
  }

  /** `parts.join(sep)` on strings. */
  function Join(parts: seq<string>, sep: string): string {
    if |parts| == 0 then ""
    else if |parts| == 1 then parts[0]
    else parts[0] + sep + Join(parts[1..], sep)
  }

  /** `String(v)`, and so also template interpolation and `alert(v)`. */
  function ToJsString(v: Value): string {
    match v
    case Undefined => "undefined"
    case Null => "null"
    case Bool(b) => if b then "true" else "false"
    case Num(n) => Decimal.IntToString(n)
    case Str(s) => s
    case Arr(items) =>
      Join(seq(|items|, i requires 0 <= i < |items| =>
        if Nullish(items[i]) then "" else ToJsString(items[i])), ",")
    case Obj(_) => "[object Object]"
  }

  /** `items.join(sep)` on an array: `null` and `undefined` elements print as "". */
  function ArrayJoin(items: seq<Value>, sep: string): string {
    Join(seq(|items|, i requires 0 <= i < |items| =>
      if Nullish(items[i]) then "" else ToJsString(items[i])), sep)
  }

  /** An array of strings joins to its strings separated by `sep`. */
  lemma {:induction false} ArrayJoinStrings(items: seq<Value>, sep: string)
    requires forall i :: 0 <= i < |items| ==> items[i].Str?
    ensures ArrayJoin(items, sep) == Join(seq(|items|, i requires 0 <= i < |items| => items[i].s), sep)
  {
    var texts := seq(|items|, i requires 0 <= i < |items| =>
      if Nullish(items[i]) then "" else ToJsString(items[i]));
    var strs := seq(|items|, i requires 0 <= i < |items| => items[i].s);
    assert texts == strs;
  }

  /**
   * The message of V8's TypeError for reading property `key` of `null` or
   * `undefined`.
   */
  function PropertyReadError(target: Value, key: string): string
    requires Nullish(target)
  {
    "Cannot read properties of " + ToJsString(target) + " (reading '" + key + "')"
  }
}
