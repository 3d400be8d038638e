/**
 * Value types shared by the whole model: Option and Result, and `Json`, the
 * dynamically typed value that request bodies and job-config dictionaries hold.
 * The predicates below give Python's `isinstance` tests their meaning, in which
 * `bool` is a subclass of `int`.
 */
module Values {

  datatype Option<T> = None | Some(value: T)

  /** The outcome of a check that may raise `ValueError(message)`. */
  datatype Result<T> = Ok(value: T) | Err(message: string)

  datatype Json =
    | JNull
    | JBool(b: bool)
    | JInt(i: int)
    | JFloat(f: real)
    | JStr(s: string)
    | JArr(items: seq<Json>)
    | JObj(fields: map<string, Json>)

  /** `isinstance(v, int)`: true for ints and for booleans. */
  predicate IsInt(v: Json) {
    v.JInt? || v.JBool?
  }

  /** `isinstance(v, (int, float))`. */
  predicate IsNumber(v: Json) {
    IsInt(v) || v.JFloat?
  }

  /** The numeric value Python compares with `<` and `>` (`True == 1`, `False == 0`). */
  function NumValue(v: Json): (r: real)
    requires IsNumber(v)
  {
    match v
    case JBool(b) => if b then 1.0 else 0.0
    case JInt(i) => i as real
    case JFloat(f) => f
  }

  /** The value of an integer-typed `Json`, as used by `range` and arithmetic. */
  function IntValue(v: Json): (r: int)
    requires IsInt(v)
    ensures NumValue(v) == r as real
  {
    match v
    case JBool(b) => if b then 1 else 0
    case JInt(i) => i
  }

  /** Python's `int(x)` on a number: truncation toward zero. */
  function Truncate(x: real): (r: int)
    ensures 0.0 <= x ==> r as real <= x < r as real + 1.0
    ensures x < 0.0 ==> r as real - 1.0 < x <= r as real
  {
    if 0.0 <= x then x.Floor else -((-x).Floor)
  }

  /** `d.get(key, default)`. */
  function GetOr(d: map<string, Json>, key: string, default: Json): (r: Json)
    ensures key in d ==> r == d[key]
    ensures key !in d ==> r == default
  {
    if key in d then d[key] else default
  }
}
