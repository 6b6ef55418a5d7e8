/**
 * Python's dynamically typed values as the modelled code sees them: what a
 * `dict.get` returns, what JSON decodes to, what a DataFrame cell holds.
 * Floats are exact reals; a float NaN is not a value of the model.
 */
module Values {
  import opened Wrappers
  import opened Strings
  import opened Numbers

  datatype Value =
    | VNone
    | VBool(b: bool)
    | VInt(i: int)
    | VFloat(r: real)
    | VStr(s: string)
    | VList(items: seq<Value>)
    | VDict(entries: map<string, Value>)

  type Dict = map<string, Value>

  /** Python truthiness (`bool(v)`). */
  predicate Truthy(v: Value)
  {
    match v
    case VNone => false
    case VBool(b) => b
    case VInt(i) => i != 0
    case VFloat(r) => r != 0.0
    case VStr(s) => s != ""
    case VList(items) => items != []
    case VDict(entries) => entries != map[]
  }

  /** `d.get(k, default)` */
  function Get(d: Dict, k: string, default: Value): Value
  {
    if k in d then d[k] else default
  }

  /** Python `a or b`. */
  function Or(a: Value, b: Value): Value
  {
    if Truthy(a) then a else b
  }

  /** `isinstance(v, dict) and v.get(key)` is truthy. */
  predicate DictFlag(v: Value, key: string)
  {
    v.VDict? && Truthy(Get(v.entries, key, VNone))
  }

  /** Fraction digits of a float's text with the trailing zeros dropped, at least one kept. */
  function TrimZeros(s: string): string
  {
    if |s| > 1 && s[|s| - 1] == '0' then TrimZeros(s[..|s| - 1]) else s
  }

  /**
   * The text of a float: sign, integer part, '.', and up to six fraction
   * digits (truncated, trailing zeros dropped, at least one digit). Agrees with
   * Python's `str(x)` for floats of at most six decimals below 1e16.
   */
  function FloatText(r: real): string
  {
    var a := if r < 0.0 then -r else r;
    var whole := a.Floor;
    var micros := ((a - whole as real) * 1000000.0).Floor;
    (if r < 0.0 then "-" else "") + NatText(whole) + "." + TrimZeros(ZFill(NatText(micros), 6))
  }

  /** `f"{x:.2f}"`, rounding half away from zero; a negative value keeps its sign even when it rounds to zero. */
  function Fixed2(x: real): string
  {
    var a := if x < 0.0 then -x else x;
    var cents: nat := (a * 100.0 + 0.5).Floor;
    (if x < 0.0 then "-" else "") + NatText(cents / 100) + "." + ZFill(NatText(cents % 100), 2)
  }

  /** `f"{x:.1f}"`, rounding half away from zero; a negative value keeps its sign even when it rounds to zero. */
  function Fixed1(x: real): string
  {
    var a := if x < 0.0 then -x else x;
    var tenths: nat := (a * 10.0 + 0.5).Floor;
    (if x < 0.0 then "-" else "") + NatText(tenths / 10) + "." + NatText(tenths % 10)
  }

  /** A number printed with one decimal holds a point, so it is never "nan". */
  lemma Fixed1Point(x: real)
    ensures '.' in Fixed1(x)
  {
    var a := if x < 0.0 then -x else x;
    var tenths: nat := (a * 10.0 + 0.5).Floor;
    var head := (if x < 0.0 then "-" else "") + NatText(tenths / 10);
    assert Fixed1(x) == head + "." + NatText(tenths % 10);
    assert Fixed1(x)[|head|] == '.';
  }

  /** A number printed with two decimals holds a point, so it is never "nan". */
  lemma Fixed2Point(x: real)
    ensures '.' in Fixed2(x)
  {
    var a := if x < 0.0 then -x else x;
    var cents: nat := (a * 100.0 + 0.5).Floor;
    var head := (if x < 0.0 then "-" else "") + NatText(cents / 100);
    assert Fixed2(x) == head + "." + ZFill(NatText(cents % 100), 2);
    assert Fixed2(x)[|head|] == '.';
  }

  /**
   * `str(v)`. Containers are rendered as a fixed placeholder: Python's repr
   * of lists and dicts is outside the model.
   */
  function Str(v: Value): string
  {
    match v
    case VNone => "None"
    case VBool(b) => if b then "True" else "False"
    case VInt(i) => IntText(i)
    case VFloat(r) => FloatText(r)
    case VStr(s) => s
    case VList(_) => "[...]"
    case VDict(_) => "{...}"
  }

  /** Python `float(v)`: `None` where Python raises `ValueError` or `TypeError`. */
  function ToFloat(v: Value): Option<real>
  {
    match v
    case VBool(b) => Some(if b then 1.0 else 0.0)
    case VInt(i) => Some(i as real)
    case VFloat(r) => Some(r)
    case VStr(s) => ParseDecimal(s)
    case _ => None
  }

  /** A number as a cell value. */
  function Num(r: real): Value { VFloat(r) }
}
