/**
 * The JavaScript values that travel through the plugin: domain models,
 * request bodies, properties of HAL documents and placeholder data.
 * Numbers are integers; NaN, infinities and fractions are not modelled.
 */
module JsValues {

  datatype Value =
    | Str(s: string)
    | Num(n: int)
    | Bool(b: bool)
    | Arr(elems: seq<Value>)
    | Obj(fields: map<string, Value>)
    | Null
    | Undef
    | Fn  // a function value, whose source text is not modelled

  /** `!!v`: the empty string, 0, false, null and undefined are falsy; every other value is truthy. */
  predicate Truthy(v: Value)
    ensures v.Obj? || v.Arr? || v.Fn? ==> Truthy(v)
    ensures Truthy(v) ==> !ReadThrows(v)
  {
    match v
    case Str(s) => s != ""
    case Num(n) => n != 0
    case Bool(b) => b
    case Null => false
    case Undef => false
    case _ => true
  }

  /** Whether reading `v[key]` or `Object.entries(v)` throws a TypeError: it does on null and undefined. */
  predicate ReadThrows(v: Value) {
    v.Null? || v.Undef?
  }

  /**
   * Whether writing `v[key] = x` throws a TypeError in strict (class) code: it
   * does on null and undefined, and on a string, a number or a boolean.
   */
  predicate WriteThrows(v: Value) {
    ReadThrows(v) || v.Str? || v.Num? || v.Bool?
  }

  /** `v[key]` where `ReadThrows(v)` is false: an own property of an object; everything else reads as `undefined`. */
  function Get(v: Value, key: string): Value {
    if v.Obj? && key in v.fields then v.fields[key] else Undef
  }

  /** `Object.entries(v)` where `ReadThrows(v)` is false, keyed by property name; only objects contribute entries here. */
  function Entries(v: Value): map<string, Value> {
    if v.Obj? then v.fields else map[]
  }

  /** `v[key] = x` where `WriteThrows(v)` is false: sets an own property of an object; arrays and functions are left as they are. */
  function SetField(v: Value, key: string, x: Value): Value {
    if v.Obj? then Obj(v.fields[key := x]) else v
  }

  function DigitChar(d: nat): char
    requires d < 10
  {
    "0123456789"[d]
  }

  /** Decimal notation of a natural number, without leading zeros. */
  function NatToString(n: nat): (r: string)
    ensures |r| > 0 && forall i :: 0 <= i < |r| ==> '0' <= r[i] <= '9'
    ensures (r[0] == '0') <==> n == 0
    decreases n
  {
    if n < 10 then [DigitChar(n)] else NatToString(n / 10) + [DigitChar(n % 10)]
  }

  /** `Number.prototype.toString()` for an integer. */
  function IntToString(i: int): (r: string)
    ensures |r| > 0 && (r[0] == '-' <==> i < 0)
    ensures i < 0 ==> r[1..] == NatToString(-i)
  {
    if i < 0 then "-" + NatToString(-i) else NatToString(i)
  }

  /** `String(v)`, the conversion applied to the value a `replace` callback returns. */
  function ToJsString(v: Value): (r: string)
    ensures v.Str? ==> r == v.s
    ensures v.Num? ==> |r| > 0 && (r[0] == '-' <==> v.n < 0)
    ensures ReadThrows(v) ==> r == (if v.Null? then "null" else "undefined")
    decreases v
  {
    match v
    case Str(s) => s
    case Num(n) => IntToString(n)
    case Bool(b) => if b then "true" else "false"
    case Arr(elems) => Join(elems)
    case Obj(_) => "[object Object]"
    case Null => "null"
    case Undef => "undefined"
    case Fn => "function"
  }

  /** `elems.join(",")`: null and undefined elements contribute the empty string. */
  function Join(elems: seq<Value>): string
    decreases elems
  {
    if elems == [] then ""
    else
      var head := if elems[0].Null? || elems[0].Undef? then "" else ToJsString(elems[0]);
      if |elems| == 1 then head else head + "," + Join(elems[1..])
  }
}
