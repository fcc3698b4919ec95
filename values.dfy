/**
 * JavaScript values as the registry client sees them: parsed JSON bodies,
 * request parameters and records, together with the two pieces of JavaScript
 * semantics the client relies on: truthiness (`if (data && data.message)`)
 * and conversion to a string (`String(v)`, used when a parameter value is
 * substituted into a URI).
 */
module Values {

  datatype Option<+T> = None | Some(value: T)

  /** Success or failure of a fallible step; the failure carries the rejection value. */
  datatype Result<+T, +E> = Success(value: T) | Failure(error: E)

  /** A JavaScript value. Numbers are integers: floating point is not modelled. */
  datatype Value =
    | Undefined
    | Null
    | Bool(b: bool)
    | Num(n: int)
    | Str(s: string)
    | Arr(items: seq<Value>)
    | Obj(fields: map<string, Value>)

  /** A plain object's own properties. */
  type Fields = map<string, Value>

  /** JavaScript truthiness (no NaN, so every non-zero number is truthy). */
  predicate Truthy(v: Value)
  {
    match v
    case Undefined => false
    case Null => false
    case Bool(b) => b
    case Num(n) => n != 0
    case Str(s) => s != ""
    case Arr(_) => true
    case Obj(_) => true
  }

  /** Property access `m[k]`: a missing property reads as undefined. */
  function Get(m: Fields, k: string): Value
  {
    if k in m then m[k] else Undefined
  }

  /** Property access `v.k` on any value: only objects have own properties here. */
  function Member(v: Value, k: string): (r: Value)
    ensures !v.Obj? ==> r == Undefined
  {
    match v
    case Obj(m) => Get(m, k)
    case _ => Undefined
  }

  /** The decimal digits of a natural number, most significant first. */
  function NatToDecimal(n: nat): (r: string)
    ensures |r| >= 1
    ensures forall i :: 0 <= i < |r| ==> '0' <= r[i] <= '9'
    ensures n > 0 ==> r[0] != '0'
    decreases n
  {
    var d := ['0' + (n % 10) as char];
    if n < 10 then d else NatToDecimal(n / 10) + d
  }

  /** `String(v)` for the values modelled here. */
  function ToText(v: Value): string
    decreases v, 1
  {
    match v
    case Undefined => "undefined"
    case Null => "null"
    case Bool(b) => if b then "true" else "false"
    case Num(n) => if n < 0 then "-" + NatToDecimal(-n) else NatToDecimal(n)
    case Str(s) => s
    case Arr(items) => JoinItems(items)
    case Obj(_) => "[object Object]"
  }

  /** `items.join(",")`, where null and undefined items become empty strings. */
  function JoinItems(items: seq<Value>): string
    decreases items, 0
  {
    if items == [] then ""
    else
      var head := if items[0].Undefined? || items[0].Null? then "" else ToText(items[0]);
      if |items| == 1 then head else head + "," + JoinItems(items[1..])
  }
}
