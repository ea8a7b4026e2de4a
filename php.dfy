/**
 * The few PHP value semantics the dashboard and canvas code relies on:
 * reading an array key, `isset`, `empty`, truthiness, `count`, string
 * conversion for `.` concatenation and the loose comparison `'' != $x`.
 * PHP 7 semantics are modelled throughout.
 */
module Php {

  /** A PHP value as it flows through the listener: scalars, lists and string-keyed arrays. */
  datatype Value =
    | Null
    | Bool(b: bool)
    | Int(i: int)
    | Str(s: string)
    | List(items: seq<Value>)
    | Dict(entries: map<string, Value>)

  /** A database row or a parameter array: a string-keyed PHP array. */
  type Record = map<string, Value>

  /** `$r[$key]`: a missing key reads as null (PHP raises only a notice). */
  function Get(r: Record, key: string): Value
  {
    if key in r then r[key] else Null
  }

  /** `isset($r[$key])`: the key is present and its value is not null. */
  predicate IsSet(r: Record, key: string)
  {
    key in r && !r[key].Null?
  }

  /** PHP's conversion of a value to boolean, as used by `if ($x)`. */
  predicate Truthy(v: Value)
  {
    match v
    case Null => false
    case Bool(b) => b
    case Int(i) => i != 0
    case Str(s) => s != "" && s != "0"
    case List(xs) => xs != []
    case Dict(m) => m != map[]
  }

  /** `empty($x)`: not set, or set to a value that converts to false. */
  predicate IsEmpty(v: Value)
  {
    !Truthy(v)
  }

  /** `count($x)`: the number of elements of an array; 0 for null and 1 for any other scalar (PHP 7). */
  function Count(v: Value): nat
  {
    match v
    case Null => 0
    case List(xs) => |xs|
    case Dict(m) => |m|
    case _ => 1
  }

  /** The decimal digits of a natural number, most significant first. */
  function NatToStr(n: nat): (r: string)
    decreases n
  {
    var d := ['0', '1', '2', '3', '4', '5', '6', '7', '8', '9'][n % 10];
    if n < 10 then [d] else NatToStr(n / 10) + [d]
  }

  /** PHP's conversion of a value to string, as done by the `.` operator. */
  function ToStr(v: Value): string
  {
    match v
    case Null => ""
    case Bool(b) => if b then "1" else ""
    case Int(i) => if i < 0 then "-" + NatToStr(-i) else NatToStr(i)
    case Str(s) => s
    case List(_) => "Array"
    case Dict(_) => "Array"
  }

  /** The PHP 7 loose comparison `'' == $v`. */
  predicate LooselyEqualsEmptyString(v: Value)
  {
    match v
    case Null => true
    case Bool(b) => !b
    case Int(i) => i == 0
    case Str(s) => s == ""
    case List(_) => false
    case Dict(_) => false
  }
}
