/**
 * The values a PHP endpoint reads from its JSON request body (json_decode(…, true)),
 * and the PHP tests the endpoints apply to them: is_int, is_numeric, is_string,
 * truthiness, and identity (===) with an integer.
 */
module PhpValues {
  import opened Wrappers

  /**
   * A decoded JSON value. A string carries the number PHP reads from it when it is a
   * numeric string (None when is_numeric rejects it); a JSON array or object is a
   * Composite with its number of members.
   */
  datatype Value =
    | Null
    | Bool(b: bool)
    | Int(i: int)
    | Float(x: real)
    | Str(s: string, numeric: Option<real>)
    | Composite(size: nat)

  /** A decoded JSON object, e.g. $frontend_data["data"]. */
  type Payload = map<string, Value>

  /** Reading an absent key of a PHP array yields null. */
  function Get(p: Payload, key: string): (v: Value)
    ensures key !in p ==> v == Null
    ensures key in p ==> v == p[key]
  {
    if key in p then p[key] else Null
  }

  /** The number is_numeric accepts, if any. */
  function NumberOf(v: Value): (n: Option<real>)
    ensures v.Null? || v.Bool? || v.Composite? ==> n.None?
    ensures v.Int? ==> n == Some(v.i as real)
  {
    match v
    case Int(i) => Some(i as real)
    case Float(x) => Some(x)
    case Str(_, num) => num
    case _ => None
  }

  predicate IsNumeric(v: Value) { NumberOf(v).Some? }

  /** is_int($v) && $v >= lo && $v <= hi */
  predicate IntIn(v: Value, lo: int, hi: int)
  {
    v.Int? && lo <= v.i <= hi
  }

  /** is_numeric($v) && $v >= lo && $v <= hi (comparisons are numeric on numeric strings) */
  predicate NumericIn(v: Value, lo: real, hi: real)
  {
    IsNumeric(v) && lo <= NumberOf(v).value <= hi
  }

  /** $v === n for an integer literal n: only an integer of that value is identical. */
  predicate IdenticalTo(v: Value, n: int)
  {
    v.Int? && v.i == n
  }

  /** PHP's conversion to bool, as an `if ($v)` applies it. */
  predicate Truthy(v: Value)
  {
    match v
    case Null => false
    case Bool(b) => b
    case Int(i) => i != 0
    case Float(x) => x != 0.0
    case Str(s, _) => s != "" && s != "0"
    case Composite(n) => n > 0
  }
}
