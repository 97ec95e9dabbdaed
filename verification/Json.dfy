/** Decoded JSON values and optional results. */
module Json {
  datatype Option<+T> = None | Some(value: T)

  datatype Value =
    | Null
    | Bool(b: bool)
    | Num(x: real)
    | Text(s: string)
    | Arr(items: seq<Value>)
    | Obj(fields: map<string, Value>)

  /** Python's `d.get(key)`. */
  function Get(fields: map<string, Value>, key: string): Value {
    if key in fields then fields[key] else Null
  }

  predicate Falsy(v: Value) {
    match v
    case Null => true
    case Bool(b) => !b
    case Num(x) => x == 0.0
    case Text(s) => s == ""
    case Arr(items) => items == []
    case Obj(fields) => fields == map[]
  }

  function Power2(n: nat): nat {
    if n == 0 then 1 else 2 * Power2(n - 1)
  }

  lemma {:induction false} Power2Grows(m: nat, n: nat)
    requires m <= n
    ensures 0 < Power2(m) && Power2(m) <= Power2(n) && (m < n ==> 2 * Power2(m) <= Power2(n))
    decreases n
  {
    if 0 < m < n {
      Power2Grows(m, n - 1);
    } else if 0 < m {
      Power2Grows(m - 1, n - 1);
    } else if 0 < n {
      Power2Grows(0, n - 1);
    }
  }

  lemma Power2Of30()
    ensures Power2(30) == 1_073_741_824
  {
    assert Power2(6) == 64;
    assert Power2(12) == 4_096;
    assert Power2(18) == 262_144;
    assert Power2(24) == 16_777_216;
  }

  /** 2^1024 - 2^970: an integer this large has no nearest float, and `float` raises OverflowError.
      Every finite float is smaller, so a number at least this large is an integer.  The exponent is
      1024, written so that nobody computes three hundred digits. */
  function FloatLimit(): (limit: real)
    ensures limit > 1_000_000_000.0
  {
    assert 2 * 1024 == 2048;
    var exponent: nat :| 2 * exponent == 2048;
    Power2Grows(exponent - 54, exponent);
    Power2Grows(30, exponent - 54);
    Power2Of30();
    (Power2(exponent) - Power2(exponent - 54)) as real
  }

  /** The numbers a Python float can hold, rounding aside. */
  type Float = x: real | -FloatLimit() < x < FloatLimit() witness 0.0

  /** How `float(text)` and `int(text)` read a string; None where they raise. */
  datatype Readers = Readers(asFloat: string -> Option<Float>, asInt: string -> Option<int>)

  /** `float(v)`: a float, a TypeError or ValueError, or an OverflowError. */
  datatype Reading = Read(value: Float) | NotANumber | TooLarge

  predicate IsTooLarge(v: Value) {
    v.Num? && (v.x <= -FloatLimit() || FloatLimit() <= v.x)
  }

  function ToFloat(v: Value, readers: Readers): Reading {
    match v
    case Num(x) => if IsTooLarge(v) then TooLarge else Read(x)
    case Bool(b) => Read(if b then 1.0 else 0.0)
    case Text(s) => (match readers.asFloat(s) case Some(x) => Read(x) case None => NotANumber)
    case _ => NotANumber
  }

  function Truncate(x: real): int {
    if x >= 0.0 then x.Floor else -(-x).Floor
  }

  /** `int(v)`; None where it raises. */
  function ToInt(v: Value, readers: Readers): Option<int> {
    match v
    case Num(x) => Some(Truncate(x))
    case Bool(b) => Some(if b then 1 else 0)
    case Text(s) => readers.asInt(s)
    case _ => None
  }
}
