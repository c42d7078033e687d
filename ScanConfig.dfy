/**
 * Scan configuration dictionaries as the scan modes read them: string keys mapped to dynamically
 * typed values, looked up with a default, and divided with Python's error behaviour.
 */
module ScanConfig {
  import opened Results

  /** A configuration value: a Python int, a float, a string, or None. */
  datatype Value = Int(i: int) | Float(f: real) | Str(s: string) | Null

  type Config = map<string, Value>

  predicate IsNumber(v: Value) {
    v.Int? || v.Float?
  }

  function AsReal(v: Value): real
    requires IsNumber(v)
  {
    if v.Int? then v.i as real else v.f
  }

  /** cfg.get(key, default): the stored value when the key is present, even when it is None. */
  function Get(cfg: Config, key: string, default: Value): (v: Value)
    ensures key in cfg ==> v == cfg[key]
    ensures key !in cfg ==> v == default
  {
    if key in cfg then cfg[key] else default
  }

  /** a / b: TypeError unless both are numbers, then ZeroDivisionError for a zero divisor. */
  function Divide(a: Value, b: Value): (r: Result<real, PyError>)
    ensures !(IsNumber(a) && IsNumber(b)) <==> r == Err(TypeError)
    ensures IsNumber(a) && IsNumber(b) ==>
              (AsReal(b) == 0.0 <==> r == Err(ZeroDivisionError))
    ensures r.Ok? ==> r.value * AsReal(b) == AsReal(a)
  {
    if !(IsNumber(a) && IsNumber(b)) then Err(TypeError)
    else if AsReal(b) == 0.0 then Err(ZeroDivisionError)
    else Ok(AsReal(a) / AsReal(b))
  }

  /**
   * The sample count numpy.linspace accepts: a non-negative int. A negative int raises ValueError;
   * a float or any other value raises TypeError.
   */
  function SampleCount(v: Value): (r: Result<nat, PyError>)
    ensures r.Ok? <==> v.Int? && v.i >= 0
    ensures r.Ok? ==> r.value == v.i
    ensures v.Int? && v.i < 0 ==> r == Err(ValueError)
    ensures !v.Int? ==> r == Err(TypeError)
  {
    match v
    case Int(n) => if n >= 0 then Ok(n) else Err(ValueError)
    case _ => Err(TypeError)
  }

  /** Python's int() of a float: truncation toward zero. */
  function Trunc(r: real): (n: int)
    ensures r >= 0.0 ==> n as real <= r < n as real + 1.0
    ensures r < 0.0 ==> n as real - 1.0 < r <= n as real
  {
    if r >= 0.0 then r.Floor else -((-r).Floor)
  }

  /** A numpy index along an axis of length n: negative indexes count from the end. */
  function AxisIndex(i: int, n: nat): (r: Result<nat, PyError>)
    ensures r.Ok? <==> -(n as int) <= i < n
    ensures r.Ok? ==> r.value < n && (i >= 0 ==> r.value == i) && (i < 0 ==> r.value == n + i)
    ensures r.Err? ==> r.error == IndexError
  {
    if 0 <= i < n then Ok(i) else if -(n as int) <= i < 0 then Ok(n + i) else Err(IndexError)
  }
}
