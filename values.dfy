/**
 * Dynamically typed values as they arrive in the simulator's JSON telemetry,
 * and the outcome of Python's ordering operators on them: numbers compare,
 * anything else (None, a string) against a number raises TypeError.
 */
module Values {
  import opened Wrappers

  datatype Value = Null | Num(n: real) | Text(s: string)

  datatype TypeError = TypeError

  /** `v > x` for a number x. */
  function Greater(v: Value, x: real): (r: Result<bool, TypeError>)
    ensures r.Success? <==> v.Num?
    ensures r.Success? ==> (r.value <==> v.n > x)
  {
    if v.Num? then Success(v.n > x) else Failure(TypeError)
  }

  /** Python's int() on a float: truncation toward zero. */
  function Trunc(x: real): (r: int)
    ensures x >= 0.0 ==> r as real <= x < r as real + 1.0
    ensures x < 0.0 ==> r as real - 1.0 < x <= r as real
  {
    if x >= 0.0 then x.Floor else -((-x).Floor)
  }
}
