/** Values that both plugins handle: the entries of their settings objects and
    the numbers their scroll percentages evaluate to. */
module JsValues {

  datatype Option<T> = None | Some(value: T)

  /** A property value of a plain settings object. Numbers that settings hold
      (pollingTime) are whole milliseconds. */
  datatype Value = Undefined | Bool(b: bool) | Num(n: int) | Str(s: string)

  /** `settings[key] === true`: strict, so a truthy value that is not the
      boolean `true` (or a missing key) reads as false. */
  predicate IsTrue(settings: map<string, Value>, key: string)
  {
    key in settings && settings[key] == Bool(true)
  }

  /** A JavaScript number obtained by dividing two integers: the exact
      quotient when the divisor is nonzero, otherwise one of the IEEE 754
      special values the division yields. */
  datatype Number = Finite(value: real) | PosInfinity | NegInfinity | NaN

  /** `n / d` on JavaScript numbers. */
  function Divide(n: int, d: int): (q: Number)
    ensures q.Finite? <==> d != 0
    ensures q.Finite? ==> q.value * d as real == n as real
    ensures d == 0 ==> (q == PosInfinity <==> n > 0) && (q == NegInfinity <==> n < 0) && (q == NaN <==> n == 0)
  {
    if d != 0 then Finite(n as real / d as real)
    else if n > 0 then PosInfinity
    else if n < 0 then NegInfinity
    else NaN
  }

  /** `x * 100` on JavaScript numbers: infinities and NaN are kept. */
  function Times100(x: Number): (r: Number)
    ensures x.Finite? ==> r.Finite? && r.value == x.value * 100.0
    ensures !x.Finite? ==> r == x
  {
    match x
    case Finite(v) => Finite(v * 100.0)
    case _ => x
  }

  /** `x > 100` on JavaScript numbers (false for NaN). */
  predicate ExceedsHundred(x: Number)
  {
    x == PosInfinity || (x.Finite? && x.value > 100.0)
  }

  /** `raw > 100 ? 100 : raw`: a cap from above only. Nothing that does not
      exceed 100 is touched, so negative values, negative infinity and NaN
      pass through. */
  function CapAt100(raw: Number): (r: Number)
    ensures r != PosInfinity
    ensures r.Finite? ==> r.value <= 100.0
    ensures !ExceedsHundred(raw) ==> r == raw
    ensures ExceedsHundred(raw) ==> r == Finite(100.0)
  {
    if ExceedsHundred(raw) then Finite(100.0) else raw
  }
}
