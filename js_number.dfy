/** JavaScript numbers as the modelled code meets them: NaN, the two infinities and
    finite values. Finite values are exact reals; rounding to double precision is
    not modelled. */
module JsNumber {

  datatype Num = NaN | PosInf | NegInf | Finite(value: real)

  /** JavaScript truthiness of a number: false for NaN and zero. */
  predicate Truthy(x: Num) {
    !(x.NaN? || x == Finite(0.0))
  }

  /** `x || d` on a number operand. */
  function Or(x: Num, d: Num): (r: Num)
    ensures Truthy(x) ==> r == x
    ensures !Truthy(x) ==> r == d
  {
    if Truthy(x) then x else d
  }

  /** `Math.max(lo, x)`: NaN stays NaN. */
  function Max(lo: real, x: Num): (r: Num)
    ensures x.NaN? <==> r.NaN?
    ensures r.Finite? ==> r.value >= lo
  {
    match x
    case NaN => NaN
    case PosInf => PosInf
    case NegInf => Finite(lo)
    case Finite(v) => Finite(if v < lo then lo else v)
  }

  /** `Math.min(hi, x)`: NaN stays NaN. */
  function Min(hi: real, x: Num): (r: Num)
    ensures x.NaN? <==> r.NaN?
    ensures r.Finite? ==> r.value <= hi
  {
    match x
    case NaN => NaN
    case PosInf => Finite(hi)
    case NegInf => NegInf
    case Finite(v) => Finite(if v > hi then hi else v)
  }

  /** `clamp(v, lo, hi)`, written `Math.min(hi, Math.max(lo, v))`. */
  function Clamp(x: Num, lo: real, hi: real): Num {
    Min(hi, Max(lo, x))
  }

  /** Clamping keeps NaN, sends every other number into `[lo, hi]` (infinities to
      the nearer bound) and leaves a number already in range unchanged. */
  lemma ClampSpec(x: Num, lo: real, hi: real)
    requires lo <= hi
    ensures x.NaN? <==> Clamp(x, lo, hi).NaN?
    ensures !x.NaN? ==> Clamp(x, lo, hi).Finite? && lo <= Clamp(x, lo, hi).value <= hi
    ensures x.Finite? && lo <= x.value <= hi ==> Clamp(x, lo, hi) == x
    ensures x == PosInf ==> Clamp(x, lo, hi) == Finite(hi)
    ensures x == NegInf ==> Clamp(x, lo, hi) == Finite(lo)
  {
  }
}
