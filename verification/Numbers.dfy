/**
 * JavaScript numbers as far as the model needs them: a finite value or NaN.
 * Comparisons follow the language: every comparison with NaN is false,
 * so NaN is not `===` to itself.
 */
module Numbers {

  datatype Num = Fin(v: real) | NaN

  /** `x === y` on numbers. */
  predicate StrictEq(x: Num, y: Num) {
    x.Fin? && y.Fin? && x.v == y.v
  }

  /** `x < y` on numbers. */
  predicate Less(x: Num, y: Num) {
    x.Fin? && y.Fin? && x.v < y.v
  }

  /** `x <= y` on numbers. */
  predicate LessEq(x: Num, y: Num) {
    x.Fin? && y.Fin? && x.v <= y.v
  }

  /** `isNaN(x)`. */
  predicate IsNaN(x: Num) {
    x.NaN?
  }

  /** `x * y` without rounding: NaN is absorbing. */
  function Mul(x: Num, y: Num): (r: Num)
    ensures r.NaN? <==> x.NaN? || y.NaN?
  {
    if x.Fin? && y.Fin? then Fin(x.v * y.v) else NaN
  }
}
