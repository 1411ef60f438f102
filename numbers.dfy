/**
 * JavaScript numbers as the calculator sees them.
 *
 * `Num(v)` is a number, held as an exact rational; `NaN` is a value that is
 * not a number: NaN itself, or `undefined`, which every arithmetic operator
 * turns into NaN. Floating-point rounding is not modelled.
 */
module Numbers {

  datatype Number = NaN | Num(value: real)

  /** `a + b`: NaN as soon as either operand is. */
  function Add(a: Number, b: Number): (r: Number)
  {
    if a.Num? && b.Num? then Num(a.value + b.value) else NaN
  }

  /** `a - b`: NaN as soon as either operand is. */
  function Sub(a: Number, b: Number): (r: Number)
  {
    if a.Num? && b.Num? then Num(a.value - b.value) else NaN
  }

  /** `a * b`: NaN as soon as either operand is, even when the other is 0. */
  function Mul(a: Number, b: Number): (r: Number)
  {
    if a.Num? && b.Num? then Num(a.value * b.value) else NaN
  }
}
