/**
  IEEE-754 doubles as both programs see them, without their bit layout: a
  finite value or one of the three non-finite values. Signed zero and rounding
  are not distinguished; only the comparisons the programs make are modelled.
 */
module Floats {

  datatype Float = Finite(value: real) | NaN | PosInf | NegInf

  predicate IsNaN(x: Float) {
    x.NaN?
  }

  predicate IsInf(x: Float) {
    x.PosInf? || x.NegInf?
  }

  /** `x >= bound` as an IEEE comparison evaluates it: false for NaN, true for +Inf. */
  predicate AtLeast(x: Float, bound: real) {
    match x
    case Finite(v) => v >= bound
    case NaN => false
    case PosInf => true
    case NegInf => false
  }

  /** `x <= bound` as an IEEE comparison evaluates it: false for NaN, true for -Inf. */
  predicate AtMost(x: Float, bound: real) {
    match x
    case Finite(v) => v <= bound
    case NaN => false
    case PosInf => false
    case NegInf => true
  }
}
