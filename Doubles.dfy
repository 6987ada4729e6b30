/**
 * Java `double` values as the K-Means fit uses them: exact real numbers
 * extended with the two infinities and the undefined value NaN.  Rounding
 * and the sign of zero are not modelled; the infinities and NaN are, since
 * the fit starts its cost at +infinity and an empty cluster yields 0/0.
 */
module Doubles {

  datatype Dbl = Fin(v: real) | PosInf | NegInf | NaN

  predicate IsInfinite(x: Dbl) {
    x.PosInf? || x.NegInf?
  }

  function Neg(x: Dbl): Dbl {
    match x
    case Fin(a) => Fin(-a)
    case PosInf => NegInf
    case NegInf => PosInf
    case NaN => NaN
  }

  /** IEEE addition: NaN absorbs, opposite infinities give NaN. */
  function Add(x: Dbl, y: Dbl): (r: Dbl)
    ensures r.NaN? <==> x.NaN? || y.NaN? || (x.PosInf? && y.NegInf?) || (x.NegInf? && y.PosInf?)
    ensures x.Fin? && y.Fin? ==> r == Fin(x.v + y.v)
  {
    if x.NaN? || y.NaN? then NaN
    else if (x.PosInf? && y.NegInf?) || (x.NegInf? && y.PosInf?) then NaN
    else if x.PosInf? || y.PosInf? then PosInf
    else if x.NegInf? || y.NegInf? then NegInf
    else Fin(x.v + y.v)
  }

  function Sub(x: Dbl, y: Dbl): Dbl {
    Add(x, Neg(y))
  }

  /** IEEE multiplication: NaN absorbs, infinity times zero is NaN. */
  function Mul(x: Dbl, y: Dbl): Dbl {
    if x.NaN? || y.NaN? then NaN
    else if x.Fin? && y.Fin? then Fin(x.v * y.v)
    else if x == Fin(0.0) || y == Fin(0.0) then NaN
    else if IsPositive(x) == IsPositive(y) then PosInf
    else NegInf
  }

  predicate IsPositive(x: Dbl) {
    x.PosInf? || (x.Fin? && x.v > 0.0)
  }

  /**
   * IEEE division, with a zero divisor read as +0.0 (the fit only divides
   * by a non-negative count): 0/0 is NaN, a non-zero value over zero is an
   * infinity of its sign.
   */
  function Div(x: Dbl, y: Dbl): Dbl {
    if x.NaN? || y.NaN? || (IsInfinite(x) && IsInfinite(y)) then NaN
    else if IsInfinite(x) then (if y.v < 0.0 then Neg(x) else x)
    else if IsInfinite(y) then Fin(0.0)
    else if y.v != 0.0 then Fin(x.v / y.v)
    else if x.v == 0.0 then NaN
    else if x.v > 0.0 then PosInf
    else NegInf
  }

  function Abs(x: Dbl): (r: Dbl)
    ensures r.NaN? <==> x.NaN?
  {
    match x
    case Fin(a) => Fin(if a < 0.0 then -a else a)
    case PosInf => PosInf
    case NegInf => PosInf
    case NaN => NaN
  }

  /** IEEE `<`: false whenever either side is NaN. */
  predicate Lt(x: Dbl, y: Dbl) {
    match (x, y)
    case (NaN, _) => false
    case (_, NaN) => false
    case (PosInf, _) => false
    case (_, PosInf) => true
    case (_, NegInf) => false
    case (NegInf, _) => true
    case (Fin(a), Fin(b)) => a < b
  }

  /** A value that is NaN or a non-negative finite number. */
  predicate NonNegOrNaN(x: Dbl) {
    x.NaN? || (x.Fin? && x.v >= 0.0)
  }

  lemma AddAssoc(x: Dbl, y: Dbl, z: Dbl)
    ensures Add(Add(x, y), z) == Add(x, Add(y, z))
  {
  }

  lemma AddZero(x: Dbl)
    ensures Add(x, Fin(0.0)) == x
  {
  }
}
