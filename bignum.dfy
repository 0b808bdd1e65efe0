/**
 * The values of the bignumber.js library as the profit engine uses them.
 *
 * A BigNumber is an arbitrary-precision decimal, modelled here as an exact
 * rational (`real`), or one of the three non-finite values the library
 * produces when it divides by zero: Infinity, -Infinity and NaN. Zero is
 * unsigned in this model.
 */
module BigNum {

  datatype Num = Fin(v: real) | PosInf | NegInf | NaN

  /** The sign of a value that is not NaN: -1, 0 or 1. */
  function Sign(a: Num): (s: int)
    requires !a.NaN?
    ensures -1 <= s <= 1
    ensures a.Fin? ==> (s == 0 <==> a.v == 0.0) && (s == 1 <==> a.v > 0.0)
  {
    match a
    case Fin(x) => if x > 0.0 then 1 else if x < 0.0 then -1 else 0
    case PosInf => 1
    case NegInf => -1
  }

  /** The infinity of the given sign (a zero sign counts as positive, as in the library). */
  function Infinity(s: int): Num {
    if s < 0 then NegInf else PosInf
  }

  function Negated(a: Num): Num {
    match a
    case Fin(x) => Fin(-x)
    case PosInf => NegInf
    case NegInf => PosInf
    case NaN => NaN
  }

  /** `a.plus(b)`: Infinity plus -Infinity is NaN. */
  function Plus(a: Num, b: Num): (r: Num)
    ensures a.Fin? && b.Fin? ==> r == Fin(a.v + b.v)
    ensures a.NaN? || b.NaN? ==> r.NaN?
  {
    if a.NaN? || b.NaN? then NaN
    else if a.Fin? && b.Fin? then Fin(a.v + b.v)
    else if a.Fin? then b
    else if b.Fin? then a
    else if a == b then a
    else NaN
  }

  /** `a.minus(b)`. */
  function Minus(a: Num, b: Num): (r: Num)
    ensures a.Fin? && b.Fin? ==> r == Fin(a.v - b.v)
  {
    Plus(a, Negated(b))
  }

  /** `a.multipliedBy(b)`: zero times an infinity is NaN. */
  function Times(a: Num, b: Num): (r: Num)
    ensures a.Fin? && b.Fin? ==> r == Fin(a.v * b.v)
    ensures a.NaN? || b.NaN? ==> r.NaN?
    ensures !a.Fin? || !b.Fin? ==> !r.Fin?
  {
    if a.NaN? || b.NaN? then NaN
    else if a.Fin? && b.Fin? then Fin(a.v * b.v)
    else if Sign(a) == 0 || Sign(b) == 0 then NaN
    else Infinity(Sign(a) * Sign(b))
  }

  /**
   * `a.dividedBy(b)`, exactly (the library's 20-decimal rounding is not
   * modelled): a non-zero finite value over zero is an infinity, zero over
   * zero and an infinity over an infinity are NaN, a finite value over an
   * infinity is zero.
   */
  function DividedBy(a: Num, b: Num): (r: Num)
    ensures a.Fin? && b.Fin? && b.v != 0.0 ==> r == Fin(a.v / b.v)
    ensures b.Fin? && b.v == 0.0 ==> !r.Fin?
    ensures a.NaN? || b.NaN? ==> r.NaN?
  {
    if a.NaN? || b.NaN? then NaN
    else if a.Fin? && b.Fin? then
      if b.v != 0.0 then Fin(a.v / b.v)
      else if a.v == 0.0 then NaN
      else Infinity(Sign(a))
    else if a.Fin? then Fin(0.0)
    else if b.Fin? then Infinity(Sign(a) * (if Sign(b) < 0 then -1 else 1))
    else NaN
  }

  /**
   * `a.isGreaterThan(b)`: the strict order of the extended reals, false
   * whenever either side is NaN.
   */
  predicate IsGreaterThan(a: Num, b: Num): (g: bool)
    ensures a.NaN? || b.NaN? ==> !g
    ensures a.Fin? && b.Fin? ==> (g <==> a.v > b.v)
    ensures a.PosInf? ==> (g <==> !b.PosInf? && !b.NaN?)
    ensures b.NegInf? ==> (g <==> !a.NegInf? && !a.NaN?)
    ensures a.NegInf? || b.PosInf? || a == b ==> !g
  {
    match (a, b)
    case (Fin(x), Fin(y)) => x > y
    case (PosInf, Fin(_)) => true
    case (PosInf, NegInf) => true
    case (Fin(_), NegInf) => true
    case _ => false
  }

  /** `BigNumber.min(a, b)`, and JavaScript's `Math.min` on numbers: NaN wins, otherwise the smaller. */
  function Min(a: Num, b: Num): (r: Num)
    ensures a.Fin? && b.Fin? ==> r.Fin? && r.v <= a.v && r.v <= b.v && (r.v == a.v || r.v == b.v)
  {
    if a.NaN? || b.NaN? then NaN
    else if IsGreaterThan(a, b) then b
    else a
  }
}
