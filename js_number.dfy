/**
 * JavaScript numbers as the calculator uses them.
 *
 * A finite number is an exact real: the model keeps the special values of
 * IEEE 754 (NaN and the two infinities) and the operators' rules for them,
 * but not rounding, overflow to an infinity, or the sign of zero.
 * `parseFloat`, `Number.prototype.toString` and `Math.pow` are not defined
 * here: a `FloatLib` value supplies them.
 */
module JsNumber {

  datatype Num = Fin(r: real) | PosInf | NegInf | NaN

  const Zero: Num := Fin(0.0)

  /** The three library routines the model leaves uninterpreted. */
  datatype FloatLib = FloatLib(
    parse: string -> Num,     // parseFloat
    show: Num -> string,      // toString, and `${x}` in a template literal
    pow: (Num, Num) -> Num)   // Math.pow

  predicate IsNegative(x: Num) {
    x.NegInf? || (x.Fin? && x.r < 0.0)
  }

  function Infinity(negative: bool): Num {
    if negative then NegInf else PosInf
  }

  function Abs(x: real): real {
    if x < 0.0 then -x else x
  }

  /** Unary minus. */
  function Neg(x: Num): Num {
    match x
    case Fin(v) => Fin(-v)
    case PosInf => NegInf
    case NegInf => PosInf
    case NaN => NaN
  }

  /**
   * `a + b`: the real sum of finite operands; NaN from a NaN operand or from
   * infinities of opposite sign; otherwise the infinite operand.
   */
  function Add(a: Num, b: Num): (r: Num)
    ensures a.Fin? && b.Fin? ==> r == Fin(a.r + b.r)
    ensures r.Fin? <==> a.Fin? && b.Fin?
    ensures r.NaN? <==> a.NaN? || b.NaN? || (a.PosInf? && b.NegInf?) || (a.NegInf? && b.PosInf?)
    ensures r.PosInf? <==> !r.NaN? && (a.PosInf? || b.PosInf?)
    ensures r.NegInf? <==> !r.NaN? && (a.NegInf? || b.NegInf?)
  {
    if a.NaN? || b.NaN? then NaN
    else if a.Fin? && b.Fin? then Fin(a.r + b.r)
    else if a.Fin? then b
    else if b.Fin? then a
    else if a == b then a
    else NaN
  }

  /** `a - b`: the real difference of finite operands; NaN for infinities of the same sign. */
  function Sub(a: Num, b: Num): (r: Num)
    ensures a.Fin? && b.Fin? ==> r == Fin(a.r - b.r)
    ensures r.Fin? <==> a.Fin? && b.Fin?
    ensures r.NaN? <==> a.NaN? || b.NaN? || (a.PosInf? && b.PosInf?) || (a.NegInf? && b.NegInf?)
    ensures r.PosInf? <==> !r.NaN? && (a.PosInf? || b.NegInf?)
    ensures r.NegInf? <==> !r.NaN? && (a.NegInf? || b.PosInf?)
  {
    Add(a, Neg(b))
  }

  /** `a * b`: the real product of finite operands; NaN for an infinity times zero. */
  function Mul(a: Num, b: Num): (r: Num)
    ensures a.Fin? && b.Fin? ==> r == Fin(a.r * b.r)
    ensures r.Fin? <==> a.Fin? && b.Fin?
    ensures r.NaN? <==> a.NaN? || b.NaN? || (!a.Fin? && b == Zero) || (a == Zero && !b.Fin?)
    ensures !r.Fin? && !r.NaN? ==> r == Infinity(IsNegative(a) != IsNegative(b))
  {
    if a.NaN? || b.NaN? then NaN
    else if a.Fin? && b.Fin? then Fin(a.r * b.r)
    else if a == Zero || b == Zero then NaN
    else Infinity(IsNegative(a) != IsNegative(b))
  }

  /**
   * `a / b`: the real quotient for a finite non-zero divisor; 0/0 and an
   * infinity over an infinity are NaN, any other number over 0 is a signed
   * infinity, and a finite number over an infinity is 0.
   */
  function Div(a: Num, b: Num): (r: Num)
    ensures a.Fin? && b.Fin? && b != Zero ==> r == Fin(a.r / b.r)
    ensures r.NaN? <==> a.NaN? || b.NaN? || (a == Zero && b == Zero) || (!a.Fin? && !b.Fin?)
    ensures a.Fin? && a != Zero && b == Zero ==> r == Infinity(a.r < 0.0)
    ensures a.Fin? && (b.PosInf? || b.NegInf?) ==> r == Zero
    ensures (a.PosInf? || a.NegInf?) && b.Fin? ==> r == Infinity(IsNegative(a) != IsNegative(b))
  {
    if a.NaN? || b.NaN? then NaN
    else if a.Fin? && b.Fin? then
      if b.r != 0.0 then Fin(a.r / b.r)
      else if a.r == 0.0 then NaN
      else Infinity(a.r < 0.0)
    else if a.Fin? then Zero
    else if b.Fin? then Infinity(IsNegative(a) != IsNegative(b))
    else NaN
  }

  /** The integer part of `x`, rounding toward zero. */
  function Trunc(x: real): int {
    if x >= 0.0 then x.Floor else -((-x).Floor)
  }

  /**
   * `a % b`: the remainder of the division truncated toward zero.  It is NaN
   * exactly for a NaN operand, an infinite dividend or a zero divisor, and a
   * finite dividend over an infinite divisor is its own remainder.
   */
  function Rem(a: Num, b: Num): (r: Num)
    ensures r.NaN? <==> !a.Fin? || b.NaN? || b == Zero
    ensures a.Fin? && (b.PosInf? || b.NegInf?) ==> r == a
  {
    if a.NaN? || b.NaN? || !a.Fin? || b == Zero then NaN
    else if !b.Fin? then a
    else Fin(a.r - b.r * Trunc(a.r / b.r) as real)
  }

  const Scale: real := 10000000000.0

  /** `Math.round(x * 1e10) / 1e10`: the nearest multiple of 1e-10, halves rounded up. */
  function Round10(x: Num): (y: Num)
    ensures y.Fin? <==> x.Fin?
    ensures !x.Fin? ==> y == x
    ensures x.Fin? ==> x.r - 0.5 / Scale < y.r <= x.r + 0.5 / Scale
    ensures x.Fin? ==> (y.r * Scale).Floor as real == y.r * Scale
  {
    if x.Fin? then Fin(((x.r * Scale + 0.5).Floor as real) / Scale) else x
  }

  /**
   * `formatResult(result)` for a numeric result: NaN, the infinities and
   * every number that already has at most ten decimal places print as
   * `toString` prints them.
   */
  function FormatResult(lib: FloatLib, x: Num): (r: string)
    ensures !x.Fin? ==> r == lib.show(x)
    ensures r == lib.show(Round10(x))
  {
    lib.show(Round10(x))
  }

  /** A number with at most ten decimal places prints exactly as `toString` prints it. */
  lemma FormatResultExact(lib: FloatLib, x: Num)
    requires x.Fin? && (x.r * Scale).Floor as real == x.r * Scale
    ensures FormatResult(lib, x) == lib.show(x)
  {
    Round10Fixes(x.r);
  }

  /** A number with at most ten decimal places is its own rounding. */
  lemma Round10Fixes(v: real)
    requires (v * Scale).Floor as real == v * Scale
    ensures Round10(Fin(v)) == Fin(v)
  {
    var k := (v * Scale).Floor;
    assert (v * Scale + 0.5).Floor == k;
    assert (k as real) / Scale == v;
  }

  /** Rounding to ten places leaves a whole number as it is. */
  lemma {:induction false} Round10Whole(n: int)
    ensures Round10(Fin(n as real)) == Fin(n as real)
  {
    var y := n as real * Scale + 0.5;
    var k := n * 10000000000;
    assert k as real <= y < k as real + 1.0;
    assert y.Floor == k;
  }

  /**
   * Number::remainder of ECMAScript (section 6.1.6.1.6 of ECMA-262): for a
   * finite dividend and a finite non-zero divisor, `a % b` is finite, smaller
   * in magnitude than the divisor, takes the sign of the dividend, and differs
   * from the dividend by a whole multiple of the divisor.
   */
  lemma {:induction false} RemainderLaw(a: real, b: real)
    requires b != 0.0
    ensures Rem(Fin(a), Fin(b)).Fin?
    ensures Abs(Rem(Fin(a), Fin(b)).r) < Abs(b)
    ensures Rem(Fin(a), Fin(b)).r != 0.0 ==> (Rem(Fin(a), Fin(b)).r < 0.0 <==> a < 0.0)
    ensures var m := (a - Rem(Fin(a), Fin(b)).r) / b; m.Floor as real == m
  {
    var q := a / b;
    var t := Trunc(q);
    var r := a - b * t as real;
    assert Rem(Fin(a), Fin(b)) == Fin(r);
    TruncatedRemainder(a, b, q, t, r);
  }

  /** The remainder `r` left by the quotient `t` of `a / b` truncated toward zero. */
  lemma TruncatedRemainder(a: real, b: real, q: real, t: int, r: real)
    requires b != 0.0 && q == a / b && t == Trunc(q) && r == a - b * t as real
    ensures Abs(r) < Abs(b)
    ensures r != 0.0 ==> (r < 0.0 <==> a < 0.0)
    ensures ((a - r) / b).Floor as real == (a - r) / b
  {
    RemainderAsProduct(a, b, q, t as real);
    TruncFraction(q);
    ScaledFraction(b, q - t as real);
    SignOfProduct(b, q - t as real);
    SignOfProduct(b, q);
    WholeQuotient(a, b, r, t);
  }

  lemma RemainderAsProduct(a: real, b: real, q: real, t: real)
    requires b != 0.0 && q == a / b
    ensures a - b * t == b * (q - t)
    ensures a == b * q
  {
    QuotientTimesDivisor(a, b);
    Factor(b, q, t);
  }

  lemma WholeQuotient(a: real, b: real, r: real, t: int)
    requires b != 0.0 && r == a - b * t as real
    ensures var m := (a - r) / b; m.Floor as real == m
  {
    var m := (a - r) / b;
    assert a - r == b * t as real;
    QuotientOfMultiple(b, t as real);
    assert m == t as real;
    assert (t as real).Floor == t;
    assert m.Floor == t;
  }

  lemma QuotientTimesDivisor(a: real, b: real)
    requires b != 0.0
    ensures b * (a / b) == a
  {
  }

  lemma Factor(b: real, x: real, y: real)
    ensures b * x - b * y == b * (x - y)
  {
  }

  lemma QuotientOfMultiple(b: real, x: real)
    requires b != 0.0
    ensures (b * x) / b == x
  {
  }

  /** What truncation leaves behind is a fraction with the sign of the quotient. */
  lemma TruncFraction(q: real)
    ensures q >= 0.0 ==> 0.0 <= q - Trunc(q) as real < 1.0
    ensures q < 0.0 ==> -1.0 < q - Trunc(q) as real <= 0.0
  {
  }

  lemma ScaledFraction(b: real, d: real)
    requires b != 0.0 && Abs(d) < 1.0
    ensures Abs(b * d) < Abs(b)
  {
    if b > 0.0 {
      if d >= 0.0 { assert b * d < b * 1.0; } else { assert b * -d < b * 1.0; }
    } else {
      if d >= 0.0 { assert -b * d < -b * 1.0; } else { assert -b * -d < -b * 1.0; }
    }
  }

  lemma SignOfProduct(b: real, x: real)
    requires b != 0.0
    ensures b * x == 0.0 <==> x == 0.0
    ensures b * x < 0.0 <==> (x != 0.0 && ((b < 0.0) != (x < 0.0)))
  {
    if b > 0.0 {
      if x > 0.0 { assert b * x > 0.0; } else if x < 0.0 { assert b * x < 0.0; }
    } else {
      if x > 0.0 { assert b * x < 0.0; } else if x < 0.0 { assert b * x > 0.0; }
    }
  }
}
