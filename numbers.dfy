/** A boxed number and the scalar operators defined over it.
    Every operator reads its operands through their double value. The
    arithmetic operators compute on exact reals and box the answer as a fresh
    numeric-tagged number; the comparisons return a verdict and box nothing. */
module Numbers {

  /** A boxed number: either a boolean or a numeric scalar of any integer or
      floating-point kind. Only the distinction the operators look at is kept. */
  datatype Number = Boolean(b: bool) | Numeric(v: real)

  /** The number read as a double: a boolean reads as 0 or 1. */
  function DoubleValue(x: Number): real
  {
    match x
    case Boolean(b) => if b then 1.0 else 0.0
    case Numeric(v) => v
  }

  /** The type-tag guard: true for every number not created from a boolean.
      An accepted number is the numeric box of its double value; a refused
      one is the boolean box of its double value. */
  predicate IsNumberType(x: Number): (r: bool)
    ensures r ==> x == Numeric(DoubleValue(x))
    ensures !r ==> x == Boolean(DoubleValue(x) == 1.0)
  {
    !x.Boolean?
  }

  const Zero: Number := Numeric(0.0)
  const One: Number := Numeric(1.0)

  function MaxReal(a: real, b: real): real
  {
    if a >= b then a else b
  }

  function MinReal(a: real, b: real): real
  {
    if a <= b then a else b
  }

  // ---------------------------------------------------------------------------
  // Comparisons
  // ---------------------------------------------------------------------------

  /** The outcome of a three-way comparison. */
  datatype ComparisonResult = OrderedAscending | OrderedSame | OrderedDescending

  /** The platform's three-way comparison of two boxed numbers, on their values. */
  function Compare(left: Number, right: Number): (r: ComparisonResult)
    ensures r == OrderedAscending <==> DoubleValue(left) < DoubleValue(right)
    ensures r == OrderedSame <==> DoubleValue(left) == DoubleValue(right)
    ensures r == OrderedDescending <==> DoubleValue(right) < DoubleValue(left)
  {
    if DoubleValue(left) < DoubleValue(right) then OrderedAscending
    else if DoubleValue(left) == DoubleValue(right) then OrderedSame
    else OrderedDescending
  }

  function Less(left: Number, right: Number): (r: bool)
    ensures r <==> DoubleValue(left) < DoubleValue(right)
  {
    Compare(left, right) == OrderedAscending
  }

  function Greater(left: Number, right: Number): (r: bool)
    ensures r <==> DoubleValue(right) < DoubleValue(left)
  {
    Compare(left, right) == OrderedDescending
  }

  function LessOrEqual(left: Number, right: Number): (r: bool)
    ensures r <==> DoubleValue(left) <= DoubleValue(right)
  {
    var result := Compare(left, right);
    result == OrderedAscending || result == OrderedSame
  }

  function GreaterOrEqual(left: Number, right: Number): (r: bool)
    ensures r <==> DoubleValue(right) <= DoubleValue(left)
  {
    var result := Compare(left, right);
    result == OrderedDescending || result == OrderedSame
  }

  /** Object equality of two boxed numbers: equal values, whatever the tags. */
  function Equal(left: Number, right: Number): (r: bool)
    ensures r <==> DoubleValue(left) == DoubleValue(right)
  {
    Compare(left, right) == OrderedSame
  }

  function NotEqual(left: Number, right: Number): (r: bool)
    ensures r <==> DoubleValue(left) != DoubleValue(right)
  {
    !Equal(left, right)
  }

  /** Exactly one of <, == and > holds between any two numbers. */
  lemma Trichotomy(a: Number, b: Number)
    ensures Less(a, b) || Equal(a, b) || Greater(a, b)
    ensures !(Less(a, b) && Equal(a, b))
    ensures !(Less(a, b) && Greater(a, b))
    ensures !(Equal(a, b) && Greater(a, b))
  {
  }

  /** <= is < or ==, and >= is > or ==; != is < or >. */
  lemma NonStrictSplits(a: Number, b: Number)
    ensures LessOrEqual(a, b) <==> Less(a, b) || Equal(a, b)
    ensures GreaterOrEqual(a, b) <==> Greater(a, b) || Equal(a, b)
    ensures NotEqual(a, b) <==> Less(a, b) || Greater(a, b)
  {
  }

  /** > and >= are the converses of < and <=. */
  lemma GreaterIsConverse(a: Number, b: Number)
    ensures Greater(a, b) <==> Less(b, a)
    ensures GreaterOrEqual(a, b) <==> LessOrEqual(b, a)
  {
  }

  /** < is a strict order: irreflexive and transitive. */
  lemma LessIsStrictOrder(a: Number, b: Number, c: Number)
    ensures !Less(a, a)
    ensures Less(a, b) && Less(b, c) ==> Less(a, c)
  {
  }

  /** Booleans take part in comparisons as 0 and 1, so equality is on values
      and not on the boxed representation. */
  lemma BooleansCompareAsBits()
    ensures Less(Boolean(false), Boolean(true))
    ensures Equal(Boolean(true), One) && Boolean(true) != One
    ensures Equal(Boolean(false), Zero) && Boolean(false) != Zero
  {
  }

  // ---------------------------------------------------------------------------
  // Arithmetic
  // ---------------------------------------------------------------------------

  function Add(left: Number, right: Number): (r: Number)
    requires IsNumberType(left) && IsNumberType(right)
    ensures IsNumberType(r)
  {
    Numeric(DoubleValue(left) + DoubleValue(right))
  }

  function Subtract(left: Number, right: Number): (r: Number)
    requires IsNumberType(left) && IsNumberType(right)
    ensures IsNumberType(r)
  {
    Numeric(DoubleValue(left) - DoubleValue(right))
  }

  function Divide(left: Number, right: Number): (r: Number)
    requires IsNumberType(left) && IsNumberType(right)
    requires NotEqual(right, Zero)
    ensures IsNumberType(r)
  {
    Numeric(DoubleValue(left) / DoubleValue(right))
  }

  function Multiply(left: Number, right: Number): (r: Number)
    requires IsNumberType(left) && IsNumberType(right)
    ensures IsNumberType(r)
  {
    Numeric(DoubleValue(left) * DoubleValue(right))
  }

  /** Truncation toward zero. */
  function Truncate(q: real): (n: int)
    ensures 0.0 <= q ==> 0 <= n && n as real <= q < n as real + 1.0
    ensures q < 0.0 ==> n <= 0 && n as real - 1.0 < q <= n as real
  {
    if q >= 0.0 then q.Floor else -((-q).Floor)
  }

  /** The floating-point remainder: the dividend less the divisor times the
      quotient truncated toward zero, computed exactly. */
  function Fmod(x: real, y: real): real
    requires y != 0.0
  {
    x - (Truncate(x / y) as real) * y
  }

  function Remainder(left: Number, right: Number): (r: Number)
    requires IsNumberType(left) && IsNumberType(right)
    requires NotEqual(right, Zero)
    ensures IsNumberType(r)
  {
    Numeric(Fmod(DoubleValue(left), DoubleValue(right)))
  }

  /** The remainder differs from the dividend by a whole multiple of the
      divisor, is smaller than the divisor in magnitude, and takes the sign of
      the dividend. */
  lemma RemainderBounds(x: real, y: real)
    requires y != 0.0
    ensures x == (Truncate(x / y) as real) * y + Fmod(x, y)
    ensures 0.0 <= x ==> 0.0 <= Fmod(x, y) < (if y < 0.0 then -y else y)
    ensures x <= 0.0 ==> -(if y < 0.0 then -y else y) < Fmod(x, y) <= 0.0
  {
    var q, f := FmodFraction(x, y);
    FractionScales(f, y);
    SignedFraction(x, y, q, f, Fmod(x, y));
  }

  /** The quotient `q` of x by y, with its sign, and its fractional part `f`,
      of which the remainder is `f * y`. */
  lemma FmodFraction(x: real, y: real) returns (q: real, f: real)
    requires y != 0.0
    ensures 0.0 < q <==> (0.0 < x && 0.0 < y) || (x < 0.0 && y < 0.0)
    ensures q == 0.0 <==> x == 0.0
    ensures 0.0 <= q ==> 0.0 <= f < 1.0
    ensures q < 0.0 ==> -1.0 < f <= 0.0
    ensures q == 0.0 ==> f == 0.0
    ensures Fmod(x, y) == f * y
  {
    q := x / y;
    f := q - Truncate(q) as real;
    QuotientSign(x, y);
    FmodAsFraction(x, y);
  }

  /** The case analysis behind the remainder's bounds, on plain variables:
      `q` has the sign of `x / y`, `f` is its fractional part and `r` is
      `f * y`, given through the bounds that product obeys. */
  lemma SignedFraction(x: real, y: real, q: real, f: real, r: real)
    requires y != 0.0
    requires 0.0 < q <==> (0.0 < x && 0.0 < y) || (x < 0.0 && y < 0.0)
    requires q == 0.0 <==> x == 0.0
    requires 0.0 <= q ==> 0.0 <= f < 1.0
    requires q < 0.0 ==> -1.0 < f <= 0.0
    requires q == 0.0 ==> f == 0.0
    requires 0.0 <= f && 0.0 < y ==> 0.0 <= r < y
    requires 0.0 <= f && y < 0.0 ==> y < r <= 0.0
    requires f <= 0.0 && 0.0 < y ==> -y < r <= 0.0
    requires f <= 0.0 && y < 0.0 ==> 0.0 <= r < -y
    ensures 0.0 <= x ==> 0.0 <= r < (if y < 0.0 then -y else y)
    ensures x <= 0.0 ==> -(if y < 0.0 then -y else y) < r <= 0.0
  {
  }

  /** The remainder is the fractional part of the quotient, times the divisor. */
  lemma FmodAsFraction(x: real, y: real)
    requires y != 0.0
    ensures Fmod(x, y) == (x / y - Truncate(x / y) as real) * y
  {
    var q, n := x / y, Truncate(x / y) as real;
    assert x == q * y;
    assert (q - n) * y == q * y - n * y;
  }

  /** The quotient of two reals is positive exactly when they have the same
      sign, and zero exactly when the dividend is. */
  lemma QuotientSign(x: real, y: real)
    requires y != 0.0
    ensures 0.0 < x / y <==> (0.0 < x && 0.0 < y) || (x < 0.0 && y < 0.0)
    ensures x / y == 0.0 <==> x == 0.0
  {
    assert x == (x / y) * y;
  }

  /** A fraction of magnitude below one, times a quantity, stays strictly
      inside that quantity's magnitude, with the sign of the product. */
  lemma FractionScales(f: real, m: real)
    requires -1.0 < f < 1.0 && m != 0.0
    ensures 0.0 <= f && 0.0 < m ==> 0.0 <= f * m < m
    ensures 0.0 <= f && m < 0.0 ==> m < f * m <= 0.0
    ensures f <= 0.0 && 0.0 < m ==> -m < f * m <= 0.0
    ensures f <= 0.0 && m < 0.0 ==> 0.0 <= f * m < -m
  {
    if f < 0.0 {
      assert f * m == -((-f) * m);
    }
  }

  /** Prefix negation: no tag guard, so a boolean negates to -0 or -1. */
  function Negate(x: Number): (r: Number)
    ensures IsNumberType(r)
  {
    Numeric(-DoubleValue(x))
  }

  /** (a + b) - b == a, and (a * b) / b == a for a non-zero b. */
  lemma ArithmeticRoundTrips(a: Number, b: Number)
    requires IsNumberType(a) && IsNumberType(b)
    ensures Subtract(Add(a, b), b) == a
    ensures NotEqual(b, Zero) ==> Divide(Multiply(a, b), b) == a
  {
    if NotEqual(b, Zero) {
      var x, y := DoubleValue(a), DoubleValue(b);
      assert (x * y) / y == x;
    }
  }

  /** Subtraction is addition of the negation; negation is an involution on
      values. */
  lemma NegationLaws(a: Number, b: Number)
    ensures IsNumberType(a) && IsNumberType(b) ==> Subtract(a, b) == Add(a, Negate(b))
    ensures DoubleValue(Negate(Negate(a))) == DoubleValue(a)
    ensures IsNumberType(a) ==> Negate(Negate(a)) == a
  {
  }

  // ---------------------------------------------------------------------------
  // Compound assignment
  // ---------------------------------------------------------------------------

  /** The five binary arithmetic operators. */
  datatype Operator = Plus | Minus | Times | DividedBy | Modulo

  /** The guard each operator asserts: both operands numeric-tagged, and a
      non-zero divisor for division (and, in this model, for the remainder). */
  predicate Defined(op: Operator, left: Number, right: Number)
  {
    IsNumberType(left) && IsNumberType(right) &&
    ((op == DividedBy || op == Modulo) ==> NotEqual(right, Zero))
  }

  function Apply(op: Operator, left: Number, right: Number): (r: Number)
    requires Defined(op, left, right)
    ensures IsNumberType(r)
  {
    match op
    case Plus => Add(left, right)
    case Minus => Subtract(left, right)
    case Times => Multiply(left, right)
    case DividedBy => Divide(left, right)
    case Modulo => Remainder(left, right)
  }

  /** `left op= right`: rebinds the target to `left op right`. */
  method CompoundAssign(left: Number, op: Operator, right: Number) returns (updated: Number)
    requires Defined(op, left, right)
    ensures updated == Apply(op, left, right)
    ensures IsNumberType(updated)
  {
    updated := Apply(op, left, right);
  }

  // ---------------------------------------------------------------------------
  // Increment and decrement
  // ---------------------------------------------------------------------------

  /** The value postfix ++ stores: one more than the number, freshly boxed. */
  function Incremented(x: Number): (r: Number)
    ensures IsNumberType(r)
  {
    Numeric(DoubleValue(x) + 1.0)
  }

  /** The value postfix -- stores: one less than the number, freshly boxed. */
  function Decremented(x: Number): (r: Number)
    ensures IsNumberType(r)
  {
    Numeric(DoubleValue(x) - 1.0)
  }

  /** `number++`: rebinds the number to its successor and returns the new value. */
  method PostIncrement(number: Number) returns (updated: Number, result: Number)
    ensures updated == Incremented(number)
    ensures result == updated
  {
    updated := Incremented(number);
    result := updated;
  }

  /** `number--`: rebinds the number to its predecessor and returns the new value. */
  method PostDecrement(number: Number) returns (updated: Number, result: Number)
    ensures updated == Decremented(number)
    ensures result == updated
  {
    updated := Decremented(number);
    result := updated;
  }

  /** ++ and -- agree with adding and subtracting one, and undo each other. */
  lemma IncrementLaws(x: Number)
    ensures IsNumberType(x) ==> Incremented(x) == Add(x, One)
    ensures IsNumberType(x) ==> Decremented(x) == Subtract(x, One)
    ensures DoubleValue(Decremented(Incremented(x))) == DoubleValue(x)
    ensures IsNumberType(x) ==> Incremented(Decremented(x)) == x
  {
  }

  // ---------------------------------------------------------------------------
  // Instance helpers
  // ---------------------------------------------------------------------------

  /** `self * self`, for a numeric-tagged number: never negative. */
  function SquarePower(x: Number): (r: Number)
    requires IsNumberType(x)
    ensures IsNumberType(r)
    ensures 0.0 <= DoubleValue(r)
  {
    SquareNonNegative(DoubleValue(x));
    Multiply(x, x)
  }

  lemma SquareNonNegative(v: real)
    ensures 0.0 <= v * v
  {
    if v < 0.0 {
      assert v * v == (-v) * (-v);
    }
  }

  /** The larger of the two values, freshly boxed. */
  function Maximum(self: Number, number: Number): (r: Number)
    ensures IsNumberType(r)
    ensures DoubleValue(self) <= DoubleValue(r) && DoubleValue(number) <= DoubleValue(r)
    ensures DoubleValue(r) == DoubleValue(self) || DoubleValue(r) == DoubleValue(number)
  {
    Numeric(MaxReal(DoubleValue(number), DoubleValue(self)))
  }

  /** The smaller of the two values, freshly boxed. */
  function Minimum(self: Number, number: Number): (r: Number)
    ensures IsNumberType(r)
    ensures DoubleValue(r) <= DoubleValue(self) && DoubleValue(r) <= DoubleValue(number)
    ensures DoubleValue(r) == DoubleValue(self) || DoubleValue(r) == DoubleValue(number)
  {
    Numeric(MinReal(DoubleValue(number), DoubleValue(self)))
  }

  /** The clamp of `self` into [minimum, maximum]; the bounds must be strictly
      ordered. */
  function LimitOf(self: Number, minimum: Number, maximum: Number): (r: Number)
    requires Less(minimum, maximum)
    ensures IsNumberType(r)
    ensures DoubleValue(minimum) <= DoubleValue(r) <= DoubleValue(maximum)
    ensures DoubleValue(minimum) <= DoubleValue(self) <= DoubleValue(maximum) ==>
              DoubleValue(r) == DoubleValue(self)
    ensures DoubleValue(self) < DoubleValue(minimum) ==> DoubleValue(r) == DoubleValue(minimum)
    ensures DoubleValue(maximum) < DoubleValue(self) ==> DoubleValue(r) == DoubleValue(maximum)
  {
    Numeric(MinReal(MaxReal(DoubleValue(minimum), DoubleValue(self)), DoubleValue(maximum)))
  }

  /** `self.limit(minimum:maximum:)`: raise the value to the lower bound, then
      lower it to the upper bound. */
  method Limit(self: Number, minimum: Number, maximum: Number) returns (r: Number)
    requires Less(minimum, maximum)
    ensures r == LimitOf(self, minimum, maximum)
  {
    var value := MaxReal(DoubleValue(minimum), DoubleValue(self));
    value := MinReal(value, DoubleValue(maximum));
    r := Numeric(value);
  }

  /** Clamping twice is clamping once, and a number already in range only
      loses its tag. */
  lemma LimitIdempotent(x: Number, minimum: Number, maximum: Number)
    requires Less(minimum, maximum)
    ensures LimitOf(LimitOf(x, minimum, maximum), minimum, maximum) == LimitOf(x, minimum, maximum)
    ensures LessOrEqual(minimum, x) && LessOrEqual(x, maximum) ==>
              LimitOf(x, minimum, maximum) == Numeric(DoubleValue(x))
  {
  }
}
