/** Array forms of the scalar operators: element-wise rewriting of an array,
    and all-reduction of a comparison over an array. Arrays are values, so
    each operation rewrites its own copy. */
module Batch {
  import opened Numbers

  // ---------------------------------------------------------------------------
  // The two private utilities every array operator is built on
  // ---------------------------------------------------------------------------

  /** Rewrites a copy of the array slot by slot with `block`. */
  method BatchModifyNumbers(numbers: seq<Number>, block: Number --> Number) returns (result: seq<Number>)
    requires forall i :: 0 <= i < |numbers| ==> block.requires(numbers[i])
    ensures |result| == |numbers|
    ensures forall i :: 0 <= i < |numbers| ==> result[i] == block(numbers[i])
  {
    result := numbers;
    var i := 0;
    while i < |result|
      invariant |result| == |numbers| && 0 <= i <= |result|
      invariant forall j :: 0 <= j < i ==> result[j] == block(numbers[j])
      invariant forall j :: i <= j < |result| ==> result[j] == numbers[j]
    {
      result := result[i := block(result[i])];
      i := i + 1;
    }
  }

  /** True when every element satisfies `block`; stops at the first that does not. */
  method BatchCompareNumbers(numbers: seq<Number>, block: Number -> bool) returns (all: bool)
    ensures all <==> forall i :: 0 <= i < |numbers| ==> block(numbers[i])
  {
    for i := 0 to |numbers|
      invariant forall j :: 0 <= j < i ==> block(numbers[j])
    {
      if !block(numbers[i]) {
        return false;
      }
    }
    return true;
  }

  // ---------------------------------------------------------------------------
  // Arithmetic on arrays
  // ---------------------------------------------------------------------------

  /** `left op right` for an array and a number: element i of the result is
      `left[i] op right`. The operator's guard is checked per element, so an
      empty array is accepted whatever the right operand. */
  method BatchArithmetic(left: seq<Number>, op: Operator, right: Number) returns (result: seq<Number>)
    requires forall i :: 0 <= i < |left| ==> Defined(op, left[i], right)
    ensures |result| == |left|
    ensures forall i :: 0 <= i < |left| ==> result[i] == Apply(op, left[i], right)
  {
    result := BatchModifyNumbers(left, x requires Defined(op, x, right) => Apply(op, x, right));
  }

  /** `left op= right` for an array: rebinds the array to `left op right`. */
  method BatchCompoundAssign(left: seq<Number>, op: Operator, right: Number) returns (updated: seq<Number>)
    requires forall i :: 0 <= i < |left| ==> Defined(op, left[i], right)
    ensures |updated| == |left|
    ensures forall i :: 0 <= i < |left| ==> updated[i] == Apply(op, left[i], right)
  {
    updated := BatchArithmetic(left, op, right);
  }

  /** Adding and then subtracting the same number gives back a numeric array. */
  method BatchAddSubtractRoundTrip(numbers: seq<Number>, k: Number) returns (result: seq<Number>)
    requires AllNumeric(numbers) && IsNumberType(k)
    ensures result == numbers
  {
    var added := BatchArithmetic(numbers, Plus, k);
    result := BatchArithmetic(added, Minus, k);
    forall i | 0 <= i < |numbers|
      ensures result[i] == numbers[i]
    {
      ArithmeticRoundTrips(numbers[i], k);
    }
  }

  /** Prefix - on an array: every element negated. */
  method BatchNegate(numbers: seq<Number>) returns (result: seq<Number>)
    ensures |result| == |numbers|
    ensures forall i :: 0 <= i < |numbers| ==> result[i] == Negate(numbers[i])
  {
    result := BatchModifyNumbers(numbers, x => Negate(x));
  }

  /** `numbers++`: rebinds the array to its element-wise successors and returns
      the new array. */
  method BatchPostIncrement(numbers: seq<Number>) returns (updated: seq<Number>, result: seq<Number>)
    ensures |updated| == |numbers|
    ensures forall i :: 0 <= i < |numbers| ==> updated[i] == Incremented(numbers[i])
    ensures result == updated
  {
    updated := BatchModifyNumbers(numbers, x => Incremented(x));
    result := updated;
  }

  /** `numbers--`: rebinds the array to its element-wise predecessors and
      returns the new array. */
  method BatchPostDecrement(numbers: seq<Number>) returns (updated: seq<Number>, result: seq<Number>)
    ensures |updated| == |numbers|
    ensures forall i :: 0 <= i < |numbers| ==> updated[i] == Decremented(numbers[i])
    ensures result == updated
  {
    updated := BatchModifyNumbers(numbers, x => Decremented(x));
    result := updated;
  }

  /** The class form of squarePower: every element squared. */
  method BatchSquarePower(numbers: seq<Number>) returns (result: seq<Number>)
    requires AllNumeric(numbers)
    ensures |result| == |numbers|
    ensures forall i :: 0 <= i < |numbers| ==> result[i] == SquarePower(numbers[i])
    ensures forall i :: 0 <= i < |numbers| ==> 0.0 <= DoubleValue(result[i])
  {
    result := BatchModifyNumbers(numbers, x requires IsNumberType(x) => SquarePower(x));
  }

  /** The class form of limit: every element clamped into [minimum, maximum].
      The bounds are checked per element, so an empty array is accepted with
      any bounds. */
  method BatchLimit(numbers: seq<Number>, minimum: Number, maximum: Number) returns (result: seq<Number>)
    requires |numbers| > 0 ==> Less(minimum, maximum)
    ensures |result| == |numbers|
    ensures forall i :: 0 <= i < |numbers| ==> result[i] == LimitOf(numbers[i], minimum, maximum)
    ensures forall i :: 0 <= i < |numbers| ==>
              DoubleValue(minimum) <= DoubleValue(result[i]) <= DoubleValue(maximum)
  {
    result := BatchModifyNumbers(numbers, x requires Less(minimum, maximum) => LimitOf(x, minimum, maximum));
  }

  // ---------------------------------------------------------------------------
  // The type guard on arrays
  // ---------------------------------------------------------------------------

  /** Every element carries a numeric tag. */
  predicate AllNumeric(numbers: seq<Number>)
  {
    forall i :: 0 <= i < |numbers| ==> IsNumberType(numbers[i])
  }

  /** The class form of isNumberType: stops at the first boolean-tagged element. */
  method AreNumberTypes(numbers: seq<Number>) returns (all: bool)
    ensures all == AllNumeric(numbers)
    ensures !all ==> exists i :: 0 <= i < |numbers| && numbers[i].Boolean?
  {
    for i := 0 to |numbers|
      invariant forall j :: 0 <= j < i ==> IsNumberType(numbers[j])
    {
      if !IsNumberType(numbers[i]) {
        return false;
      }
    }
    return true;
  }

  // ---------------------------------------------------------------------------
  // Comparisons of an array against a number
  // ---------------------------------------------------------------------------

  /** The six comparison operators. */
  datatype Relation = LessThan | GreaterThan | AtMost | AtLeast | EqualTo | NotEqualTo

  predicate Holds(rel: Relation, left: Number, right: Number)
  {
    match rel
    case LessThan => Less(left, right)
    case GreaterThan => Greater(left, right)
    case AtMost => LessOrEqual(left, right)
    case AtLeast => GreaterOrEqual(left, right)
    case EqualTo => Equal(left, right)
    case NotEqualTo => NotEqual(left, right)
  }

  /** Every element stands in the relation to the number. */
  predicate AllHold(numbers: seq<Number>, rel: Relation, right: Number)
  {
    forall i :: 0 <= i < |numbers| ==> Holds(rel, numbers[i], right)
  }

  /** `left rel right` for an array and a number. */
  method BatchCompare(left: seq<Number>, rel: Relation, right: Number) returns (all: bool)
    ensures all == AllHold(left, rel, right)
  {
    all := BatchCompareNumbers(left, x => Holds(rel, x, right));
  }

  /** Every comparison of the empty array is true. */
  lemma EmptyArrayComparesTrue(rel: Relation, right: Number)
    ensures AllHold([], rel, right)
  {
  }

  /** On a non-empty array the array == and != cannot both be true, but they
      can both be false: != means "every element differs", not "not ==". */
  lemma ArrayNotEqualIsNotNegation(numbers: seq<Number>, right: Number)
    requires |numbers| > 0
    ensures !(AllHold(numbers, EqualTo, right) && AllHold(numbers, NotEqualTo, right))
    ensures !AllHold(numbers, EqualTo, right) && !AllHold(numbers, NotEqualTo, right) <==>
              (exists i :: 0 <= i < |numbers| && Equal(numbers[i], right)) &&
              (exists j :: 0 <= j < |numbers| && NotEqual(numbers[j], right))
  {
    assert Holds(EqualTo, numbers[0], right) || Holds(NotEqualTo, numbers[0], right);
  }

  /** The strict array comparisons imply the non-strict ones, and array ==
      implies both array <= and array >=. */
  lemma ArrayComparisonsWeaken(numbers: seq<Number>, right: Number)
    ensures AllHold(numbers, LessThan, right) ==> AllHold(numbers, AtMost, right)
    ensures AllHold(numbers, GreaterThan, right) ==> AllHold(numbers, AtLeast, right)
    ensures AllHold(numbers, EqualTo, right) ==>
              AllHold(numbers, AtMost, right) && AllHold(numbers, AtLeast, right)
  {
  }
}
