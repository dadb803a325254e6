/** The aggregate class functions: sum, average, maximum and minimum of an
    array, each a loop over the array that updates a running value. */
module Statistics {
  import opened Numbers
  import opened Batch

  /** The largest finite double, 1.7976931348623157e308, exactly. */
  const DblMax: real := 179769313486231570814527423731704356798070567525844996598917476803157260780028538760589558632766878171540458953514382464234321326889464182768467546703537516986049910576551282076245490090389328944075868508455133942304583236903222948165808559332123348274797826204144723168738177180919299881250404026184124858368.0

  // ---------------------------------------------------------------------------
  // Sum and average
  // ---------------------------------------------------------------------------

  /** The left-to-right sum of the values, starting from 0. */
  function SumOf(numbers: seq<Number>): real
  {
    if numbers == [] then 0.0
    else SumOf(numbers[..|numbers| - 1]) + DoubleValue(numbers[|numbers| - 1])
  }

  /** `sum`: a running total, seeded with 0, to which each element is added. */
  method Sum(numbers: seq<Number>) returns (total: Number)
    requires AllNumeric(numbers)
    ensures total == Numeric(SumOf(numbers))
  {
    total := Zero;
    for i := 0 to |numbers|
      invariant total == Numeric(SumOf(numbers[..i]))
    {
      assert numbers[..i + 1][..i] == numbers[..i];
      total := CompoundAssign(total, Plus, numbers[i]);
    }
    assert numbers[..|numbers|] == numbers;
  }

  /** Appending one element adds its value to the sum. */
  lemma SumAppend(numbers: seq<Number>, x: Number)
    ensures SumOf(numbers + [x]) == SumOf(numbers) + DoubleValue(x)
  {
    assert (numbers + [x])[..|numbers|] == numbers;
  }

  /** The sum of a concatenation is the sum of the parts. */
  lemma {:induction false} SumConcat(a: seq<Number>, b: seq<Number>)
    ensures SumOf(a + b) == SumOf(a) + SumOf(b)
    decreases |b|
  {
    if b == [] {
      assert a + b == a;
    } else {
      var init, last := b[..|b| - 1], b[|b| - 1];
      assert a + b == (a + init) + [last];
      assert b == init + [last];
      SumAppend(a + init, last);
      SumAppend(init, last);
      SumConcat(a, init);
    }
  }

  /** The sum does not depend on the order of the elements. */
  lemma {:induction false} SumPermutation(a: seq<Number>, b: seq<Number>)
    requires multiset(a) == multiset(b)
    ensures SumOf(a) == SumOf(b)
    decreases |a|
  {
    if a == [] {
      assert |b| == |multiset(b)| == 0;
    } else {
      var init, last := a[..|a| - 1], a[|a| - 1];
      assert a == init + [last];
      assert last in multiset(b);
      var j :| 0 <= j < |b| && b[j] == last;
      var rest := b[..j] + b[j + 1..];
      assert b == b[..j] + [last] + b[j + 1..];
      assert multiset(init) == multiset(rest) by {
        assert multiset(a) == multiset(init) + multiset{last};
        assert multiset(b) == multiset(b[..j]) + multiset{last} + multiset(b[j + 1..]);
        assert multiset(rest) == multiset(b[..j]) + multiset(b[j + 1..]);
        assert multiset(b) == multiset(rest) + multiset{last};
        assert multiset(init) == multiset(a) - multiset{last};
        assert multiset(rest) == multiset(b) - multiset{last};
      }
      SumPermutation(init, rest);
      SumConcat(b[..j] + [last], b[j + 1..]);
      SumConcat(b[..j], b[j + 1..]);
      SumAppend(b[..j], last);
    }
  }

  /** If every value lies in [lo, hi], the sum lies between |s|*lo and |s|*hi. */
  lemma {:induction false} SumBounds(numbers: seq<Number>, lo: real, hi: real)
    requires forall i :: 0 <= i < |numbers| ==> lo <= DoubleValue(numbers[i]) <= hi
    ensures (|numbers| as real) * lo <= SumOf(numbers) <= (|numbers| as real) * hi
  {
    if numbers != [] {
      var n := |numbers|;
      var init := numbers[..n - 1];
      SumBounds(init, lo, hi);
      assert (n as real) * lo == ((n - 1) as real) * lo + lo;
      assert (n as real) * hi == ((n - 1) as real) * hi + hi;
    }
  }

  /** `average`: the sum divided by the count; the model requires a non-empty
      array, where the source divides 0 by 0. */
  method Average(numbers: seq<Number>) returns (r: Number)
    requires AllNumeric(numbers)
    requires |numbers| > 0
    ensures r == Numeric(SumOf(numbers) / (|numbers| as real))
  {
    var total := Sum(numbers);
    r := Numeric(DoubleValue(total) / (|numbers| as real));
  }

  /** The average of values in [lo, hi] lies in [lo, hi]. */
  lemma AverageWithinBounds(numbers: seq<Number>, lo: real, hi: real)
    requires |numbers| > 0
    requires forall i :: 0 <= i < |numbers| ==> lo <= DoubleValue(numbers[i]) <= hi
    ensures lo <= SumOf(numbers) / (|numbers| as real) <= hi
  {
    SumBounds(numbers, lo, hi);
    QuotientBounds(SumOf(numbers), |numbers| as real, lo, hi);
  }

  lemma QuotientBounds(total: real, n: real, lo: real, hi: real)
    requires 0.0 < n
    requires n * lo <= total <= n * hi
    ensures lo <= total / n <= hi
  {
    assert total == (total / n) * n;
  }

  // ---------------------------------------------------------------------------
  // Maximum and minimum
  // ---------------------------------------------------------------------------

  /** The fold behind `maximum`: the running maximum, seeded with 0. */
  function MaxFold(numbers: seq<Number>): real
  {
    if numbers == [] then 0.0
    else MaxReal(DoubleValue(numbers[|numbers| - 1]), MaxFold(numbers[..|numbers| - 1]))
  }

  /** The fold behind `minimum`: the running minimum, seeded with DBL_MAX. */
  function MinFold(numbers: seq<Number>): real
  {
    if numbers == [] then DblMax
    else MinReal(DoubleValue(numbers[|numbers| - 1]), MinFold(numbers[..|numbers| - 1]))
  }

  /** The seeded maximum is at least 0 and at least every value, and is the
      seed 0 or one of the values. */
  lemma {:induction false} MaxFoldBounds(numbers: seq<Number>)
    ensures 0.0 <= MaxFold(numbers)
    ensures forall i :: 0 <= i < |numbers| ==> DoubleValue(numbers[i]) <= MaxFold(numbers)
    ensures MaxFold(numbers) == 0.0 ||
            exists i :: 0 <= i < |numbers| && DoubleValue(numbers[i]) == MaxFold(numbers)
  {
    if numbers != [] {
      var n := |numbers|;
      var init := numbers[..n - 1];
      MaxFoldBounds(init);
      assert forall i :: 0 <= i < n - 1 ==> numbers[i] == init[i];
      if MaxFold(numbers) != DoubleValue(numbers[n - 1]) && MaxFold(numbers) != 0.0 {
        var i :| 0 <= i < |init| && DoubleValue(init[i]) == MaxFold(init);
        assert DoubleValue(numbers[i]) == MaxFold(numbers);
      }
    }
  }

  /** The seeded minimum is at most DBL_MAX and at most every value, and is the
      seed DBL_MAX or one of the values. */
  lemma {:induction false} MinFoldBounds(numbers: seq<Number>)
    ensures MinFold(numbers) <= DblMax
    ensures forall i :: 0 <= i < |numbers| ==> MinFold(numbers) <= DoubleValue(numbers[i])
    ensures MinFold(numbers) == DblMax ||
            exists i :: 0 <= i < |numbers| && DoubleValue(numbers[i]) == MinFold(numbers)
  {
    if numbers != [] {
      var n := |numbers|;
      var init := numbers[..n - 1];
      MinFoldBounds(init);
      assert forall i :: 0 <= i < n - 1 ==> numbers[i] == init[i];
      if MinFold(numbers) != DoubleValue(numbers[n - 1]) && MinFold(numbers) != DblMax {
        var i :| 0 <= i < |init| && DoubleValue(init[i]) == MinFold(init);
        assert DoubleValue(numbers[i]) == MinFold(numbers);
      }
    }
  }

  /** `maximum`: a running maximum, seeded with 0, replaced by the instance
      maximum of itself and each element. */
  method Maximum(numbers: seq<Number>) returns (maximum: Number)
    ensures maximum == Numeric(MaxFold(numbers))
    ensures 0.0 <= DoubleValue(maximum)
    ensures forall i :: 0 <= i < |numbers| ==> DoubleValue(numbers[i]) <= DoubleValue(maximum)
    ensures DoubleValue(maximum) == 0.0 ||
            exists i :: 0 <= i < |numbers| && DoubleValue(numbers[i]) == DoubleValue(maximum)
  {
    maximum := Zero;
    for i := 0 to |numbers|
      invariant maximum == Numeric(MaxFold(numbers[..i]))
    {
      assert numbers[..i + 1][..i] == numbers[..i];
      maximum := Numbers.Maximum(maximum, numbers[i]);
    }
    assert numbers[..|numbers|] == numbers;
    MaxFoldBounds(numbers);
  }

  /** `minimum`: a running minimum, seeded with DBL_MAX, replaced by the
      instance minimum of itself and each element. */
  method Minimum(numbers: seq<Number>) returns (minimum: Number)
    ensures minimum == Numeric(MinFold(numbers))
    ensures DoubleValue(minimum) <= DblMax
    ensures forall i :: 0 <= i < |numbers| ==> DoubleValue(minimum) <= DoubleValue(numbers[i])
    ensures DoubleValue(minimum) == DblMax ||
            exists i :: 0 <= i < |numbers| && DoubleValue(numbers[i]) == DoubleValue(minimum)
  {
    minimum := Numeric(DblMax);
    for i := 0 to |numbers|
      invariant minimum == Numeric(MinFold(numbers[..i]))
    {
      assert numbers[..i + 1][..i] == numbers[..i];
      minimum := Numbers.Minimum(minimum, numbers[i]);
    }
    assert numbers[..|numbers|] == numbers;
    MinFoldBounds(numbers);
  }

  // ---------------------------------------------------------------------------
  // The zero seed of `maximum`
  // ---------------------------------------------------------------------------

  /** The largest value of a non-empty array: the fold seeded with the first
      element, as a maximum is evidently meant to be. */
  function MaxElement(numbers: seq<Number>): real
    requires |numbers| > 0
  {
    if |numbers| == 1 then DoubleValue(numbers[0])
    else MaxReal(DoubleValue(numbers[|numbers| - 1]), MaxElement(numbers[..|numbers| - 1]))
  }

  /** The largest value is at least every value and is one of them. */
  lemma {:induction false} MaxElementIsGreatest(numbers: seq<Number>)
    requires |numbers| > 0
    ensures forall i :: 0 <= i < |numbers| ==> DoubleValue(numbers[i]) <= MaxElement(numbers)
    ensures exists i :: 0 <= i < |numbers| && DoubleValue(numbers[i]) == MaxElement(numbers)
  {
    var n := |numbers|;
    if n == 1 {
      assert DoubleValue(numbers[0]) == MaxElement(numbers);
    } else {
      var init := numbers[..n - 1];
      MaxElementIsGreatest(init);
      assert forall i :: 0 <= i < n - 1 ==> numbers[i] == init[i];
      if MaxElement(numbers) != DoubleValue(numbers[n - 1]) {
        var i :| 0 <= i < |init| && DoubleValue(init[i]) == MaxElement(init);
        assert DoubleValue(numbers[i]) == MaxElement(numbers);
      }
    }
  }

  /** The corrected maximum: a running maximum seeded with the first element. */
  method MaximumOfElements(numbers: seq<Number>) returns (maximum: Number)
    requires |numbers| > 0
    ensures DoubleValue(maximum) == MaxElement(numbers)
    ensures forall i :: 0 <= i < |numbers| ==> DoubleValue(numbers[i]) <= DoubleValue(maximum)
    ensures exists i :: 0 <= i < |numbers| && DoubleValue(numbers[i]) == DoubleValue(maximum)
  {
    maximum := numbers[0];
    for i := 1 to |numbers|
      invariant DoubleValue(maximum) == MaxElement(numbers[..i])
    {
      assert numbers[..i + 1][..i] == numbers[..i];
      maximum := Numbers.Maximum(maximum, numbers[i]);
    }
    assert numbers[..|numbers|] == numbers;
    MaxElementIsGreatest(numbers);
  }

  /** The zero-seeded maximum is the largest value raised to at least 0. */
  lemma {:induction false} MaxFoldIsClampedMaxElement(numbers: seq<Number>)
    requires |numbers| > 0
    ensures MaxFold(numbers) == MaxReal(0.0, MaxElement(numbers))
  {
    var n := |numbers|;
    if n == 1 {
      assert numbers[..0] == [];
    } else {
      MaxFoldIsClampedMaxElement(numbers[..n - 1]);
    }
  }

  /** On an array whose values are all negative, the zero-seeded maximum is 0,
      which is none of the values and exceeds the largest of them. */
  lemma MaximumOfNegativesIsZero(numbers: seq<Number>)
    requires |numbers| > 0
    requires forall i :: 0 <= i < |numbers| ==> DoubleValue(numbers[i]) < 0.0
    ensures MaxFold(numbers) == 0.0
    ensures MaxElement(numbers) < MaxFold(numbers)
    ensures forall i :: 0 <= i < |numbers| ==> DoubleValue(numbers[i]) != MaxFold(numbers)
  {
    MaxElementIsGreatest(numbers);
    MaxFoldIsClampedMaxElement(numbers);
  }

  /** Array <= holds exactly when the largest value is at most the number. */
  lemma ArrayAtMostIsMaxElementBound(numbers: seq<Number>, right: Number)
    requires |numbers| > 0
    ensures AllHold(numbers, AtMost, right) <==> MaxElement(numbers) <= DoubleValue(right)
  {
    MaxElementIsGreatest(numbers);
  }
}
