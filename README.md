# EPICNumbers: NSNumber operators and helpers, modelled in Dafny

EPICNumbers adds arithmetic, comparison and statistics operators to Foundation's
boxed number, `NSNumber`, and to arrays of it. This project models that library
and proves the properties it depends on. Every arithmetic operator reads its
operands through `doubleValue`, computes, and boxes the result as a fresh
double. The comparison operators return a `Bool` and box nothing. Every
array operator works in one of two ways. Either it rewrites a copy of the array
slot by slot (`batchModifyNumbers`), or it checks every element and stops at the
first one that fails (`batchCompareNumbers`).

The model is split into four modules:

- `Numbers` (`numbers.dfy`) covers the scalar side.
  - A number is `Boolean(b) | Numeric(v: real)`. `DoubleValue` reads a boolean as 0 or 1.
  - `IsNumberType` is the type-tag guard.
  - The three-way `Compare` and the six comparisons built on it.
  - The five arithmetic operators, prefix `-`, postfix `++`/`--` and compound assignment.
  - The instance helpers `squarePower`, `maximum`, `minimum` and `limit`.
- `Batch` (`batch.dfy`) covers arrays.
  - `BatchModifyNumbers` and `BatchCompareNumbers` are loops over a local copy of the array. Swift arrays are values, so the copy is a `seq`.
  - Every array operator is built on one of these two loops.
  - Also here: the array form of `isNumberType`.
- `Statistics` (`statistics.dfy`) covers `sum`, `average`, `maximum` and `minimum` of an array.
  - `sum`, `maximum` and `minimum` are loops that update a running value. Each loop is proved against a recursive fold: `SumOf`, `MaxFold` or `MinFold`.
  - `average` is not a loop. It calls `sum` and divides by the count.
- `Examples` (`examples.dfy`) restates, as facts about the model, the expected values of every test of a modelled operation. The tests of `squareRoot`, `powerOf` and `rootOf` are left out with those operations.

Modelling choices:

- Arithmetic is exact `real` arithmetic. The `assert`s in the source are `requires` clauses. Two guards are modelled this way:
  - the numeric-tag guard on `+ - * / %`, `squarePower`, and so on;
  - the non-zero divisor guard, and limit's strict `minimum < maximum`.
- An array operator checks its block's guard once per element. So the model only demands the guard of the elements that are actually present. An empty array divided by zero is accepted, as in the source.
- `%` is C's `fmod`. Its result is exact: the dividend minus the divisor times the truncated quotient. The model computes exactly that.
- Equality on `NSNumber` is not in this source file. It is Foundation's `isEqual:`, which compares values, and `Equal` models it as "`Compare` gives `OrderedSame`". So `Boolean(true)` equals `Numeric(1.0)`.
- The `limit` precondition is the strict `minimum < maximum` asserted at line 283.
- `maximum` starts from 0 (line 228) and `minimum` from `DBL_MAX` (line 236). `DblMax` is that double's exact value.

## Model

| member | source | states |
|---|---|---|
| `Numbers.IsNumberType` | Project/Extensions/NSNumbers+Extensions.swift:267-269 | The tag guard is true exactly for a number not boxed from a boolean. An accepted number is the numeric box of its double value, and a refused one is the boolean box of its double value. |
| `Numbers.Compare` | Project/Extensions/NSNumbers+Extensions.swift:136-152 | The three-way comparison is ascending, same or descending exactly as the first value is below, equal to or above the second. |
| `Numbers.Less` | Project/Extensions/NSNumbers+Extensions.swift:136-138 | `<` holds exactly when the left value is below the right one. Booleans count as 0/1. |
| `Numbers.Greater` | Project/Extensions/NSNumbers+Extensions.swift:140-142 | `>` holds exactly when the right value is below the left one. |
| `Numbers.LessOrEqual` | Project/Extensions/NSNumbers+Extensions.swift:144-147 | `<=`, computed as "ascending or same", holds exactly when the left value is at most the right one. |
| `Numbers.GreaterOrEqual` | Project/Extensions/NSNumbers+Extensions.swift:149-152 | `>=`, computed as "descending or same", holds exactly when the left value is at least the right one. |
| `Numbers.Equal` | Project/Extensions/NSNumbers+Extensions.swift:179-183 | Number equality, as the array `==` uses it, compares values whatever the tags. |
| `Numbers.NotEqual` | Project/Extensions/NSNumbers+Extensions.swift:185-189 | Number inequality, as the array `!=` and the divisor guard use it, holds exactly when the values differ. |
| `Numbers.Trichotomy` | Project/Extensions/NSNumbers+Extensions.swift:136-152 | Exactly one of `a < b`, `a == b` and `a > b` holds. |
| `Numbers.NonStrictSplits` | Project/Extensions/NSNumbers+Extensions.swift:144-152 | `<=` is `<` or `==`. `>=` is `>` or `==`. `!=` is `<` or `>`. |
| `Numbers.GreaterIsConverse` | Project/Extensions/NSNumbers+Extensions.swift:136-152 | `a > b` iff `b < a`, and `a >= b` iff `b <= a`. |
| `Numbers.LessIsStrictOrder` | Project/Extensions/NSNumbers+Extensions.swift:136-138 | `<` is irreflexive and transitive. |
| `Numbers.BooleansCompareAsBits` | Tests/NSNumberExtensionsTests.swift:142-166 | `false < true`. `true` equals the number 1 and `false` equals 0, although they are different boxed values. |
| `Numbers.Add` | Project/Extensions/NSNumbers+Extensions.swift:12-15 | `+` requires both operands numeric-tagged and yields a numeric-tagged number. |
| `Numbers.Subtract` | Project/Extensions/NSNumbers+Extensions.swift:17-20 | `-` requires both operands numeric-tagged and yields a numeric-tagged number. |
| `Numbers.Divide` | Project/Extensions/NSNumbers+Extensions.swift:22-26 | `/` requires both operands numeric-tagged and a divisor that is not equal to 0. |
| `Numbers.Multiply` | Project/Extensions/NSNumbers+Extensions.swift:28-31 | `*` requires both operands numeric-tagged and yields a numeric-tagged number. |
| `Numbers.Remainder` | Project/Extensions/NSNumbers+Extensions.swift:33-36 | `%` requires both operands numeric-tagged and yields a numeric-tagged number. |
| `Numbers.RemainderBounds` | Project/Extensions/NSNumbers+Extensions.swift:33-36 | The remainder is the dividend minus a whole multiple of the divisor. It is smaller than the divisor in magnitude and has the dividend's sign. |
| `Numbers.ArithmeticRoundTrips` | Project/Extensions/NSNumbers+Extensions.swift:12-31 | `(a + b) - b == a`, and `(a * b) / b == a` for a divisor other than 0. |
| `Numbers.Negate` | Project/Extensions/NSNumbers+Extensions.swift:59-61 | Prefix `-` has no tag guard and always yields a numeric-tagged number, even from a boolean. |
| `Numbers.NegationLaws` | Project/Extensions/NSNumbers+Extensions.swift:59-61 | `a - b == a + (-b)`. Negating twice restores the value, and restores a numeric-tagged number exactly. |
| `Numbers.Apply` | Project/Extensions/NSNumbers+Extensions.swift:12-36 | Each of the five operators, under its guard, yields a numeric-tagged number. |
| `Numbers.CompoundAssign` | Project/Extensions/NSNumbers+Extensions.swift:39-57 | `x op= y` rebinds `x` to `x op y`, which is a numeric-tagged number. |
| `Numbers.Incremented` | Project/Extensions/NSNumbers+Extensions.swift:63-66 | The successor that `++` stores is a numeric-tagged number, with no tag guard. |
| `Numbers.Decremented` | Project/Extensions/NSNumbers+Extensions.swift:68-71 | The predecessor that `--` stores is a numeric-tagged number, with no tag guard. |
| `Numbers.PostIncrement` | Project/Extensions/NSNumbers+Extensions.swift:63-66 | `x++` rebinds `x` to its successor and returns that new value. |
| `Numbers.PostDecrement` | Project/Extensions/NSNumbers+Extensions.swift:68-71 | `x--` rebinds `x` to its predecessor and returns that new value. |
| `Numbers.IncrementLaws` | Project/Extensions/NSNumbers+Extensions.swift:63-71 | `++` is `+ 1` and `--` is `- 1` on numeric-tagged numbers. Each undoes the other. |
| `Numbers.SquarePower` | Project/Extensions/NSNumbers+Extensions.swift:256-259 | `squarePower` requires a numeric-tagged number and is never negative. |
| `Numbers.Maximum` | Project/Extensions/NSNumbers+Extensions.swift:272-275 | The instance `maximum` is at least both values and equals one of them. |
| `Numbers.Minimum` | Project/Extensions/NSNumbers+Extensions.swift:277-280 | The instance `minimum` is at most both values and equals one of them. |
| `Numbers.LimitOf` | Project/Extensions/NSNumbers+Extensions.swift:282-287 | Under a strict `minimum < maximum`, the clamp lies in `[minimum, maximum]`. It keeps a value already inside, and gives the bound that was crossed otherwise. |
| `Numbers.Limit` | Project/Extensions/NSNumbers+Extensions.swift:282-287 | "Raise to the minimum, then lower to the maximum", done step by step, is that clamp. |
| `Numbers.LimitIdempotent` | Project/Extensions/NSNumbers+Extensions.swift:282-287 | Clamping twice is clamping once. A value already in range keeps its value. |
| `Batch.BatchModifyNumbers` | Project/Extensions/NSNumbers+Extensions.swift:300-305 | The result has the input's length, and slot `i` holds `block(input[i])`. |
| `Batch.BatchCompareNumbers` | Project/Extensions/NSNumbers+Extensions.swift:307-314 | True iff every element satisfies the block, so true for an empty array. |
| `Batch.BatchArithmetic` | Project/Extensions/NSNumbers+Extensions.swift:74-92 | `(a op k)` has `a`'s length and element `i` is `a[i] op k`. The guard is required only of the elements present. |
| `Batch.BatchCompoundAssign` | Project/Extensions/NSNumbers+Extensions.swift:95-113 | `a op= k` rebinds `a` to the element-wise `a op k`. |
| `Batch.BatchAddSubtractRoundTrip` | Project/Extensions/NSNumbers+Extensions.swift:74-80 | Adding and then subtracting `k` on a numeric-tagged array gives back the same array. |
| `Batch.BatchNegate` | Project/Extensions/NSNumbers+Extensions.swift:115-117 | Prefix `-` on an array negates every element and keeps the length. |
| `Batch.BatchPostIncrement` | Project/Extensions/NSNumbers+Extensions.swift:119-125 | `a++` rebinds `a` to its element-wise successors, keeps the length, and returns the new array. |
| `Batch.BatchPostDecrement` | Project/Extensions/NSNumbers+Extensions.swift:127-133 | `a--` rebinds `a` to its element-wise predecessors, keeps the length, and returns the new array. |
| `Batch.BatchSquarePower` | Project/Extensions/NSNumbers+Extensions.swift:198-200 | The class `squarePower` squares every element. Every result is non-negative. |
| `Batch.BatchLimit` | Project/Extensions/NSNumbers+Extensions.swift:243-245 | The class `limit` clamps every element into `[minimum, maximum]`. The bounds are required to be ordered only when the array is non-empty. |
| `Batch.AreNumberTypes` | Project/Extensions/NSNumbers+Extensions.swift:206-213 | The class `isNumberType` is true iff every element is numeric-tagged. When false, some element is a boolean. |
| `Batch.BatchCompare` | Project/Extensions/NSNumbers+Extensions.swift:155-189 | `a rel k` is true iff every element stands in `rel` to `k`. |
| `Batch.EmptyArrayComparesTrue` | Project/Extensions/NSNumbers+Extensions.swift:307-314 | Every comparison of the empty array with a number is true. |
| `Batch.ArrayNotEqualIsNotNegation` | Project/Extensions/NSNumbers+Extensions.swift:179-189 | On a non-empty array, `a == k` and `a != k` are never both true. Both are false exactly when some element equals `k` and some element differs from it. |
| `Batch.ArrayComparisonsWeaken` | Project/Extensions/NSNumbers+Extensions.swift:155-183 | Array `<` implies array `<=`, and array `>` implies array `>=`. Array `==` implies both `<=` and `>=`. |
| `Statistics.Sum` | Project/Extensions/NSNumbers+Extensions.swift:215-221 | `sum` requires numeric-tagged elements and returns the numeric left fold of `+` from 0. |
| `Statistics.SumAppend` | Project/Extensions/NSNumbers+Extensions.swift:215-221 | `sum(s + [x]) == sum(s) + x`. |
| `Statistics.SumConcat` | Project/Extensions/NSNumbers+Extensions.swift:215-221 | The sum of a concatenation is the sum of the two sums. |
| `Statistics.SumPermutation` | Project/Extensions/NSNumbers+Extensions.swift:215-221 | Two arrays holding the same elements in any order have the same sum. |
| `Statistics.SumBounds` | Project/Extensions/NSNumbers+Extensions.swift:215-221 | When every value lies in `[lo, hi]`, the sum lies in `[n*lo, n*hi]`. |
| `Statistics.Average` | Project/Extensions/NSNumbers+Extensions.swift:223-225 | `average` of a non-empty numeric array is its sum divided by its count. |
| `Statistics.AverageWithinBounds` | Project/Extensions/NSNumbers+Extensions.swift:223-225 | The average of values in `[lo, hi]` lies in `[lo, hi]`. |
| `Statistics.MaxFoldBounds` | Project/Extensions/NSNumbers+Extensions.swift:227-233 | The 0-seeded maximum is at least 0 and at least every value. It is either the seed 0 or one of the values. |
| `Statistics.MinFoldBounds` | Project/Extensions/NSNumbers+Extensions.swift:235-241 | The DBL_MAX-seeded minimum is at most DBL_MAX and at most every value. It is either the seed or one of the values. |
| `Statistics.Maximum` | Project/Extensions/NSNumbers+Extensions.swift:227-233 | The class `maximum` is the 0-seeded fold. Its result is at least 0 and every element, and is 0 or an element. |
| `Statistics.Minimum` | Project/Extensions/NSNumbers+Extensions.swift:235-241 | The class `minimum` is the DBL_MAX-seeded fold. Its result is at most DBL_MAX and every element, and is DBL_MAX or an element. |
| `Statistics.MaxElementIsGreatest` | Project/Extensions/NSNumbers+Extensions.swift:227-233 | The first-element-seeded maximum of a non-empty array is at least every value and is one of them. |
| `Statistics.MaximumOfElements` | Project/Extensions/NSNumbers+Extensions.swift:227-233 | The corrected `maximum`, seeded with the first element, returns the largest element. |
| `Statistics.MaxFoldIsClampedMaxElement` | Project/Extensions/NSNumbers+Extensions.swift:227-233 | The 0-seeded maximum equals "the largest element, but at least 0". |
| `Statistics.MaximumOfNegativesIsZero` | Project/Extensions/NSNumbers+Extensions.swift:227-233 | On an all-negative array, the class `maximum` is 0. That value is none of the elements and exceeds the largest. |
| `Statistics.ArrayAtMostIsMaxElementBound` | Project/Extensions/NSNumbers+Extensions.swift:167-171 | For a non-empty array, `a <= k` holds exactly when the largest element is at most `k`. |
| `Examples.AlgebraExamples` | Tests/NSNumberExtensionsTests.swift:39-53 | The expected values of the test for scalar `+ - * / %`: 42.5, 21.5, 336, 2, 0 and 0.5. |
| `Examples.UnaryExamples` | Tests/NSNumberExtensionsTests.swift:70-86 | `-32`, `32++` and `32--` give -32, 33 and 31. |
| `Examples.BatchRemainderExample` | Tests/NSNumberExtensionsTests.swift:89-104 | `[4, 8, 16, 128, 256, 512] % 10.5` is `[4, 8, 5.5, 2, 4, 8]`. |
| `Examples.ComparisonExamples` | Tests/NSNumberExtensionsTests.swift:141-179 | Every expected value of the scalar comparison test: `>`, `<`, `>=` and `<=` both ways on the boolean, char and short pairs, and on 2048 against itself. Also `==` and `!=` on 2048 against 2048 and against 1024. |
| `Examples.BatchComparisonExamples` | Tests/NSNumberExtensionsTests.swift:181-213 | Every expected value of the array comparison test: all sixteen comparisons of `[1, 2, 3]` and the six `==`/`!=` cases. These include `[1, 10, 10]`, for which both `== 10` and `!= 10` are false. |
| `Examples.BatchArithmeticExamples` | Tests/NSNumberExtensionsTests.swift:89-138 | `[4, 8, 16, 128, 256, 512]` with `+ 2`, `- 2`, `* 2`, `/ 2` and `% 2` gives the five expected arrays. So do negation, `++` and `--`, element by element. |
| `Examples.ClassSquarePowerExample` | Tests/NSNumberExtensionsTests.swift:216-222 | The class `squarePower` of `[2, 4, 6]` is `[4, 16, 36]`. |
| `Examples.AggregateExamples` | Tests/NSNumberExtensionsTests.swift:232-254 | `sum([2, 4, 6.5]) == 12.5`, `average([2, 4, 6]) == 4`, `maximum([2, 4, -6]) == 4` and `minimum([2, 4, -6]) == -6`. Also `maximum([-5, -3, -1]) == 0`. |
| `Examples.InstanceExamples` | Tests/NSNumberExtensionsTests.swift:283-327 | The expected values of the instance `squarePower`, `maximum`, `minimum` and `limit` tests, and of the class `limit` test. |

## Left out

- `squareRoot`, `powerOf` and `rootOf` are not modelled, in either their instance or their class form. They call the platform's `sqrt` and `pow`, which have no exact-real counterpart.
- Double-precision effects are replaced by exact reals: rounding, overflow to infinity, NaN, and the precision lost when a large integer is boxed as a double.
- `Numbers.Remainder`: the model requires the divisor to be non-zero. The source demands nothing here: `fmod(x, 0)` is NaN, and NaN has no exact-real counterpart. The same per-element requirement applies to the `Modulo` case of `Numbers.Defined`, and so to `Batch.BatchArithmetic` and `Batch.BatchCompoundAssign`.
- `Statistics.Average`: the model requires a non-empty array. On an empty array the source divides 0 by 0 and returns NaN.
- Switching off `assert` in release builds is not modelled. The model always enforces what Swift checks only in debug builds.
- The type tag is reduced to the `Boolean` constructor. The source compares `objCType` with that of a boxed `true`. On platforms where `BOOL` is a signed char, a number created with `NSNumber(char:)` has the same tag and is also refused by the guards. The model has no separate `char` kind.
- Textual rendering of arrays (`description`) is not modelled. It belongs to Foundation's formatter, which the batch tests use to compare results.
- The XCTest scaffolding and the `NSNumber` constructors for each C numeric type are not modelled.

## Findings

| source | as written | input that shows it | evidently intended | confidence | as-written member | corrected member |
|---|---|---|---|---|---|---|
| Project/Extensions/NSNumbers+Extensions.swift:227-233 | the class `maximum` starts its running maximum at 0 | `[-5, -3, -1]` yields 0, which is not an element | the largest element, -1. `minimum` starts from DBL_MAX, a seed that every finite value beats or ties, and `maximum` evidently wanted the same kind of seed | medium, not executed | `Statistics.MaximumOfNegativesIsZero` | `Statistics.MaximumOfElements` |

`Statistics.Maximum` models the code as written. `Statistics.MaximumOfNegativesIsZero` and `Examples.AggregateExamples` show where it differs from the largest element. `Statistics.MaximumOfElements` seeds the fold with the first element instead, and is proved to return the largest element.
