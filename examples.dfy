/** The expectations of the test suite, stated as facts about the model. */
module Examples {
  import opened Numbers
  import opened Batch
  import opened Statistics

  /** Scalar arithmetic on the int 32 and the doubles 10.5 and 16. */
  lemma AlgebraExamples()
    ensures Add(Numeric(32.0), Numeric(10.5)) == Numeric(42.5)
    ensures Subtract(Numeric(32.0), Numeric(10.5)) == Numeric(21.5)
    ensures Multiply(Numeric(32.0), Numeric(10.5)) == Numeric(336.0)
    ensures Divide(Numeric(32.0), Numeric(16.0)) == Numeric(2.0)
    ensures Remainder(Numeric(32.0), Numeric(32.0)) == Numeric(0.0)
    ensures Remainder(Numeric(32.0), Numeric(10.5)) == Numeric(0.5)
  {
    assert Truncate(32.0 / 10.5) == 3;
  }

  /** Negation, increment and decrement of the int 32. */
  lemma UnaryExamples()
    ensures Negate(Numeric(32.0)) == Numeric(-32.0)
    ensures Incremented(Numeric(32.0)) == Numeric(33.0)
    ensures Decremented(Numeric(32.0)) == Numeric(31.0)
  {
  }

  /** The remainders by 10.5 of the array used by the batch tests. */
  lemma BatchRemainderExample()
    ensures var input := [Numeric(4.0), Numeric(8.0), Numeric(16.0), Numeric(128.0), Numeric(256.0), Numeric(512.0)];
            var expected := [Numeric(4.0), Numeric(8.0), Numeric(5.5), Numeric(2.0), Numeric(4.0), Numeric(8.0)];
            forall i :: 0 <= i < 6 ==> Remainder(input[i], Numeric(10.5)) == expected[i]
  {
    assert Truncate(4.0 / 10.5) == 0;
    assert Truncate(8.0 / 10.5) == 0;
    assert Truncate(16.0 / 10.5) == 1;
    assert Truncate(128.0 / 10.5) == 12;
    assert Truncate(256.0 / 10.5) == 24;
    assert Truncate(512.0 / 10.5) == 48;
  }

  /** The scalar comparison tests: the booleans true and false, the chars 2 and
      1 (unsigned and signed) and the shorts 2048 and 1024. */
  lemma ComparisonExamples()
    ensures var t, f := Boolean(true), Boolean(false);
            Greater(t, f) && !Greater(f, t) && Less(f, t) && !Less(t, f) &&
            GreaterOrEqual(t, f) && !GreaterOrEqual(f, t) && LessOrEqual(f, t) && !LessOrEqual(t, f)
    ensures var uc, c := Numeric(2.0), Numeric(1.0);
            Greater(uc, c) && !Greater(c, uc) && Less(c, uc) && !Less(uc, c) &&
            GreaterOrEqual(uc, c) && !GreaterOrEqual(c, uc) && LessOrEqual(c, uc) && !LessOrEqual(uc, c)
    ensures var us, sh := Numeric(2048.0), Numeric(1024.0);
            Greater(us, sh) && !Greater(sh, us) && Less(sh, us) && !Less(us, sh) &&
            GreaterOrEqual(us, sh) && !GreaterOrEqual(sh, us) && LessOrEqual(sh, us) && !LessOrEqual(us, sh)
    ensures var us := Numeric(2048.0);
            !Greater(us, us) && !Less(us, us) && GreaterOrEqual(us, us) && LessOrEqual(us, us)
    ensures Equal(Numeric(2048.0), Numeric(2048.0)) && !NotEqual(Numeric(2048.0), Numeric(2048.0))
    ensures NotEqual(Numeric(2048.0), Numeric(1024.0)) && !Equal(Numeric(2048.0), Numeric(1024.0))
  {
  }

  /** The array comparison tests against a number, including the == and !=
      pair that are both false. */
  lemma BatchComparisonExamples()
    ensures var a := [Numeric(1.0), Numeric(2.0), Numeric(3.0)];
            AllHold(a, LessThan, Numeric(4.0)) && !AllHold(a, LessThan, Numeric(3.0)) &&
            !AllHold(a, LessThan, Numeric(2.0))
    ensures var a := [Numeric(1.0), Numeric(2.0), Numeric(3.0)];
            AllHold(a, GreaterThan, Numeric(-1.0)) && AllHold(a, GreaterThan, Numeric(0.0)) &&
            !AllHold(a, GreaterThan, Numeric(1.0)) && !AllHold(a, GreaterThan, Numeric(2.0))
    ensures var a := [Numeric(1.0), Numeric(2.0), Numeric(3.0)];
            AllHold(a, AtMost, Numeric(4.0)) && AllHold(a, AtMost, Numeric(3.0)) &&
            !AllHold(a, AtMost, Numeric(2.0))
    ensures var a := [Numeric(1.0), Numeric(2.0), Numeric(3.0)];
            AllHold(a, AtLeast, Numeric(-1.0)) && AllHold(a, AtLeast, Numeric(0.0)) &&
            AllHold(a, AtLeast, Numeric(1.0)) && !AllHold(a, AtLeast, Numeric(2.0))
    ensures var equal := [Numeric(10.0), Numeric(10.0), Numeric(10.0)];
            var mixed := [Numeric(1.0), Numeric(10.0), Numeric(10.0)];
            var apart := [Numeric(1.0), Numeric(2.0), Numeric(3.0)];
            AllHold(equal, EqualTo, Numeric(10.0)) && !AllHold(mixed, EqualTo, Numeric(10.0)) &&
            !AllHold(apart, EqualTo, Numeric(10.0)) &&
            !AllHold(equal, NotEqualTo, Numeric(10.0)) && !AllHold(mixed, NotEqualTo, Numeric(10.0)) &&
            AllHold(apart, NotEqualTo, Numeric(10.0))
  {
    var a := [Numeric(1.0), Numeric(2.0), Numeric(3.0)];
    assert !Holds(LessThan, a[2], Numeric(3.0));
    assert !Holds(LessThan, a[2], Numeric(2.0));
    assert !Holds(GreaterThan, a[0], Numeric(1.0));
    assert !Holds(GreaterThan, a[0], Numeric(2.0));
    assert !Holds(AtMost, a[2], Numeric(2.0));
    assert !Holds(AtLeast, a[0], Numeric(2.0));
    assert !Holds(EqualTo, a[0], Numeric(10.0));
    var equal := [Numeric(10.0), Numeric(10.0), Numeric(10.0)];
    assert !Holds(NotEqualTo, equal[0], Numeric(10.0));
    var mixed := [Numeric(1.0), Numeric(10.0), Numeric(10.0)];
    assert !Holds(EqualTo, mixed[0], Numeric(10.0));
    assert !Holds(NotEqualTo, mixed[1], Numeric(10.0));
  }

  /** The array arithmetic tests on [4, 8, 16, 128, 256, 512]: the element-wise
      results of + 2, - 2, * 2, / 2 and % 2, of negation, and of ++ and --. */
  lemma BatchArithmeticExamples()
    ensures var input := [Numeric(4.0), Numeric(8.0), Numeric(16.0), Numeric(128.0), Numeric(256.0), Numeric(512.0)];
            var added := [Numeric(6.0), Numeric(10.0), Numeric(18.0), Numeric(130.0), Numeric(258.0), Numeric(514.0)];
            var subtracted := [Numeric(2.0), Numeric(6.0), Numeric(14.0), Numeric(126.0), Numeric(254.0), Numeric(510.0)];
            var multiplied := [Numeric(8.0), Numeric(16.0), Numeric(32.0), Numeric(256.0), Numeric(512.0), Numeric(1024.0)];
            var divided := [Numeric(2.0), Numeric(4.0), Numeric(8.0), Numeric(64.0), Numeric(128.0), Numeric(256.0)];
            forall i :: 0 <= i < 6 ==>
              Add(input[i], Numeric(2.0)) == added[i] &&
              Subtract(input[i], Numeric(2.0)) == subtracted[i] &&
              Multiply(input[i], Numeric(2.0)) == multiplied[i] &&
              Divide(input[i], Numeric(2.0)) == divided[i] &&
              Remainder(input[i], Numeric(2.0)) == Zero
    ensures var input := [Numeric(4.0), Numeric(8.0), Numeric(16.0), Numeric(128.0), Numeric(256.0), Numeric(512.0)];
            var negated := [Numeric(-4.0), Numeric(-8.0), Numeric(-16.0), Numeric(-128.0), Numeric(-256.0), Numeric(-512.0)];
            var incremented := [Numeric(5.0), Numeric(9.0), Numeric(17.0), Numeric(129.0), Numeric(257.0), Numeric(513.0)];
            var decremented := [Numeric(3.0), Numeric(7.0), Numeric(15.0), Numeric(127.0), Numeric(255.0), Numeric(511.0)];
            forall i :: 0 <= i < 6 ==>
              Negate(input[i]) == negated[i] &&
              Incremented(input[i]) == incremented[i] &&
              Decremented(input[i]) == decremented[i]
  {
    assert Truncate(4.0 / 2.0) == 2;
    assert Truncate(8.0 / 2.0) == 4;
    assert Truncate(16.0 / 2.0) == 8;
    assert Truncate(128.0 / 2.0) == 64;
    assert Truncate(256.0 / 2.0) == 128;
    assert Truncate(512.0 / 2.0) == 256;
  }

  /** The class squarePower test: [2, 4, 6] squares to [4, 16, 36]. */
  lemma ClassSquarePowerExample()
    ensures var input := [Numeric(2.0), Numeric(4.0), Numeric(6.0)];
            var expected := [Numeric(4.0), Numeric(16.0), Numeric(36.0)];
            forall i :: 0 <= i < 3 ==> SquarePower(input[i]) == expected[i]
  {
  }

  /** sum, average, maximum and minimum of the test arrays, and the zero seed
      showing through on an all-negative array. */
  lemma AggregateExamples()
    ensures SumOf([Numeric(2.0), Numeric(4.0), Numeric(6.5)]) == 12.5
    ensures SumOf([Numeric(2.0), Numeric(4.0), Numeric(6.0)]) / 3.0 == 4.0
    ensures MaxFold([Numeric(2.0), Numeric(4.0), Numeric(-6.0)]) == 4.0
    ensures MinFold([Numeric(2.0), Numeric(4.0), Numeric(-6.0)]) == -6.0
    ensures MaxFold([Numeric(-5.0), Numeric(-3.0), Numeric(-1.0)]) == 0.0
    ensures MaxElement([Numeric(-5.0), Numeric(-3.0), Numeric(-1.0)]) == -1.0
  {
    var s := [Numeric(2.0), Numeric(4.0), Numeric(6.5)];
    assert s[..2][..1][..0] == [];
    var t := [Numeric(2.0), Numeric(4.0), Numeric(6.0)];
    assert t[..2][..1][..0] == [];
    assert SumOf(t[..2][..1]) == 2.0;
    assert SumOf(t[..2]) == 6.0;
    var m := [Numeric(2.0), Numeric(4.0), Numeric(-6.0)];
    assert m[..2][..1][..0] == [];
    assert MaxFold(m[..2][..1]) == 2.0 && MaxFold(m[..2]) == 4.0;
    assert MinFold(m[..2][..1]) == 2.0 && MinFold(m[..2]) == 2.0;
    var n := [Numeric(-5.0), Numeric(-3.0), Numeric(-1.0)];
    assert n[..2][..1][..0] == [];
    assert MaxFold(n[..2][..1]) == 0.0 && MaxFold(n[..2]) == 0.0;
    assert n[..2][..1] == [Numeric(-5.0)];
    assert MaxElement(n[..2]) == -3.0;
  }

  /** Instance maximum, minimum, limit and squarePower. */
  lemma InstanceExamples()
    ensures Numbers.Maximum(Numeric(100.0), Numeric(50.0)) == Numeric(100.0)
    ensures Numbers.Maximum(Numeric(100.0), Numeric(1050.0)) == Numeric(1050.0)
    ensures Numbers.Maximum(Numeric(100.0), Numeric(-100.0)) == Numeric(100.0)
    ensures Numbers.Minimum(Numeric(100.0), Numeric(50.0)) == Numeric(50.0)
    ensures Numbers.Minimum(Numeric(100.0), Numeric(1050.0)) == Numeric(100.0)
    ensures Numbers.Minimum(Numeric(100.0), Numeric(-100.0)) == Numeric(-100.0)
    ensures LimitOf(Numeric(100.0), Numeric(0.0), Numeric(50.0)) == Numeric(50.0)
    ensures LimitOf(Numeric(100.0), Numeric(110.0), Numeric(1050.0)) == Numeric(110.0)
    ensures LimitOf(Numeric(100.0), Numeric(0.0), Numeric(150.0)) == Numeric(100.0)
    ensures LimitOf(Numeric(100.0), Numeric(-100.0), Numeric(-10.0)) == Numeric(-10.0)
    ensures LimitOf(Numeric(2.0), Numeric(-1.0), Numeric(3.0)) == Numeric(2.0)
    ensures LimitOf(Numeric(4.0), Numeric(-1.0), Numeric(3.0)) == Numeric(3.0)
    ensures LimitOf(Numeric(-6.0), Numeric(-1.0), Numeric(3.0)) == Numeric(-1.0)
    ensures SquarePower(Numeric(2.0)) == Numeric(4.0)
    ensures SquarePower(SquarePower(Numeric(2.0))) == Numeric(16.0)
    ensures SquarePower(SquarePower(SquarePower(Numeric(2.0)))) == Numeric(256.0)
  {
  }
}
