/** Properties of the Angle operations: the worked examples from the
    library's documentation, the relations between operations, and the
    places where the code departs from its documentation. */
module AngleProperties {
  import opened Units
  import opened Angles

  // ---------------------------------------------------------------------
  // Constants and documented examples

  /** The constant angles hold exactly 360, 180 and 90 degrees. */
  lemma ConstantAngles()
    ensures FULL_REV_ANGLE.valueDeg == 360.0
    ensures HALF_REV_ANGLE.valueDeg == 180.0
    ensures PERPENDICULAR_ANGLE.valueDeg == 90.0
    ensures FULL_REV_ANGLE.Value(REVOLUTIONS) == 1.0
  {
  }

  /** Whole revolutions: 360 degrees is one, -630 degrees is minus one. */
  lemma RevolutionsExamples()
    ensures Angle(360.0).Revolutions() == 1
    ensures Angle(-630.0).Revolutions() == -1
    ensures Angle(359.0).Revolutions() == 0
  {
  }

  /** 630 degrees has final angle 270, -630 has -270, and 360 has 0. */
  lemma FinalAngleExamples()
    ensures Angle(630.0).FinalAngle().valueDeg == 270.0
    ensures Angle(-630.0).FinalAngle().valueDeg == -270.0
    ensures Angle(360.0).FinalAngle().valueDeg == 0.0
  {
    assert Angle(630.0).Revolutions() == 1;
    assert Angle(-630.0).Revolutions() == -1;
  }

  /** -450 degrees measured positively is 270; 450 measured negatively is -270. */
  lemma FinalPositiveNegativeExamples()
    ensures Angle(-450.0).FinalPositive().valueDeg == 270.0
    ensures Angle(450.0).FinalNegative().valueDeg == -270.0
  {
    assert Angle(-450.0).Revolutions() == -1;
    assert Angle(450.0).Revolutions() == 1;
  }

  /** The documented example -630 -> 90 holds even as written. */
  lemma FinalCloserDirectionExample()
    ensures Angle(-630.0).FinalCloserDirection().valueDeg == 90.0
    ensures Angle(-630.0).FinalCloserDirectionCorrected().valueDeg == 90.0
  {
    assert Angle(-630.0).Revolutions() == -1;
  }

  /** 45 degrees flips to -315, and -435 flips to 285. */
  lemma FlipDirectionExamples()
    ensures Angle(45.0).FlipDirection().valueDeg == -315.0
    ensures Angle(-435.0).FlipDirection().valueDeg == 285.0
  {
    assert Angle(45.0).Revolutions() == 0;
    assert Angle(-435.0).Revolutions() == -1;
  }

  /** 90 degrees: the perpendiculars are 180 and 0, and 90 / 45 is 2. */
  lemma ArithmeticExamples()
    ensures Angle(90.0).PerpendicularPositive().valueDeg == 180.0
    ensures Angle(90.0).PerpendicularNegative().valueDeg == 0.0
    ensures Angle(90.0).DivideByAngle(Angle(45.0)) == 2.0
  {
  }

  // ---------------------------------------------------------------------
  // Arithmetic

  /** Adding is commutative and associative, subtracting is adding the
      negation, and negation undoes itself. */
  lemma AddLaws(a: Angle, b: Angle, c: Angle)
    ensures a.Add(b) == b.Add(a)
    ensures a.Add(b).Add(c) == a.Add(b.Add(c))
    ensures a.Subtract(b) == a.Add(b.Negate())
    ensures a.Negate().Negate() == a
    ensures a.Add(b).Subtract(b) == a
  {
  }

  /** Adding a value in any unit, then reading it back in that unit. */
  lemma AddInDegrees(a: Angle, value: real, units: AngleUnits)
    ensures a.AddIn(value, units).valueDeg == a.valueDeg + value * DegreesPer(units)
  {
  }

  /** The two perpendiculars undo each other, and four quarter turns point
      the way the angle started. */
  lemma PerpendicularLaws(a: Angle)
    ensures a.PerpendicularPositive().PerpendicularNegative() == a
    ensures a.PerpendicularNegative().PerpendicularPositive() == a
    ensures Coterminal(a.PerpendicularPositive().PerpendicularPositive()
                        .PerpendicularPositive().PerpendicularPositive().valueDeg, a.valueDeg)
  {
    var b := a.PerpendicularPositive().PerpendicularPositive()
              .PerpendicularPositive().PerpendicularPositive();
    assert b.valueDeg - a.valueDeg == 1 as real * 360.0;
    WholeRevolutions(1);
  }

  /** Dividing one angle by another gives the same ratio in every unit. */
  lemma DivideByAngleAnyUnit(a: Angle, b: Angle, units: AngleUnits)
    requires b.valueDeg != 0.0
    ensures b.Value(units) != 0.0
    ensures a.DivideByAngle(b) == a.Value(units) / b.Value(units)
  {
  }

  /** An angle built from `n` revolutions has `n` whole revolutions, and any
      value in revolutions is truncated toward zero. */
  lemma RevolutionsOfRevolutions(value: real)
    ensures FromUnits(value, REVOLUTIONS).Revolutions() == Trunc(value)
  {
  }

  // ---------------------------------------------------------------------
  // Reductions

  /** The final negative angle is the unique value in (-360, 0] that points
      the same way. */
  lemma FinalNegativeCanonical(a: Angle, b: Angle)
    ensures a.FinalNegative() == b.FinalNegative() <==> Coterminal(a.valueDeg, b.valueDeg)
  {
    var p, q := a.FinalNegative().valueDeg, b.FinalNegative().valueDeg;
    if Coterminal(a.valueDeg, b.valueDeg) {
      CoterminalTransitive(p, a.valueDeg, b.valueDeg);
      CoterminalSymmetric(q, b.valueDeg);
      CoterminalTransitive(p, b.valueDeg, q);
      CoterminalClose(p, q);
    }
    if p == q {
      CoterminalSymmetric(p, a.valueDeg);
      CoterminalTransitive(a.valueDeg, p, b.valueDeg);
    }
  }

  /** Reducing twice is reducing once. */
  lemma ReductionsIdempotent(a: Angle)
    ensures a.FinalAngle().FinalAngle() == a.FinalAngle()
    ensures a.FinalPositive().FinalPositive() == a.FinalPositive()
    ensures a.FinalNegative().FinalNegative() == a.FinalNegative()
  {
  }

  /** The positive and negative final angles are one revolution apart,
      unless the angle is a whole number of revolutions and both are zero. */
  lemma FinalPositiveMinusNegative(a: Angle)
    ensures IsWholeRevolutions(a.valueDeg) ==> a.FinalPositive().valueDeg == 0.0 == a.FinalNegative().valueDeg
    ensures !IsWholeRevolutions(a.valueDeg) ==> a.FinalPositive().valueDeg - a.FinalNegative().valueDeg == 360.0
  {
    var p, n := a.FinalPositive().valueDeg, a.FinalNegative().valueDeg;
    assert a.valueDeg - 0.0 == a.valueDeg;
    NonzeroReduction(a.valueDeg, p);
    NonzeroReduction(a.valueDeg, n);
    CoterminalSymmetric(n, a.valueDeg);
    CoterminalTransitive(p, a.valueDeg, n);
    var k := ((p - n) / DEGREES_PER_REV).Floor;
    assert p - n == k as real * 360.0;
    if !IsWholeRevolutions(a.valueDeg) {
      assert 0.0 < p - n < 720.0;
      assert k == 1;
    }
  }

  /** Flipping twice gives the final angle in the direction the angle
      started in. */
  lemma FlipTwice(a: Angle)
    ensures a.valueDeg > 0.0 ==> a.FlipDirection().FlipDirection() == a.FinalPositive()
    ensures a.valueDeg <= 0.0 ==> a.FlipDirection().FlipDirection() == a.FinalNegative()
  {
    var f := a.FlipDirection();
    if a.valueDeg > 0.0 {
      FinalPositiveCanonical(f, a);
    } else {
      FinalNegativeCanonical(f, a);
      ReductionsIdempotent(a);
      if f.valueDeg == 0.0 {
        FinalPositiveMinusNegative(a);
        assert f.FlipDirection().valueDeg == 0.0 by {
          assert f.Revolutions() == 0;
        }
      }
    }
  }

  // ---------------------------------------------------------------------
  // The code as written versus its documentation

  /** `final_closerDirection` drops the result of its subtraction, so it is
      `final_positive` unchanged. */
  lemma FinalCloserDirectionIsFinalPositive(a: Angle)
    ensures a.FinalCloserDirection() == a.FinalPositive()
  {
  }

  /** 270 degrees reduces to 270, outside the documented (-180, 180]; the
      corrected reduction gives -90. */
  lemma FinalCloserDirectionOutOfRange()
    ensures Angle(270.0).FinalCloserDirection().valueDeg == 270.0
    ensures Angle(270.0).FinalCloserDirectionCorrected().valueDeg == -90.0
  {
    assert Angle(270.0).Revolutions() == 0;
  }

  /** The corrected reduction is the unique value in (-180, 180] pointing the
      same way: angles that point the same way reduce to the same value. */
  lemma FinalCloserDirectionCorrectedCanonical(a: Angle, b: Angle)
    ensures a.FinalCloserDirectionCorrected() == b.FinalCloserDirectionCorrected()
            <==> Coterminal(a.valueDeg, b.valueDeg)
  {
    var p, q := a.FinalCloserDirectionCorrected().valueDeg, b.FinalCloserDirectionCorrected().valueDeg;
    if Coterminal(a.valueDeg, b.valueDeg) {
      CoterminalTransitive(p, a.valueDeg, b.valueDeg);
      CoterminalSymmetric(q, b.valueDeg);
      CoterminalTransitive(p, b.valueDeg, q);
      CoterminalClose(p, q);
    }
    if p == q {
      CoterminalSymmetric(p, a.valueDeg);
      CoterminalTransitive(a.valueDeg, p, b.valueDeg);
    }
  }

  /** `reverse` of 45 degrees is 225, outside the documented (-180, 180];
      the corrected one gives -135. */
  lemma ReverseOutOfRange()
    ensures Angle(45.0).Reverse().valueDeg == 225.0
    ensures Angle(45.0).ReverseCorrected().valueDeg == -135.0
  {
    assert Angle(225.0).Revolutions() == 0;
  }

  /** As written, `closerPositive` holds whenever the two angles point
      different ways and `closerNegative` never holds, so the two are never
      both true. */
  lemma CloserAsWritten(a: Angle, b: Angle)
    ensures !(a.CloserPositive(b) && a.CloserNegative(b))
    ensures a.CloserPositive(b) == b.CloserPositive(a)
  {
  }

  /** 0 degrees against 90: the difference 0 - 90 reduces to -90 under the
      documented reduction, so `closerNegative` should hold; as written it
      does not, because the reduction never goes below zero. */
  lemma CloserNegativeExample()
    ensures !Angle(0.0).CloserNegative(Angle(90.0))
    ensures Angle(0.0).CloserNegativeCorrected(Angle(90.0))
    ensures !Angle(0.0).CloserPositiveCorrected(Angle(90.0))
  {
    assert Angle(-90.0).Revolutions() == 0;
  }

  /** Corrected: for angles pointing different ways exactly one of the two
      directions is the closer one; for angles pointing the same way neither. */
  lemma CloserCorrectedTrichotomy(a: Angle, b: Angle)
    ensures Coterminal(a.valueDeg, b.valueDeg) ==> !a.CloserPositiveCorrected(b) && !a.CloserNegativeCorrected(b)
    ensures !Coterminal(a.valueDeg, b.valueDeg) ==> a.CloserPositiveCorrected(b) != a.CloserNegativeCorrected(b)
  {
    var d := a.Subtract(b);
    NonzeroReduction(d.valueDeg, d.FinalCloserDirectionCorrected().valueDeg);
  }

  /** Corrected: unless the angles are exactly half a revolution apart,
      the closer direction from one to the other is the opposite of the
      closer direction back. */
  lemma CloserCorrectedAntisymmetric(a: Angle, b: Angle)
    requires !Coterminal(a.valueDeg - b.valueDeg, 180.0)
    ensures a.CloserPositiveCorrected(b) <==> b.CloserNegativeCorrected(a)
  {
    var d, e := a.Subtract(b), b.Subtract(a);
    assert e.valueDeg == -d.valueDeg;
    OppositeReductions(d.valueDeg, d.FinalCloserDirectionCorrected().valueDeg,
                       e.FinalCloserDirectionCorrected().valueDeg);
  }

  /** Reductions into (-180, 180] of `x` and of `-x` are each other's
      negation, unless `x` points at half a revolution. */
  lemma OppositeReductions(x: real, r: real, s: real)
    requires Coterminal(r, x) && Coterminal(s, -x)
    requires -180.0 < r <= 180.0 && -180.0 < s <= 180.0
    requires !Coterminal(x, 180.0)
    ensures r == -s
  {
    var k := ((s + x) / DEGREES_PER_REV).Floor;
    assert s - -x == s + x;
    assert -s - x == (-k) as real * 360.0;
    WholeRevolutions(-k);
    CoterminalSymmetric(-s, x);
    CoterminalTransitive(r, x, -s);
    if r + s == 360.0 {
      assert r == 180.0;
      CoterminalSymmetric(r, x);
    } else {
      CoterminalClose(r, -s);
    }
  }

  /** `operator>` compares an angle with itself, so 2 > 1 is false; the
      corrected comparison is the converse of `operator<`. */
  lemma GreaterAsWritten(a: Angle, b: Angle)
    ensures !Angle(2.0).Greater(Angle(1.0))
    ensures Angle(2.0).GreaterCorrected(Angle(1.0))
    ensures a.GreaterCorrected(b) <==> b.Less(a)
  {
  }

  /** Exactly one of `<`, `==` and the corrected `>` holds. */
  lemma ComparisonTrichotomy(a: Angle, b: Angle)
    ensures a.Less(b) || a.Equals(b) || a.GreaterCorrected(b)
    ensures !(a.Less(b) && a.Equals(b))
    ensures !(a.Less(b) && a.GreaterCorrected(b))
    ensures !(a.Equals(b) && a.GreaterCorrected(b))
    ensures a.Equals(b) <==> a == b
    ensures a.NotEquals(b) <==> a != b
  {
  }

  /** `equals` is exact: 270 and -450 degrees point the same way but are not
      equal, whereas the documented equivalence holds for them. */
  lemma EqualsIsExact()
    ensures !Angle(270.0).Equals(Angle(-450.0))
    ensures Angle(270.0).EquivalentTo(Angle(-450.0))
    ensures Angle(270.0).EquivalentTo(Angle(-90.0))
  {
    assert Angle(-450.0).Revolutions() == -1;
    assert Angle(-90.0).Revolutions() == 0;
  }

  /** The documented equivalence is an equivalence relation, and exact
      equality implies it. */
  lemma EquivalentToIsEquivalence(a: Angle, b: Angle, c: Angle)
    ensures a.EquivalentTo(a)
    ensures a.EquivalentTo(b) ==> b.EquivalentTo(a)
    ensures a.EquivalentTo(b) && b.EquivalentTo(c) ==> a.EquivalentTo(c)
    ensures a.Equals(b) ==> a.EquivalentTo(b)
  {
  }
}
