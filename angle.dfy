/** The Angle value type. An angle is one number of degrees, unbounded in
    both directions; no operation wraps it unless it says so. Every
    operation returns a new Angle, built, as the library does, by
    converting a degree value back into an Angle. */
module Angles {
  import opened Units

  /** `d1` and `d2` degrees point the same way: they differ by whole revolutions. */
  ghost predicate Coterminal(d1: real, d2: real)
  {
    IsWholeRevolutions(d1 - d2)
  }

  /** An Angle built from `value` measured in `units` (the two-argument constructor). */
  function FromUnits(value: real, units: AngleUnits): (a: Angle)
    ensures a.Value(units) == value
    ensures a.valueDeg == value * DegreesPer(units)
  {
    Angle(Converted(value, units, BASE_UNITS))
  }

  /** The angle the default constructor is documented to produce. */
  function Zero(): (a: Angle)
    ensures a.valueDeg == 0.0
  {
    FromUnits(0.0, DEGREES)
  }

  /** Degrees, minutes and seconds of an angle, as the formatter computes them. */
  datatype DegMinSec = DegMinSec(degs: int, mins: int, secs: real)

  datatype Angle = Angle(valueDeg: real) {

    /** The angle measured in `units`. */
    function Value(units: AngleUnits): (r: real)
      ensures r * DegreesPer(units) == valueDeg
    {
      Converted(valueDeg, BASE_UNITS, units)
    }

    /** The sum of two angles. */
    function Add(other: Angle): (r: Angle)
      ensures r.valueDeg == valueDeg + other.valueDeg
    {
      FromUnits(Value(BASE_UNITS) + other.Value(BASE_UNITS), BASE_UNITS)
    }

    /** Adds `value` measured in `units`. */
    function AddIn(value: real, units: AngleUnits): (r: Angle)
      ensures r.Value(units) == Value(units) + value
    {
      var other := FromUnits(value, units);
      Add(other)
    }

    /** Adds `value` in the default units, which are degrees. */
    function AddDefault(value: real): (r: Angle)
      ensures r.valueDeg == valueDeg + value
    {
      AddIn(value, DEGREES)
    }

    /** This angle minus `other`. */
    function Subtract(other: Angle): (r: Angle)
      ensures r.Add(other) == this
    {
      FromUnits(Value(BASE_UNITS) - other.Value(BASE_UNITS), BASE_UNITS)
    }

    /** Unary minus: the same magnitude in the opposite direction. */
    function Negate(): (r: Angle)
      ensures r.Add(this) == Zero()
    {
      FromUnits(-valueDeg, BASE_UNITS)
    }

    /** Scales the angle by `multiplier`. */
    function MultiplyBy(multiplier: real): (r: Angle)
      ensures r.valueDeg == valueDeg * multiplier
    {
      FromUnits(Value(BASE_UNITS) * multiplier, BASE_UNITS)
    }

    /** Divides the angle by `denominator`. */
    function DivideBy(denominator: real): (r: Angle)
      requires denominator != 0.0
      ensures r.MultiplyBy(denominator) == this
    {
      FromUnits(Value(BASE_UNITS) / denominator, BASE_UNITS)
    }

    /** The ratio of this angle to `other`, taken in the default units (degrees). */
    function DivideByAngle(other: Angle): (r: real)
      requires other.valueDeg != 0.0
      ensures r * other.valueDeg == valueDeg
    {
      Value(DEGREES) / other.Value(DEGREES)
    }

    /** Exact equality of the stored degrees (also `operator==`). */
    function Equals(other: Angle): (b: bool)
      ensures b <==> this == other
    {
      Value(BASE_UNITS) == other.Value(BASE_UNITS)
    }

    /** `operator!=`: the negation of `Equals`. */
    function NotEquals(other: Angle): (b: bool)
      ensures b <==> this != other
    {
      !Equals(other)
    }

    /** `operator>` as written: it compares this angle with itself. */
    function Greater(other: Angle): (b: bool)
      ensures !b
    {
      Value(BASE_UNITS) > Value(BASE_UNITS)
    }

    /** `operator<`: this angle is numerically smaller than `other`. */
    function Less(other: Angle): (b: bool)
      ensures b <==> valueDeg < other.valueDeg
    {
      Value(BASE_UNITS) < other.Value(BASE_UNITS)
    }

    /** The number of whole revolutions, rounded toward zero. */
    function Revolutions(): (n: int)
      ensures valueDeg >= 0.0 ==> 0 <= n && n as real * 360.0 <= valueDeg < (n + 1) as real * 360.0
      ensures valueDeg < 0.0 ==> n <= 0 && (n - 1) as real * 360.0 < valueDeg <= n as real * 360.0
    {
      Trunc(Converted(Value(BASE_UNITS), BASE_UNITS, REVOLUTIONS))
    }

    /** The angle with its whole revolutions removed, keeping its sign. */
    function FinalAngle(): (r: Angle)
      ensures r.valueDeg == valueDeg - Revolutions() as real * 360.0
      ensures -360.0 < r.valueDeg < 360.0
      ensures valueDeg >= 0.0 ==> r.valueDeg >= 0.0
      ensures valueDeg <= 0.0 ==> r.valueDeg <= 0.0
    {
      var fullRevs := FromUnits(Revolutions() as real, REVOLUTIONS);
      Subtract(fullRevs)
    }

    /** The final angle measured in the positive direction, in [0, 360). */
    function FinalPositive(): (r: Angle)
      ensures 0.0 <= r.valueDeg < 360.0
      ensures Coterminal(r.valueDeg, valueDeg)
    {
      var final := FinalAngle();
      WholeRevolutions(-Revolutions());
      WholeRevolutions(1 - Revolutions());
      if final.Value(BASE_UNITS) < 0.0 then final.Add(FULL_REV_ANGLE) else final
    }

    /** The final angle measured in the negative direction, in (-360, 0]. */
    function FinalNegative(): (r: Angle)
      ensures -360.0 < r.valueDeg <= 0.0
      ensures Coterminal(r.valueDeg, valueDeg)
    {
      var final := FinalAngle();
      WholeRevolutions(-Revolutions());
      WholeRevolutions(-1 - Revolutions());
      if final.Value(BASE_UNITS) > 0.0 then final.Subtract(FULL_REV_ANGLE) else final
    }

    /** `final_closerDirection` as written: the half-revolution subtraction
        is computed and its result dropped, so the final positive angle is
        returned unchanged, in [0, 360) rather than (-180, 180]. */
    function FinalCloserDirection(): (r: Angle)
      ensures 0.0 <= r.valueDeg < 360.0
      ensures Coterminal(r.valueDeg, valueDeg)
    {
      var output := FinalPositive();
      var dropped := if output.Value(DEGREES) > DEGREES_HALF_REV then output.Subtract(HALF_REV_ANGLE) else output;
      output
    }

    /** `closerPositive` as written: the difference `this - other`, reduced by
        `FinalCloserDirection`, is positive. */
    function CloserPositive(other: Angle): (b: bool)
      ensures b <==> !Coterminal(valueDeg, other.valueDeg)
    {
      var difference := Subtract(other);
      NonzeroReduction(difference.valueDeg, difference.FinalCloserDirection().valueDeg);
      difference.FinalCloserDirection().Value(BASE_UNITS) > 0.0
    }

    /** `closerNegative` as written: the reduced difference is negative,
        which `FinalCloserDirection` never returns. */
    function CloserNegative(other: Angle): (b: bool)
      ensures !b
    {
      var difference := Subtract(other);
      difference.FinalCloserDirection().Value(BASE_UNITS) < 0.0
    }

    /** `operator>=`: forwards to `CloserPositive`, not a numeric comparison. */
    function AtLeast(other: Angle): (b: bool)
      ensures b <==> !Coterminal(valueDeg, other.valueDeg)
    {
      CloserPositive(other)
    }

    /** `operator<=`: forwards to `CloserNegative`, so it never holds. */
    function AtMost(other: Angle): (b: bool)
      ensures !b
    {
      CloserNegative(other)
    }

    /** A positive angle becomes its final negative angle, any other angle
        its final positive angle. */
    function FlipDirection(): (r: Angle)
      ensures Coterminal(r.valueDeg, valueDeg)
      ensures valueDeg > 0.0 ==> -360.0 < r.valueDeg <= 0.0
      ensures valueDeg <= 0.0 ==> 0.0 <= r.valueDeg < 360.0
    {
      if Value(DEGREES) > 0.0 then FinalNegative() else FinalPositive()
    }

    /** The opposite direction (also `operator!`), reduced by `FinalCloserDirection`,
        hence in [0, 360). */
    function Reverse(): (r: Angle)
      ensures 0.0 <= r.valueDeg < 360.0
      ensures Coterminal(r.valueDeg, valueDeg + 180.0)
    {
      var oppositeAngle := Add(HALF_REV_ANGLE);
      oppositeAngle.FinalCloserDirection()
    }

    /** A quarter revolution further in the positive direction. */
    function PerpendicularPositive(): (r: Angle)
      ensures r.valueDeg == valueDeg + 90.0
    {
      Add(PERPENDICULAR_ANGLE)
    }

    /** A quarter revolution further in the negative direction. */
    function PerpendicularNegative(): (r: Angle)
      ensures r.valueDeg == valueDeg - 90.0
    {
      Subtract(PERPENDICULAR_ANGLE)
    }

    /** The degree, minute and second parts the formatter prints: whole
        degrees and whole minutes truncated toward zero, seconds the rest.
        All three parts carry the sign of the angle. */
    function DegreesMinutesSeconds(): (r: DegMinSec)
      ensures r.degs as real * 3600.0 + r.mins as real * 60.0 + r.secs == valueDeg * 3600.0
      ensures valueDeg >= 0.0 ==> 0 <= r.mins < 60 && 0.0 <= r.secs < 60.0
      ensures valueDeg < 0.0 ==> -60 < r.mins <= 0 && -60.0 < r.secs <= 0.0
    {
      var degs := Trunc(Value(DEGREES));
      var mins := Trunc(Value(DEGREES) * 60.0 - degs as real * 60.0);
      var secs := Value(DEGREES) * 3600.0 - degs as real * 3600.0 - mins as real * 60.0;
      DegMinSec(degs, mins, secs)
    }

    // Corrected definitions, for the places where the library's code does
    // not do what its documentation says.

    /** `final_closerDirection` as documented: the final positive angle, one
        revolution lower when it exceeds half a revolution, in (-180, 180]. */
    function FinalCloserDirectionCorrected(): (r: Angle)
      ensures -180.0 < r.valueDeg <= 180.0
      ensures Coterminal(r.valueDeg, valueDeg)
    {
      var output := FinalPositive();
      WholeRevolutionsSum(output.valueDeg - valueDeg, -360.0);
      if output.Value(DEGREES) > DEGREES_HALF_REV then output.Subtract(FULL_REV_ANGLE) else output
    }

    /** `closerPositive` built on the corrected reduction: the shorter
        rotation equivalent to `this - other` is positive. */
    function CloserPositiveCorrected(other: Angle): (b: bool)
      ensures b <==> exists d: real :: Coterminal(d, Subtract(other).valueDeg) && 0.0 < d <= 180.0
      ensures b ==> !Coterminal(valueDeg, other.valueDeg)
    {
      var difference := Subtract(other);
      NonzeroReduction(difference.valueDeg, difference.FinalCloserDirectionCorrected().valueDeg);
      ReducedSign(difference.valueDeg, difference.FinalCloserDirectionCorrected().valueDeg);
      difference.FinalCloserDirectionCorrected().Value(BASE_UNITS) > 0.0
    }

    /** `closerNegative` built on the corrected reduction: the shorter
        rotation equivalent to `this - other` is negative. */
    function CloserNegativeCorrected(other: Angle): (b: bool)
      ensures b <==> exists d: real :: Coterminal(d, Subtract(other).valueDeg) && -180.0 < d < 0.0
      ensures b ==> !Coterminal(valueDeg, other.valueDeg)
      ensures b ==> !CloserPositiveCorrected(other)
    {
      var difference := Subtract(other);
      NonzeroReduction(difference.valueDeg, difference.FinalCloserDirectionCorrected().valueDeg);
      ReducedSign(difference.valueDeg, difference.FinalCloserDirectionCorrected().valueDeg);
      difference.FinalCloserDirectionCorrected().Value(BASE_UNITS) < 0.0
    }

    /** `reverse` built on the corrected reduction, in (-180, 180]. */
    function ReverseCorrected(): (r: Angle)
      ensures -180.0 < r.valueDeg <= 180.0
      ensures Coterminal(r.valueDeg, valueDeg + 180.0)
    {
      var oppositeAngle := Add(HALF_REV_ANGLE);
      oppositeAngle.FinalCloserDirectionCorrected()
    }

    /** `operator>` comparing this angle with `other`. */
    function GreaterCorrected(other: Angle): (b: bool)
      ensures b <==> other.Less(this)
    {
      Value(BASE_UNITS) > other.Value(BASE_UNITS)
    }

    /** `operator==` as documented: the two angles point the same way,
        decided by comparing their final positive angles. */
    function EquivalentTo(other: Angle): (b: bool)
      ensures b <==> Coterminal(valueDeg, other.valueDeg)
    {
      FinalPositiveCanonical(this, other);
      FinalPositive() == other.FinalPositive()
    }
  }

  /** A full revolution, 360 degrees. */
  const FULL_REV_ANGLE: Angle := FromUnits(DEGREES_PER_REV, DEGREES)
  /** Half a revolution, 180 degrees. */
  const HALF_REV_ANGLE: Angle := FromUnits(DEGREES_HALF_REV, DEGREES)
  /** A quarter revolution, 90 degrees. */
  const PERPENDICULAR_ANGLE: Angle := FromUnits(DEGREES_HALF_REV / 2.0, DEGREES)

  /** `k` revolutions in degrees is a whole number of revolutions. */
  lemma WholeRevolutions(k: int)
    ensures IsWholeRevolutions(k as real * 360.0)
  {
    assert RevolutionDegrees(k) == k as real * 360.0;
  }

  /** Whole revolutions are closed under adding a whole revolution count. */
  lemma WholeRevolutionsSum(d: real, e: real)
    requires IsWholeRevolutions(d)
    requires e == 360.0 || e == -360.0
    ensures IsWholeRevolutions(d + e)
  {
    var k :| RevolutionDegrees(k) == d;
    var j := if e == 360.0 then k + 1 else k - 1;
    assert RevolutionDegrees(j) == d + e;
  }

  /** A whole number of revolutions smaller than one revolution is zero. */
  lemma SmallWholeRevolutions(x: real)
    requires IsWholeRevolutions(x)
    requires -360.0 < x < 360.0
    ensures x == 0.0
  {
  }

  /** Pointing the same way is transitive. */
  lemma CoterminalTransitive(a: real, b: real, c: real)
    requires Coterminal(a, b) && Coterminal(b, c)
    ensures Coterminal(a, c)
  {
    var k :| RevolutionDegrees(k) == a - b;
    var j :| RevolutionDegrees(j) == b - c;
    assert RevolutionDegrees(k + j) == a - c;
  }

  /** Pointing the same way is symmetric. */
  lemma CoterminalSymmetric(a: real, b: real)
    requires Coterminal(a, b)
    ensures Coterminal(b, a)
  {
    var k :| RevolutionDegrees(k) == a - b;
    assert RevolutionDegrees(-k) == b - a;
  }

  /** A reduction `r` of `d` to less than one revolution either way is zero
      exactly when `d` is a whole number of revolutions. */
  lemma NonzeroReduction(d: real, r: real)
    requires Coterminal(r, d)
    requires -360.0 < r < 360.0
    ensures r == 0.0 <==> IsWholeRevolutions(d)
  {
    if r == 0.0 {
      CoterminalSymmetric(r, d);
      assert d - 0.0 == d;
    }
    if IsWholeRevolutions(d) {
      WholeRevolutions(0);
      assert Coterminal(d, 0.0) by { assert d - 0.0 == d; }
      CoterminalTransitive(r, d, 0.0);
      assert r - 0.0 == r;
      SmallWholeRevolutions(r);
    }
  }

  /** Two values less than a revolution apart that point the same way are equal. */
  lemma CoterminalClose(x: real, y: real)
    requires Coterminal(x, y)
    requires -360.0 < x - y < 360.0
    ensures x == y
  {
  }

  /** The final positive angle is the unique value in [0, 360) that points
      the same way; so two angles have the same final positive angle exactly
      when they point the same way. */
  lemma FinalPositiveCanonical(a: Angle, b: Angle)
    ensures a.FinalPositive() == b.FinalPositive() <==> Coterminal(a.valueDeg, b.valueDeg)
  {
    var p, q := a.FinalPositive().valueDeg, b.FinalPositive().valueDeg;
    if Coterminal(a.valueDeg, b.valueDeg) {
      CoterminalTransitive(p, a.valueDeg, b.valueDeg);
      CoterminalSymmetric(q, b.valueDeg);
      CoterminalTransitive(p, b.valueDeg, q);
      CoterminalClose(p, q);
    }
    if p == q {
      CoterminalSymmetric(p, a.valueDeg);
      CoterminalTransitive(a.valueDeg, p, b.valueDeg);
    }
  }

  /** A reduction `r` of `x` into (-180, 180] is positive exactly when some
      value in (0, 180] points the way `x` does, and negative exactly when
      some value in (-180, 0) does. */
  lemma ReducedSign(x: real, r: real)
    requires Coterminal(r, x)
    requires -180.0 < r <= 180.0
    ensures r > 0.0 <==> exists d: real :: Coterminal(d, x) && 0.0 < d <= 180.0
    ensures r < 0.0 <==> exists d: real :: Coterminal(d, x) && -180.0 < d < 0.0
  {
    if exists d: real :: Coterminal(d, x) && 0.0 < d <= 180.0 {
      var d :| Coterminal(d, x) && 0.0 < d <= 180.0;
      CoterminalSymmetric(d, x);
      CoterminalTransitive(r, x, d);
      CoterminalClose(r, d);
    }
    if exists d: real :: Coterminal(d, x) && -180.0 < d < 0.0 {
      var d :| Coterminal(d, x) && -180.0 < d < 0.0;
      CoterminalSymmetric(d, x);
      CoterminalTransitive(r, x, d);
      CoterminalClose(r, d);
    }
  }
}
