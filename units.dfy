/** The units an angle can be expressed in, the conversion constants, and the
    conversion between units. Doubles are modelled as exact reals, so every
    conversion factor and every round trip is exact. */
module Units {

  /** DEGREES, RADIANS or REVOLUTIONS (450 DEGREES is 1.25 REVOLUTIONS). */
  datatype AngleUnits = DEGREES | RADIANS | REVOLUTIONS

  /** Every angle is stored in degrees. */
  const BASE_UNITS: AngleUnits := DEGREES

  const PI: real := 3.141592653589793
  const DEGREES_PER_REV: real := 360.0
  const DEGREES_HALF_REV: real := DEGREES_PER_REV / 2.0
  const RADIANS_PER_REV: real := 2.0 * PI
  const RADIANS_PER_DEGREE: real := PI / DEGREES_HALF_REV
  const DEGREES_PER_RADIAN: real := DEGREES_HALF_REV / PI

  /** How many degrees one unit of `units` measures; always positive. */
  function DegreesPer(units: AngleUnits): (d: real)
    ensures d > 0.0
    ensures units == DEGREES <==> d == 1.0
  {
    match units
    case DEGREES => 1.0
    case RADIANS => DEGREES_PER_RADIAN
    case REVOLUTIONS => DEGREES_PER_REV
  }

  /** The same angle as `value` in `inputUnits`, measured in `outputUnits`:
      both measure the same number of degrees. This is the reference
      definition the conversion routine below is proved against. */
  function Converted(value: real, inputUnits: AngleUnits, outputUnits: AngleUnits): (r: real)
    ensures r * DegreesPer(outputUnits) == value * DegreesPer(inputUnits)
  {
    value * DegreesPer(inputUnits) / DegreesPer(outputUnits)
  }

  /** The conversion routine as the library writes it: an identity shortcut,
      then a step into degrees and a step out of degrees. */
  method ConvertAngleUnits(value: real, inputUnits: AngleUnits, outputUnits: AngleUnits)
    returns (output: real)
    ensures inputUnits == outputUnits ==> output == value
    ensures output == Converted(value, inputUnits, outputUnits)
  {
    if inputUnits == outputUnits {
      return value;
    }
    var input := 0.0;
    output := 0.0;

    match inputUnits {
      case DEGREES =>
        input := value;
      case RADIANS =>
        input := value * DEGREES_PER_RADIAN;
      case REVOLUTIONS =>
        input := value * DEGREES_PER_REV;
    }
    assert input == value * DegreesPer(inputUnits);

    match outputUnits {
      case DEGREES =>
        output := input;
      case RADIANS =>
        output := input * RADIANS_PER_DEGREE;
      case REVOLUTIONS =>
        output := input / DEGREES_PER_REV;
    }
  }

  /** Integer part of `x`, rounded toward zero: the `(int)` cast of C++. */
  function Trunc(x: real): (n: int)
    ensures x >= 0.0 ==> 0 <= n && n as real <= x < n as real + 1.0
    ensures x < 0.0 ==> n <= 0 && n as real - 1.0 < x <= n as real
  {
    if x >= 0.0 then x.Floor else -((-x).Floor)
  }

  /** `k` whole revolutions, in degrees. */
  function RevolutionDegrees(k: int): real
  {
    k as real * DEGREES_PER_REV
  }

  /** `d` degrees is a whole number of revolutions. */
  ghost predicate IsWholeRevolutions(d: real)
  {
    exists k: int :: RevolutionDegrees(k) == d
  }

  /** The derived constants: half a revolution is 180 degrees, and the two
      radian factors are reciprocal. */
  lemma ConversionConstants()
    ensures DEGREES_HALF_REV == 180.0
    ensures RADIANS_PER_DEGREE * DEGREES_PER_RADIAN == 1.0
    ensures RADIANS_PER_REV == DEGREES_PER_REV * RADIANS_PER_DEGREE
  {
  }

  /** Converting to the same unit changes nothing. */
  lemma ConvertIdentity(value: real, units: AngleUnits)
    ensures Converted(value, units, units) == value
  {
  }

  /** Converting to another unit and back returns the original value. */
  lemma ConvertRoundTrip(value: real, a: AngleUnits, b: AngleUnits)
    ensures Converted(Converted(value, a, b), b, a) == value
  {
  }

  /** Converting through an intermediate unit is the same as converting
      directly, so routing every conversion through degrees loses nothing. */
  lemma ConvertThrough(value: real, a: AngleUnits, b: AngleUnits, c: AngleUnits)
    ensures Converted(Converted(value, a, b), b, c) == Converted(value, a, c)
  {
  }

  /** Degrees to revolutions divides by 360, revolutions to degrees
      multiplies by 360, and radians use 180 / PI; 450 DEGREES is 1.25 REVOLUTIONS. */
  lemma ConvertFactors(value: real)
    ensures Converted(value, DEGREES, REVOLUTIONS) == value / 360.0
    ensures Converted(value, REVOLUTIONS, DEGREES) == value * 360.0
    ensures Converted(value, RADIANS, DEGREES) == value * 180.0 / PI
    ensures Converted(value, DEGREES, RADIANS) == value * PI / 180.0
    ensures Converted(450.0, DEGREES, REVOLUTIONS) == 1.25
    ensures Converted(PI, RADIANS, DEGREES) == 180.0
  {
  }
}
