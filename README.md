# Angle: a verified model

This project models the `Angle` value type of the C++ *Angle class library*.
An `Angle` stores one number, `valueDeg`, always in degrees. It may be
negative or larger than a revolution. Around that number the library defines:

- `convertAngleUnits`, a conversion between DEGREES, RADIANS and REVOLUTIONS
  that takes a shortcut when both units are the same and otherwise goes
  through degrees;
- arithmetic (`add`, `subtract`, unary minus, `multiplyBy`, `divideBy`);
- reductions that strip whole revolutions (`revolutions`, `finalAngle`,
  `final_positive`, `final_negative`, `final_closerDirection`);
- operations built on those reductions (`flipDirection`, `reverse`,
  `closerPositive`, `closerNegative`);
- exact comparisons.

`double` is modelled as Dafny `real`, so every conversion and every round trip
is exact. `PI` is the library's decimal constant, taken as an exact rational.
The `(int)` cast is `Units.Trunc`, which rounds toward zero.

Files:

- `units.dfy` (module `Units`) holds the unit enumeration, the conversion
  constants and the reference conversion `Converted`. It also holds
  `ConvertAngleUnits`, the conversion routine written as the library writes it
  (an early return, then two switches into locals). That routine is proved
  equal to `Converted`.
- `angle.dfy` (module `Angles`) holds the `Angle` datatype. Every operation is
  a function that returns a new `Angle`, as in the library. The three constant
  angles are here too. So are the corrected versions of the operations whose
  code does not match its documentation (see "Findings").
- `angle_object.dfy` (module `AngleObjects`) holds a class with the one field
  the library's object has. It models the constructors and `set`, the only
  operation that overwrites the field.
- `angle_properties.dfy` (module `AngleProperties`) holds the lemmas: the
  header's worked examples, algebraic laws, the fact that each reduction gives
  the unique representative in its range, and lemmas that show where the code
  departs from its documentation.

Two angles point the same way (`Angles.Coterminal`) when their difference is
a whole number of revolutions (`Units.IsWholeRevolutions`).

## Model

| member | source | states |
|---|---|---|
| `Units.DegreesPer` | Angle.cpp:228-238 | the degrees in one unit of each kind are positive, and equal 1 only for DEGREES |
| `Units.Converted` | Angle.cpp:218-255 | a converted value measures the same number of degrees in the output unit as the input measures in the input unit |
| `Units.ConvertAngleUnits` | Angle.cpp:218-255 | the routine with its identity shortcut and two switches returns exactly the input when the units agree, and `Converted` otherwise |
| `Units.Trunc` | Angle.cpp:188 | the `(int)` cast rounds toward zero: the result has the argument's sign and lies within one unit of it, on the side of zero |
| `Units.ConversionConstants` | Angle.h:49-54 | `DEGREES_HALF_REV` is 180, `RADIANS_PER_DEGREE * DEGREES_PER_RADIAN` is 1, and a revolution is `2 * PI` radians |
| `Units.ConvertIdentity` | Angle.cpp:224 | converting a value to its own unit returns it unchanged, for every unit |
| `Units.ConvertRoundTrip` | Angle.cpp:228-251 | converting to any unit and back returns the original value |
| `Units.ConvertThrough` | Angle.cpp:218-255 | converting through an intermediate unit equals converting directly, so routing through degrees loses nothing |
| `Units.ConvertFactors` | Angle.h:28-29 | degrees to revolutions divides by 360 and back multiplies by 360; radians use 180/PI; 450 DEGREES is 1.25 REVOLUTIONS |
| `Angles.FromUnits` | Angle.cpp:14-16 | an Angle built from a value in some unit reads back as that value in that unit, and stores the value times that unit's degrees |
| `Angles.Zero` | Angle.h:59-60 | the default angle stores 0 degrees |
| `Angles.Angle.Value` | Angle.cpp:135-137 | the value read in a unit, times that unit's degrees, is the stored degrees |
| `Angles.Angle.Add` | Angle.cpp:32-34 | the sum stores the sum of the two degree values, with no normalisation |
| `Angles.Angle.AddIn` | Angle.cpp:27-30 | adding a value in a unit raises the angle's reading in that unit by exactly that value |
| `Angles.Angle.AddDefault` | Angle.cpp:23-25 | adding a bare number adds that many degrees (the default unit is DEGREES) |
| `Angles.Angle.Subtract` | Angle.cpp:36-38 | the difference, added back to the subtrahend, gives the original angle |
| `Angles.Angle.Negate` | Angle.cpp:87-89 | unary minus gives the additive inverse: added to the angle it gives the zero angle |
| `Angles.Angle.MultiplyBy` | Angle.cpp:202-204 | the product stores the degrees times the multiplier |
| `Angles.Angle.DivideBy` | Angle.cpp:192-194 | dividing by a nonzero number is undone by multiplying by it |
| `Angles.Angle.DivideByAngle` | Angle.cpp:198-200 | the ratio times the divisor's degrees gives the dividend's degrees |
| `Angles.Angle.Equals` | Angle.cpp:52-55 | `equals` (and `operator==`) holds exactly when the two angles store the same degrees, with no reduction |
| `Angles.Angle.NotEquals` | Angle.cpp:95-97 | `operator!=` holds exactly when the two angles store different degrees |
| `Angles.Angle.Less` | Angle.cpp:103-105 | `operator<` holds exactly when this angle's degrees are numerically below the other's |
| `Angles.Angle.Greater` | Angle.cpp:99-101 | `operator>` as written is false for every pair of angles |
| `Angles.Angle.Revolutions` | Angle.cpp:186-190 | the whole revolutions are the degrees over 360 truncated toward zero: n·360 ≤ v < (n+1)·360 for v ≥ 0, and (n−1)·360 < v ≤ n·360 for v < 0 |
| `Angles.Angle.FinalAngle` | Angle.cpp:157-160 | the final angle is the input minus its whole revolutions times 360; its magnitude is below 360; it is zero or has the input's sign |
| `Angles.Angle.FinalPositive` | Angle.cpp:170-176 | the result lies in [0, 360) and points the way the input does |
| `Angles.Angle.FinalNegative` | Angle.cpp:178-184 | the result lies in (-360, 0] and points the way the input does |
| `Angles.Angle.FinalCloserDirection` | Angle.cpp:162-168 | as written the result lies in [0, 360), not the documented (-180, 180], and points the way the input does |
| `Angles.Angle.CloserPositive` | Angle.cpp:40-44 | as written it holds exactly when the two angles point different ways |
| `Angles.Angle.CloserNegative` | Angle.cpp:46-50 | as written it never holds |
| `Angles.Angle.AtLeast` | Angle.cpp:107-109 | `operator>=` holds exactly when the two angles point different ways; it is not a numeric comparison |
| `Angles.Angle.AtMost` | Angle.cpp:111-113 | `operator<=` never holds |
| `Angles.Angle.FlipDirection` | Angle.cpp:57-64 | the result points the way the input does; a positive input gives a value in (-360, 0], any other input a value in [0, 360) |
| `Angles.Angle.Reverse` | Angle.cpp:66-69 | the result points half a revolution away from the input, and as written lies in [0, 360) |
| `Angles.Angle.PerpendicularPositive` | Angle.cpp:71-73 | the result is exactly 90 degrees more than the input |
| `Angles.Angle.PerpendicularNegative` | Angle.cpp:75-77 | the result is exactly 90 degrees less than the input |
| `Angles.Angle.DegreesMinutesSeconds` | Angle.cpp:139-145 | degrees·3600 + minutes·60 + seconds is the angle in seconds; minutes and seconds lie below 60 in magnitude and carry the angle's sign (over unbounded integers; see "Left out") |
| `Angles.Angle.FinalCloserDirectionCorrected` | Angle.h:107-110 | the documented reduction lies in (-180, 180] and points the way the input does |
| `Angles.Angle.CloserPositiveCorrected` | Angle.h:111-112 | with the documented reduction, it holds exactly when the difference `this - other` points the way some value in (0, 180] does, i.e. the shorter rotation is positive; then the angles point different ways |
| `Angles.Angle.CloserNegativeCorrected` | Angle.h:113-114 | with the documented reduction, it holds exactly when the difference `this - other` points the way some value in (-180, 0) does, i.e. the shorter rotation is negative; then the angles point different ways and the positive test fails |
| `Angles.Angle.ReverseCorrected` | Angle.h:81-82 | the documented reverse lies in (-180, 180] and points half a revolution away from the input |
| `Angles.Angle.GreaterCorrected` | Angle.h:134-137 | `a > b` holds exactly when `b < a` |
| `Angles.Angle.EquivalentTo` | Angle.h:129-131 | the documented `==` holds exactly when the angles differ by whole revolutions |
| `Angles.CoterminalClose` | Angle.cpp:170-184 | two values that point the same way and are less than a revolution apart are equal |
| `Angles.ReducedSign` | Angle.cpp:40-50 | a reduction into (-180, 180] is positive exactly when the value points the way something in (0, 180] does, and negative exactly when it points the way something in (-180, 0) does |
| `Angles.FinalPositiveCanonical` | Angle.cpp:170-176 | two angles have the same final positive angle exactly when they point the same way |
| `AngleObjects.AngleObject.Default` | Angle.cpp:10-12 | the default constructor yields the zero angle (the documented intent; see "Left out") |
| `AngleObjects.AngleObject.constructor` | Angle.cpp:14-16 | the object built from a value and a unit holds `FromUnits(value, units)` and reads back as the value in that unit |
| `AngleObjects.AngleObject.Set` | Angle.cpp:19-21 | `set` overwrites the stored angle with the converted value, which reads back as the value in the given unit |
| `AngleProperties.ConstantAngles` | Angle.h:184-189 | the constant angles store exactly 360, 180 and 90 degrees, and the full one is 1 revolution |
| `AngleProperties.RevolutionsExamples` | Angle.cpp:186-190 | 360 degrees is 1 revolution, -630 is -1, and 359 is 0 |
| `AngleProperties.FinalAngleExamples` | Angle.h:96-100 | 630 reduces to 270, -630 to -270, and 360 to 0 |
| `AngleProperties.FinalPositiveNegativeExamples` | Angle.h:101-106 | the positive final angle of -450 is 270, and the negative final angle of 450 is -270 |
| `AngleProperties.FinalCloserDirectionExample` | Angle.h:107-110 | -630 reduces to 90, both as written and with the documented reduction |
| `AngleProperties.FlipDirectionExamples` | Angle.h:77-80 | 45 flips to -315, and -435 flips to 285 |
| `AngleProperties.ArithmeticExamples` | Angle.cpp:71-77 | the perpendiculars of 90 are 180 and 0, and 90 divided by 45 is 2 |
| `AngleProperties.AddLaws` | Angle.cpp:32-38 | addition is commutative and associative; subtraction adds the negation; negation is an involution; subtracting undoes adding |
| `AngleProperties.AddInDegrees` | Angle.cpp:27-30 | adding a value in a unit adds that value times the unit's degrees |
| `AngleProperties.PerpendicularLaws` | Angle.cpp:71-77 | the two perpendiculars undo each other, and four positive quarter turns point the way the angle started |
| `AngleProperties.DivideByAngleAnyUnit` | Angle.cpp:198-200 | the ratio of two angles is the same whichever unit both are read in |
| `AngleProperties.RevolutionsOfRevolutions` | Angle.cpp:186-190 | an angle built from a value in revolutions has that value, truncated toward zero, as its whole revolutions |
| `AngleProperties.FinalNegativeCanonical` | Angle.cpp:178-184 | two angles have the same final negative angle exactly when they point the same way |
| `AngleProperties.ReductionsIdempotent` | Angle.cpp:157-184 | applying `finalAngle`, `final_positive` or `final_negative` a second time changes nothing |
| `AngleProperties.FinalPositiveMinusNegative` | Angle.cpp:170-184 | the positive and negative final angles are exactly 360 apart, or both 0 for a whole number of revolutions |
| `AngleProperties.FlipTwice` | Angle.cpp:57-64 | flipping twice gives the final angle on the side the angle started on |
| `AngleProperties.FinalCloserDirectionIsFinalPositive` | Angle.cpp:162-168 | as written, `final_closerDirection` equals `final_positive` for every angle |
| `AngleProperties.FinalCloserDirectionOutOfRange` | Angle.cpp:164-165 | 270 reduces to 270 as written, but to -90 with the documented reduction |
| `AngleProperties.FinalCloserDirectionCorrectedCanonical` | Angle.h:107-110 | two angles have the same documented reduction exactly when they point the same way |
| `AngleProperties.ReverseOutOfRange` | Angle.cpp:66-69 | as written the reverse of 45 is 225; the documented reverse is -135 |
| `AngleProperties.CloserAsWritten` | Angle.cpp:40-50 | as written `closerPositive` and `closerNegative` are never both true, and `closerPositive` is symmetric in its two angles |
| `AngleProperties.CloserNegativeExample` | Angle.cpp:46-50 | for 0 against 90 the reduced difference is -90: `closerNegative` is false as written and true with the documented reduction |
| `AngleProperties.CloserCorrectedTrichotomy` | Angle.h:111-114 | with the documented reduction, exactly one direction is closer when the angles point different ways, and neither when they point the same way |
| `AngleProperties.CloserCorrectedAntisymmetric` | Angle.h:111-114 | with the documented reduction, unless the angles are half a revolution apart, `a` is closer positive to `b` exactly when `b` is closer negative to `a` |
| `AngleProperties.OppositeReductions` | Angle.h:107-110 | the reductions into (-180, 180] of a value and of its negation are negatives of each other, unless the value points at 180 |
| `AngleProperties.GreaterAsWritten` | Angle.cpp:99-105 | `operator>` says 2 > 1 is false; the corrected `>` says it is true and is the converse of `<` |
| `AngleProperties.ComparisonTrichotomy` | Angle.cpp:91-105 | exactly one of `<`, `==` and the corrected `>` holds; `==` is equality of angles and `!=` its negation |
| `AngleProperties.EqualsIsExact` | Angle.cpp:52-55 | 270 and -450 are not `equals`, although they are equivalent, as are 270 and -90 |
| `AngleProperties.EquivalentToIsEquivalence` | Angle.h:129-131 | the documented equivalence is reflexive, symmetric and transitive, and exact equality implies it |

## Left out

- Trigonometry is not modelled: `sin`, `cos`, `tan`, `arcsin`, `arccos`, both `arctan` overloads and `angleToCoordinate` call the C maths library on floating point.
- The text of `value_degsMinsSecs` is not modelled: it depends on `std::to_string` of a double, and it prints the numeric code of `char 167` rather than a degree sign. Only its degree, minute and second parts are modelled, by `Angles.Angle.DegreesMinutesSeconds`.
- IEEE-754 behaviour is not modelled: rounding, NaN, infinities, and overflow of the `(int)` cast in `revolutions` for angles beyond the `int` range. Values are exact reals and `Revolutions` returns an unbounded integer.
- Angles.Angle.DegreesMinutesSeconds: the whole degrees, whole minutes and the products `degs * 60` and `degs * 3600` are C++ `int` values, which overflow once the angle reaches 596524 degrees in magnitude (`degs * 3600` passes the `int` maximum); the model's integers are unbounded, so its contract holds for every angle while the library's seconds are meaningless beyond that bound.
- Angles.Angle.DivideBy: requires a nonzero denominator, because a zero denominator gives an infinity or NaN, which reals do not have.
- Angles.Angle.DivideByAngle: requires a divisor angle other than zero, for the same reason.
- AngleObjects.AngleObject.Default: models the documented angle 0. The code constructs a temporary `Angle(0, DEGREES)` and discards it, which leaves the field uninitialised.
- `Default_Angle_Units` is used by `add(double)` and `divideBy(Angle)`, but its declaration is commented out. The no-argument `value()` used by `flipDirection` has its definition commented out too. The model uses DEGREES in each place. For `flipDirection` this changes nothing, because every conversion factor is positive.
- The operators that only forward to a named member are modelled by that member: `+` by `Add`, binary `-` by `Subtract`, `==` by `Equals`, `!=` by `NotEquals`, `!` by `Reverse`, `*` by `MultiplyBy`, `/` by `DivideBy` and `DivideByAngle`.
- The commented-out one-argument constructor and `set(double)` are not part of the library and are not modelled.
- The header describes `operator>` as "the second angle is strictly greater than the first" and `operator<` as "the second angle is strictly less than the first". Read literally, each is the reverse of what the code of `operator<` computes (this angle below the other). The model follows the code and the usual C++ reading of `a < b` and `a > b`, in `Less` and in `GreaterCorrected`.
- `closerPositive` and `closerNegative` reduce `this - other`, so they report the direction of the rotation from `other` to `this`. Their header comments can be read as the opposite rotation. The model keeps the code's direction, including in the corrected members.
- `final_closerDirection` subtracts half a revolution and drops the result. The corrected member subtracts a full revolution instead. Keeping the half-revolution subtraction would give values in [0, 180], not the documented (-180, 180].

## Findings

| source | as written | input that shows it | evidently intended | confidence | as-written member | corrected member |
|---|---|---|---|---|---|---|
| Angle.cpp:162-168 | the result of `output.subtract(HALF_REV_ANGLE)` is dropped, so `final_closerDirection` returns `final_positive`, in [0, 360) | 270° reduces to 270° | reduce into (-180, 180] by subtracting a full revolution: 270° gives -90° | high; not executed | `AngleProperties.FinalCloserDirectionOutOfRange` | `Angles.Angle.FinalCloserDirectionCorrected` |
| Angle.cpp:66-69 | `reverse` inherits that range, [0, 360), against Angle.h:81 | 45° reverses to 225° | a result in (-180, 180]: -135° | high; not executed | `AngleProperties.ReverseOutOfRange` | `Angles.Angle.ReverseCorrected` |
| Angle.cpp:46-50 | `closerNegative` (and `operator<=`) can never hold, since the reduction never goes below zero | 0° against 90°: the difference -90° reduces to 270°, so the result is false | true for a reduced difference in (-180, 0) | high; not executed | `AngleProperties.CloserNegativeExample` | `Angles.Angle.CloserNegativeCorrected` |
| Angle.cpp:99-101 | `operator>` compares `value(BASE_UNITS)` with itself, so it is always false | 2° > 1° is false | compare with `other`, the converse of `operator<` | high; not executed | `AngleProperties.GreaterAsWritten` | `Angles.Angle.GreaterCorrected` |
| Angle.cpp:52-55 | `equals` (and `operator==`) compares the stored degrees exactly, against Angle.h:73-75 and Angle.h:129-131 | 270° and -450° are unequal | equal when the angles differ by whole revolutions | medium (the header's intent is clear; exact equality may also be wanted); not executed | `AngleProperties.EqualsIsExact` | `Angles.Angle.EquivalentTo` |
