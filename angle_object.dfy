/** The Angle object as a piece of state: its one field holds degrees, and
    `Set` is the only operation that overwrites it. Every other operation
    reads the field as a value (see `Snapshot`) and builds a new Angle. */
module AngleObjects {
  import opened Units
  import opened Angles

  class AngleObject {
    var valueDeg: real

    /** The value this object currently holds. */
    function Snapshot(): (a: Angle)
      reads this
      ensures a.valueDeg == valueDeg
    {
      Angle(valueDeg)
    }

    /** The default constructor, as documented: the angle 0. */
    constructor Default()
      ensures Snapshot() == Zero()
    {
      valueDeg := 0.0;
    }

    /** The angle `value` measured in `units`; delegates to `Set`. */
    constructor (value: real, units: AngleUnits)
      ensures Snapshot() == FromUnits(value, units)
      ensures Snapshot().Value(units) == value
    {
      valueDeg := 0.0;
      new;
      Set(value, units);
    }

    /** Overwrites the stored angle with `value` measured in `units`,
        converted to degrees; reading it back in `units` gives `value`. */
    method Set(value: real, units: AngleUnits)
      modifies this
      ensures Snapshot() == FromUnits(value, units)
      ensures Snapshot().Value(units) == value
    {
      valueDeg := ConvertAngleUnits(value, units, BASE_UNITS);
    }
  }
}
