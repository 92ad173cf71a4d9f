/** The raw detection record (Signal.java): a mutable object whose three
    measured fields are read and written through getters and setters. */
module Signals {

  /** The three measured values of a signal, as one immutable value (the
      arguments of the three-argument constructor). */
  datatype Reading = Reading(direction: int, frequency: real, strength: int)

  class Signal {
    /** Persistence identifier, assigned by the store; no setter. */
    var id: int
    /** Bearing in degrees; documented as 0-360 but never checked. */
    var direction: int
    /** Frequency; only ever compared against constants, so exact reals stand in for doubles. */
    var frequency: real
    /** Strength; documented as 1-10 but never checked. */
    var strength: int

    /** The no-argument constructor: every field keeps its Java default. */
    constructor Empty()
      ensures id == 0 && direction == 0 && frequency == 0.0 && strength == 0
    {
      id, direction, frequency, strength := 0, 0, 0.0, 0;
    }

    /** The three-argument constructor stores its arguments as given, with no
        range validation. */
    constructor (direction: int, frequency: real, strength: int)
      ensures this.direction == direction && this.frequency == frequency && this.strength == strength
      ensures id == 0
    {
      id := 0;
      this.direction, this.frequency, this.strength := direction, frequency, strength;
    }

    function GetDirection(): int
      reads this
    {
      direction
    }

    function GetFrequency(): real
      reads this
    {
      frequency
    }

    function GetStrength(): int
      reads this
    {
      strength
    }

    method SetDirection(direction: int)
      modifies this
      ensures GetDirection() == direction
      ensures GetFrequency() == old(GetFrequency()) && GetStrength() == old(GetStrength()) && id == old(id)
    {
      this.direction := direction;
    }

    method SetFrequency(frequency: real)
      modifies this
      ensures GetFrequency() == frequency
      ensures GetDirection() == old(GetDirection()) && GetStrength() == old(GetStrength()) && id == old(id)
    {
      this.frequency := frequency;
    }

    method SetStrength(strength: int)
      modifies this
      ensures GetStrength() == strength
      ensures GetDirection() == old(GetDirection()) && GetFrequency() == old(GetFrequency()) && id == old(id)
    {
      this.strength := strength;
    }
  }
}
