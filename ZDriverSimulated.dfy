/** The simulated Z-axis driver: a single position, overwritten by every move. */
module ZDriverSimulated {

  class SimulatedZDriver {
    var position: real

    /** A new driver starts at 0.0. */
    constructor ()
      ensures position == 0.0
    {
      position := 0.0;
    }

    /** move_to(z): the position becomes z (the simulated delay is not modelled). */
    method MoveTo(z: real)
      modifies this
      ensures position == z
    {
      position := z;
    }

    /** get_position(): the last commanded position. */
    method GetPosition() returns (p: real)
      ensures p == position
    {
      p := position;
    }

    /** close(): there is nothing to close, so nothing changes. */
    method Close()
      ensures unchanged(this)
    {
    }
  }
}
