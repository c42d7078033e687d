/**
 * The contract every motion backend of the microscope promises (connect, disconnect, home,
 * move_to, get_state, emergency_stop). The source declares it as an abstract base class with no
 * bodies; here the promises are stated as predicates over the axis state of the machine, and the
 * G-code backend is proved to meet them (module Gcode).
 */
module MotionBackend {
  import opened Results

  /** Where the machine holds its three axes, and the last feed rate it was given. */
  datatype Axes = Axes(x: real, y: real, z: real, feedrate: real)

  /** One coordinate of move_to: None keeps the previous value, a number is the new absolute value. */
  ghost predicate Targets(before: real, after: real, arg: Option<real>) {
    match arg
    case None => after == before
    case Some(v) => after == v
  }

  /** move_to(x=, y=, z=, feedrate=) moves to an absolute position; any axis given as None stays. */
  ghost predicate HonoursMoveTo(before: Axes, after: Axes,
                                x: Option<real>, y: Option<real>, z: Option<real>, feedrate: Option<real>)
  {
    && Targets(before.x, after.x, x)
    && Targets(before.y, after.y, y)
    && Targets(before.z, after.z, z)
    && Targets(before.feedrate, after.feedrate, feedrate)
  }

  /** home() homes all relevant axes: every axis is at its home position, the origin. */
  ghost predicate HomedAll(before: Axes, after: Axes) {
    after.x == 0.0 && after.y == 0.0 && after.z == 0.0 && after.feedrate == before.feedrate
  }
}
