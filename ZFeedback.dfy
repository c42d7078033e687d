/** A proportional Z-feedback controller that reads and commands a Z driver. */
module ZFeedback {
  import opened ZDriverSimulated

  /** The position one update commands: the driver's position plus gain times (setpoint - measured). */
  function Regulated(prior: real, setpoint: real, gain: real, measured: real): real {
    prior + gain * (setpoint - measured)
  }

  /** At the setpoint there is no correction. */
  lemma AtSetpointHolds(prior: real, setpoint: real, gain: real)
    ensures Regulated(prior, setpoint, gain, setpoint) == prior
  {
  }

  /** With a positive gain the correction moves in the direction of the error. */
  lemma CorrectionFollowsError(prior: real, setpoint: real, gain: real, measured: real)
    requires gain > 0.0
    ensures measured < setpoint ==> Regulated(prior, setpoint, gain, measured) > prior
    ensures measured > setpoint ==> Regulated(prior, setpoint, gain, measured) < prior
  {
  }

  class ZFeedbackController {
    const driver: SimulatedZDriver
    var setpoint: real
    var gain: real

    /** The defaults are setpoint 0.0 and gain 1.0. */
    constructor (driver: SimulatedZDriver, setpoint: real, gain: real)
      ensures this.driver == driver && this.setpoint == setpoint && this.gain == gain
    {
      this.driver, this.setpoint, this.gain := driver, setpoint, gain;
    }

    /** update(measured): commands the driver to the regulated position and returns it. */
    method Update(measured: real) returns (newPosition: real)
      modifies driver
      ensures newPosition == Regulated(old(driver.position), setpoint, gain, measured)
      ensures driver.position == newPosition
    {
      var error := setpoint - measured;
      var correction := gain * error;
      var current := driver.GetPosition();
      newPosition := current + correction;
      driver.MoveTo(newPosition);
    }
  }
}
