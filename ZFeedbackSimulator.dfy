/**
 * The PID-style Z-feedback simulator: proportional, integral and derivative terms accumulate into
 * the Z position. The integral is unbounded (there is no anti-windup).
 */
module ZFeedbackSimulator {
  import opened Results

  const DefaultKp: real := 1.2
  const DefaultKi: real := 0.05
  const DefaultKd: real := 0.01

  /** Gains, setpoint and the three state variables of the regulator. */
  datatype PidState = PidState(kp: real, ki: real, kd: real, setpoint: real,
                               zPosition: real, lastError: real, integral: real)

  /**
   * One update: error, integral, derivative, then the corrected position. Only the three state
   * variables change; the stored error is the new one and the integral has grown by it.
   */
  function PidUpdate(s: PidState, measured: real): (t: PidState)
    ensures t.kp == s.kp && t.ki == s.ki && t.kd == s.kd && t.setpoint == s.setpoint
    ensures t.lastError == s.setpoint - measured
    ensures t.integral == s.integral + t.lastError
  {
    var error := s.setpoint - measured;
    var integral := s.integral + error;
    var derivative := error - s.lastError;
    var correction := s.kp * error + s.ki * integral + s.kd * derivative;
    s.(zPosition := s.zPosition + correction, lastError := error, integral := integral)
  }

  /** A sequence of updates, in order. */
  function PidRun(s: PidState, ms: seq<real>): PidState
    decreases |ms|
  {
    if ms == [] then s else PidRun(PidUpdate(s, ms[0]), ms[1..])
  }

  function Cleared(s: PidState): PidState {
    s.(zPosition := 0.0, lastError := 0.0, integral := 0.0)
  }

  function Errors(setpoint: real, ms: seq<real>): (e: seq<real>)
    ensures |e| == |ms|
  {
    if ms == [] then [] else [setpoint - ms[0]] + Errors(setpoint, ms[1..])
  }

  function Sum(e: seq<real>): real {
    if e == [] then 0.0 else e[0] + Sum(e[1..])
  }

  /** The sum of the running sums of e: what the integral term adds up to over a run. */
  function Accumulated(e: seq<real>): real {
    if e == [] then 0.0 else (|e| as real) * e[0] + Accumulated(e[1..])
  }

  function LastOr(e: seq<real>, d: real): real {
    if e == [] then d else e[|e| - 1]
  }

  /** A run only ever changes the three state variables, never the gains or the setpoint. */
  lemma {:induction false} RunKeepsGains(s: PidState, ms: seq<real>)
    ensures var t := PidRun(s, ms);
            t.kp == s.kp && t.ki == s.ki && t.kd == s.kd && t.setpoint == s.setpoint
    decreases |ms|
  {
    if ms != [] {
      RunKeepsGains(PidUpdate(s, ms[0]), ms[1..]);
    }
  }

  /** Running one more update at the end is one more PidUpdate. */
  lemma {:induction false} RunSnoc(s: PidState, ms: seq<real>, m: real)
    ensures PidRun(s, ms + [m]) == PidUpdate(PidRun(s, ms), m)
    decreases |ms|
  {
    if ms == [] {
      assert ms + [m] == [m];
    } else {
      assert (ms + [m])[1..] == ms[1..] + [m];
      RunSnoc(PidUpdate(s, ms[0]), ms[1..], m);
    }
  }

  /** After a run the integral has grown by exactly the sum of the errors: nothing clamps it. */
  lemma {:induction false} RunIntegral(s: PidState, ms: seq<real>)
    ensures PidRun(s, ms).integral == s.integral + Sum(Errors(s.setpoint, ms))
    ensures PidRun(s, ms).lastError == LastOr(Errors(s.setpoint, ms), s.lastError)
    decreases |ms|
  {
    if ms != [] {
      RunIntegral(PidUpdate(s, ms[0]), ms[1..]);
    }
  }

  /**
   * Closed form of a run: the position grows by kp times the summed errors, ki times the summed
   * integrals, and kd times the change of the error (the derivative terms telescope).
   */
  lemma {:induction false} RunPosition(s: PidState, ms: seq<real>)
    ensures var e := Errors(s.setpoint, ms);
            PidRun(s, ms).zPosition
              == s.zPosition + s.kp * Sum(e)
                 + s.ki * ((|ms| as real) * s.integral + Accumulated(e))
                 + s.kd * (LastOr(e, s.lastError) - s.lastError)
    decreases |ms|
  {
    if ms != [] {
      var e := Errors(s.setpoint, ms);
      var s' := PidUpdate(s, ms[0]);
      var rest := Errors(s.setpoint, ms[1..]);
      RunPosition(s', ms[1..]);
      assert e == [e[0]] + rest;
      assert LastOr(rest, e[0]) == LastOr(e, s.lastError);
      StepAlgebra(s.zPosition, s.kp, s.ki, s.kd, s.integral, s.lastError, e[0],
                  Sum(rest), Accumulated(rest), LastOr(e, s.lastError), |ms| as real);
    }
  }

  /**
   * The arithmetic of one inductive step of RunPosition: one update of z followed by the closed
   * form of the rest of the run is the closed form of the whole run.
   */
  lemma StepAlgebra(z: real, kp: real, ki: real, kd: real, i: real, l: real, e0: real,
                    sum: real, acc: real, last: real, n: real)
    ensures (z + (kp * e0 + ki * (i + e0) + kd * (e0 - l)))
              + kp * sum + ki * ((n - 1.0) * (i + e0) + acc) + kd * (last - e0)
            == z + kp * (e0 + sum) + ki * (n * i + (n * e0 + acc)) + kd * (last - l)
  {
    assert ki * (i + e0) + ki * ((n - 1.0) * (i + e0) + acc) == ki * (n * (i + e0) + acc);
    assert n * (i + e0) == n * i + n * e0;
    assert kp * e0 + kp * sum == kp * (e0 + sum);
    assert kd * (e0 - l) + kd * (last - e0) == kd * (last - l);
  }

  /** After reset with setpoint 0, update(0) returns 0 and leaves every state variable at zero. */
  lemma ResetThenZero(s: PidState)
    requires s.setpoint == 0.0
    ensures PidUpdate(Cleared(s), 0.0) == Cleared(s)
    ensures PidUpdate(Cleared(s), 0.0).zPosition == 0.0
  {
  }

  /** With a constant error the integral grows linearly without bound (no anti-windup). */
  lemma {:induction false} ConstantErrorWindsUp(s: PidState, m: real, n: nat)
    ensures PidRun(s, seq(n, _ => m)).integral == s.integral + (n as real) * (s.setpoint - m)
    decreases n
  {
    if n > 0 {
      var ms := seq(n, _ => m);
      assert ms[1..] == seq(n - 1, _ => m);
      ConstantErrorWindsUp(PidUpdate(s, m), m, n - 1);
      RunKeepsGains(PidUpdate(s, m), seq(n - 1, _ => m));
    }
  }

  class ZFeedbackSimulator {
    var kp: real
    var ki: real
    var kd: real
    var setpoint: real
    var zPosition: real
    var lastError: real
    var integral: real

    ghost function State(): PidState
      reads this
    {
      PidState(kp, ki, kd, setpoint, zPosition, lastError, integral)
    }

    /** The defaults are kp 1.2, ki 0.05, kd 0.01 and setpoint 0.0; the state starts at zero. */
    constructor (kp: real, ki: real, kd: real, setpoint: real)
      ensures State() == PidState(kp, ki, kd, setpoint, 0.0, 0.0, 0.0)
    {
      this.kp, this.ki, this.kd, this.setpoint := kp, ki, kd, setpoint;
      zPosition, lastError, integral := 0.0, 0.0, 0.0;
    }

    /** reset(): zeroes the position, the last error and the integral; gains and setpoint stay. */
    method Reset()
      modifies this
      ensures State() == Cleared(old(State()))
    {
      zPosition := 0.0;
      lastError := 0.0;
      integral := 0.0;
    }

    /** update(measured): one PID iteration; returns the new Z position. */
    method Update(measured: real) returns (z: real)
      modifies this
      ensures State() == PidUpdate(old(State()), measured)
      ensures z == zPosition
    {
      var error := setpoint - measured;
      integral := integral + error;
      var derivative := error - lastError;
      var correction := kp * error + ki * integral + kd * derivative;
      zPosition := zPosition + correction;
      lastError := error;
      z := zPosition;
    }

    /** set_pid(kp=, ki=, kd=): replaces only the gains that are given. */
    method SetPid(kp: Option<real>, ki: Option<real>, kd: Option<real>)
      modifies this
      ensures State() == old(State()).(kp := kp.GetOr(old(this.kp)), ki := ki.GetOr(old(this.ki)),
                                       kd := kd.GetOr(old(this.kd)))
    {
      if kp.Some? {
        this.kp := kp.value;
      }
      if ki.Some? {
        this.ki := ki.value;
      }
      if kd.Some? {
        this.kd := kd.value;
      }
    }

    /** set_setpoint(value): replaces only the setpoint. */
    method SetSetpoint(value: real)
      modifies this
      ensures State() == old(State()).(setpoint := value)
    {
      setpoint := value;
    }
  }
}
