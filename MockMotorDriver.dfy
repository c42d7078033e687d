/**
 * The mock stepper-motor driver for the X, Y and Z axes: a position dictionary that move_to walks
 * toward the target one fixed step at a time, storing each intermediate position rounded to four
 * decimals. The per-step sleep is not modelled.
 */
module MockMotorDriver {
  import opened Results

  /** Micrometres per motor step. */
  const StepSize: real := 0.1

  const AxisNames: set<string> := {"x", "y", "z"}

  function Origin(): (p: map<string, real>)
    ensures p.Keys == AxisNames
    ensures forall a :: a in p ==> p[a] == 0.0
  {
    map["x" := 0.0, "y" := 0.0, "z" := 0.0]
  }

  function Abs(r: real): (a: real)
    ensures a >= 0.0 && (a == r || a == -r)
  {
    if r < 0.0 then -r else r
  }

  /** Round half to even, as Python's round() does on an exact tie. */
  function RoundHalfEven(r: real): (n: int)
    ensures -0.5 <= r - n as real <= 0.5
  {
    var f := r.Floor;
    var frac := r - f as real;
    if frac < 0.5 then f
    else if frac > 0.5 then f + 1
    else if f % 2 == 0 then f
    else f + 1
  }

  /** round(x, 4): the nearest multiple of 1/10000. */
  function Round4(x: real): (y: real)
    ensures -0.00005 <= x - y <= 0.00005
  {
    RoundHalfEven(x * 10000.0) as real / 10000.0
  }

  /** A value that is already a multiple of 1/10000 is left as it is. */
  lemma Round4Idempotent(x: real)
    ensures Round4(Round4(x)) == Round4(x)
  {
    var n := RoundHalfEven(x * 10000.0);
    assert Round4(x) * 10000.0 == n as real;
    assert (n as real).Floor == n;
  }

  /** +1 toward a larger target, otherwise -1. */
  function Direction(start: real, target: real): real {
    if target > start then 1.0 else -1.0
  }

  /** int(abs(target - current) / step_size): the number of whole steps that fit. */
  function StepCount(start: real, target: real): nat {
    (Abs(target - start) / StepSize).Floor
  }

  /** The unrounded cursor after k steps. */
  function Waypoint(start: real, target: real, k: nat): real {
    start + (k as real) * Direction(start, target) * StepSize
  }

  /** Every step the loop takes stays between the start and the target. */
  lemma WaypointBetween(start: real, target: real, k: nat)
    requires k <= StepCount(start, target)
    ensures start <= target ==> start <= Waypoint(start, target, k) <= target
    ensures target <= start ==> target <= Waypoint(start, target, k) <= start
  {
    var d := Abs(target - start);
    assert (k as real) <= d / StepSize;
    assert (k as real) * StepSize <= d;
  }

  /** The last step lands less than one step short of the target. */
  lemma LastWaypointNearTarget(start: real, target: real)
    ensures Abs(target - Waypoint(start, target, StepCount(start, target))) < StepSize
  {
    var d := Abs(target - start);
    var n := StepCount(start, target);
    assert d / StepSize < (n as real) + 1.0;
    assert d < (n as real) * StepSize + StepSize;
    WaypointBetween(start, target, n);
  }

  class MockMotorDriver {
    var position: map<string, real>

    /** The dictionary always holds exactly the axes x, y and z. */
    ghost predicate Valid()
      reads this
    {
      position.Keys == AxisNames
    }

    /** A new driver has every axis at 0.0. */
    constructor ()
      ensures Valid() && position == Origin()
    {
      position := Origin();
    }

    /**
     * move_to(axis, target): ValueError for an unknown axis, changing nothing. Otherwise the axis
     * passes through the rounded waypoints, returned in path, and ends at round(target, 4); the
     * other axes keep their values.
     */
    method MoveTo(axis: string, target: real) returns (r: Result<(), PyError>, ghost path: seq<real>)
      requires Valid()
      modifies this
      ensures Valid()
      ensures axis !in AxisNames ==> r == Err(ValueError) && position == old(position)
      ensures axis in AxisNames ==> r == Ok(()) && position == old(position)[axis := Round4(target)]
      ensures axis in AxisNames ==>
                var start := old(position)[axis];
                |path| == StepCount(start, target) &&
                forall k :: 0 <= k < |path| ==> path[k] == Round4(Waypoint(start, target, k + 1))
    {
      path := [];
      if axis !in position {
        return Err(ValueError), path;
      }
      var start := position[axis];
      var current := start;
      var direction := if target > current then 1.0 else -1.0;
      var steps := (Abs(target - current) / StepSize).Floor;
      var i := 0;
      while i < steps
        invariant 0 <= i <= steps
        invariant current == Waypoint(start, target, i)
        invariant |path| == i
        invariant forall k :: 0 <= k < i ==> path[k] == Round4(Waypoint(start, target, k + 1))
        invariant position == old(position)[axis := if i == 0 then start else path[i - 1]]
      {
        current := current + direction * StepSize;
        position := position[axis := Round4(current)];
        path := path + [Round4(current)];
        i := i + 1;
      }
      position := position[axis := Round4(target)];
      r := Ok(());
    }

    /** get_position(): a copy of the dictionary; a map is a value, so the caller cannot alias it. */
    method GetPosition() returns (p: map<string, real>)
      ensures p == position
    {
      p := position;
    }

    /** reset_position(): every axis back to 0.0. */
    method ResetPosition()
      modifies this
      ensures Valid() && position == Origin()
    {
      position := Origin();
    }
  }
}
