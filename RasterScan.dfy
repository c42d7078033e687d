/**
 * The cursor logic the area scan modes share, and the profiling mode's one-dimensional variant.
 * An area cursor moves x by one step; once x reaches the x range it returns to 0 and y moves by
 * one step; once y reaches the y range the scan is done and the cursor is not stored. Every row
 * runs left to right.
 */
module RasterScan {
  import opened Results
  import opened ArrayModel

  type Position = (real, real)

  /** The extent of an area scan and the step on each axis. */
  datatype Area = Area(xRange: real, yRange: real, xStep: real, yStep: real)

  /** The cursor after one perform_step(): the next position, or None when the scan is done. */
  function AreaAdvance(a: Area, pos: Position): (r: Option<Position>)
    ensures r.None? <==> pos.0 + a.xStep >= a.xRange && pos.1 + a.yStep >= a.yRange
    ensures r.Some? && pos.0 + a.xStep < a.xRange ==> r.value == (pos.0 + a.xStep, pos.1)
    ensures r.Some? && pos.0 + a.xStep >= a.xRange ==> r.value == (0.0, pos.1 + a.yStep)
  {
    var x := pos.0 + a.xStep;
    if x >= a.xRange then
      var y := pos.1 + a.yStep;
      if y >= a.yRange then None else Some((0.0, y))
    else
      Some((x, pos.1))
  }

  /** The positions sampled from pos on, one per step, until the scan is done or fuel runs out. */
  function Trace(a: Area, pos: Position, fuel: nat): (t: seq<Position>)
    ensures |t| <= fuel
    ensures fuel > 0 ==> |t| > 0 && t[0] == pos
    decreases fuel
  {
    if fuel == 0 then []
    else
      match AreaAdvance(a, pos)
      case None => [pos]
      case Some(next) => [pos] + Trace(a, next, fuel - 1)
  }

  /** Consecutive positions of a trace are linked by one step each. */
  lemma {:induction false} TraceLinks(a: Area, pos: Position, fuel: nat)
    ensures forall k :: 0 <= k < |Trace(a, pos, fuel)| - 1 ==>
              AreaAdvance(a, Trace(a, pos, fuel)[k]) == Some(Trace(a, pos, fuel)[k + 1])
    decreases fuel
  {
    var adv := AreaAdvance(a, pos);
    if fuel > 0 && adv.Some? {
      var next := adv.value;
      TraceLinks(a, next, fuel - 1);
      var t := Trace(a, pos, fuel);
      var t' := Trace(a, next, fuel - 1);
      assert t == [pos] + t';
      assert forall j :: 0 <= j < |t'| - 1 ==> AreaAdvance(a, t'[j]) == Some(t'[j + 1]);
    }
  }

  /** Steps that divide both ranges into n equal parts, with positive ranges. */
  predicate Uniform(a: Area, n: nat) {
    n >= 1 && a.xRange > 0.0 && a.yRange > 0.0
    && a.xStep == a.xRange / (n as real) && a.yStep == a.yRange / (n as real)
  }

  /** Column j, row i of a uniform grid. */
  function Cursor(a: Area, i: int, j: int): Position {
    ((j as real) * a.xStep, (i as real) * a.yStep)
  }

  /** j steps of size r/n reach r exactly when j >= n. */
  lemma StepsReach(j: int, n: nat, r: real)
    requires n >= 1 && r > 0.0
    ensures (j as real) * (r / (n as real)) >= r <==> j >= n
    ensures 0 <= j ==> 0.0 <= (j as real) * (r / (n as real))
  {
    var s := r / (n as real);
    assert s > 0.0;
    assert (n as real) * s == r;
    assert (j as real) * s - r == ((j - n) as real) * s;
  }

  /** The m-th cell of a row-major walk over n columns. */
  function CursorIndex(a: Area, n: nat, m: int): Position
    requires n >= 1
  {
    Cursor(a, m / n, m % n)
  }

  /** One step from a grid cell, on any grid. */
  lemma AdvanceCursor(a: Area, i: int, j: int)
    ensures AreaAdvance(a, Cursor(a, i, j))
            == if ((j + 1) as real) * a.xStep < a.xRange then Some(Cursor(a, i, j + 1))
               else if ((i + 1) as real) * a.yStep < a.yRange then Some(Cursor(a, i + 1, 0))
               else None
  {
    var pos := Cursor(a, i, j);
    var nx := ((j + 1) as real) * a.xStep;
    var ny := ((i + 1) as real) * a.yStep;
    NextMultiple(j, a.xStep);
    NextMultiple(i, a.yStep);
    assert pos.0 + a.xStep == nx && pos.1 + a.yStep == ny;
    if nx < a.xRange {
      assert Cursor(a, i, j + 1).0 == nx;
      assert Cursor(a, i, j + 1).1 == pos.1;
    } else if ny < a.yRange {
      assert Cursor(a, i + 1, 0).0 == 0.0;
      assert Cursor(a, i + 1, 0).1 == ny;
    }
  }

  lemma NextMultiple(k: int, s: real)
    ensures (k as real) * s + s == ((k + 1) as real) * s
  {
  }

  /** One step on a uniform grid: the next column, or the start of the next row, or done. */
  lemma AreaAdvanceAt(a: Area, n: nat, i: int, j: int)
    requires Uniform(a, n) && 0 <= i < n && 0 <= j < n
    ensures AreaAdvance(a, Cursor(a, i, j))
            == if j + 1 < n then Some(Cursor(a, i, j + 1))
               else if i + 1 < n then Some(Cursor(a, i + 1, 0))
               else None
  {
    AdvanceCursor(a, i, j);
    StepsReach(j + 1, n, a.xRange);
    StepsReach(i + 1, n, a.yRange);
  }

  /**
   * If a trace from the step after pos follows the positions f(k + 1), f(k + 2), ..., the trace
   * from pos = f(k) follows f(k), f(k + 1), ...
   */
  lemma TraceShift(a: Area, pos: Position, next: Position, fuel: nat, rest: nat, k: int, f: int -> Position)
    requires fuel == rest + 1 && AreaAdvance(a, pos) == Some(next) && pos == f(k)
    requires |Trace(a, next, rest)| == rest
    requires forall m :: 0 <= m < rest ==> Trace(a, next, rest)[m] == f(k + 1 + m)
    ensures |Trace(a, pos, fuel)| == fuel
    ensures forall m :: 0 <= m < fuel ==> Trace(a, pos, fuel)[m] == f(k + m)
  {
    var t := Trace(a, pos, fuel);
    var t' := Trace(a, next, rest);
    assert t == [pos] + t';
    forall m | 0 < m < fuel
      ensures t[m] == f(k + m)
    {
      assert t[m] == t'[m - 1];
      assert k + 1 + (m - 1) == k + m;
    }
  }

  /** From cell k = i*n + j on, the scan visits the remaining cells in row-major order. */
  lemma {:induction false} TraceFrom(a: Area, n: nat, nn: nat, i: int, j: int, k: int)
    requires Uniform(a, n) && nn == n * n && 0 <= i < n && 0 <= j < n && k == i * n + j
    requires k < nn
    ensures var t := Trace(a, Cursor(a, i, j), nn - k);
            |t| == nn - k
            && (forall m :: 0 <= m < |t| ==> t[m] == CursorIndex(a, n, k + m))
            && AreaAdvance(a, t[|t| - 1]) == None
    decreases nn - k
  {
    var f := m => CursorIndex(a, n, m);
    var pos := Cursor(a, i, j);
    AreaAdvanceAt(a, n, i, j);
    DivModOf(i, j, n);
    assert pos == f(k);
    if j + 1 < n {
      RowMajorBound(i, j + 1, n, n);
      TraceFrom(a, n, nn, i, j + 1, k + 1);
      TraceShift(a, pos, Cursor(a, i, j + 1), nn - k, nn - k - 1, k, f);
      assert Trace(a, pos, nn - k)[nn - k - 1] == Trace(a, Cursor(a, i, j + 1), nn - k - 1)[nn - k - 2];
    } else if i + 1 < n {
      MulSucc(i, n);
      RowMajorBound(i + 1, 0, n, n);
      TraceFrom(a, n, nn, i + 1, 0, k + 1);
      TraceShift(a, pos, Cursor(a, i + 1, 0), nn - k, nn - k - 1, k, f);
      assert Trace(a, pos, nn - k)[nn - k - 1] == Trace(a, Cursor(a, i + 1, 0), nn - k - 1)[nn - k - 2];
    } else {
      MulSucc(i, n);
      assert nn - k == 1;
      assert Trace(a, pos, nn - k) == [pos];
    }
  }

  /**
   * A scan from (0, 0) on a uniform n-by-n grid samples n*n positions, row by row, each inside the
   * ranges, and the last step reports done.
   */
  lemma FullAreaScan(a: Area, n: nat)
    requires Uniform(a, n)
    ensures var t := Trace(a, (0.0, 0.0), n * n);
            |t| == n * n
            && (forall m :: 0 <= m < |t| ==> t[m] == Cursor(a, m / n, m % n))
            && (forall m :: 0 <= m < |t| ==> 0.0 <= t[m].0 < a.xRange && 0.0 <= t[m].1 < a.yRange)
            && AreaAdvance(a, t[|t| - 1]) == None
  {
    assert Cursor(a, 0, 0) == (0.0, 0.0);
    TraceFrom(a, n, n * n, 0, 0, 0);
    var t := Trace(a, (0.0, 0.0), n * n);
    forall m | 0 <= m < |t|
      ensures t[m] == Cursor(a, m / n, m % n)
      ensures 0.0 <= t[m].0 < a.xRange && 0.0 <= t[m].1 < a.yRange
    {
      assert t[m] == CursorIndex(a, n, 0 + m);
      CursorInside(a, n, m);
    }
  }

  /** A scan from (0, 0) on a uniform n-by-n grid takes n*n steps, the last one reporting done. */
  lemma FullAreaScanEnds(a: Area, n: nat)
    requires Uniform(a, n)
    ensures |Trace(a, (0.0, 0.0), n * n)| == n * n >= 1
    ensures AreaAdvance(a, Trace(a, (0.0, 0.0), n * n)[n * n - 1]).None?
  {
    assert Cursor(a, 0, 0) == (0.0, 0.0);
    TraceFrom(a, n, n * n, 0, 0, 0);
  }

  lemma CursorInside(a: Area, n: nat, m: int)
    requires Uniform(a, n) && 0 <= m < n * n
    ensures 0.0 <= CursorIndex(a, n, m).0 < a.xRange && 0.0 <= CursorIndex(a, n, m).1 < a.yRange
  {
    StepsReach(m % n, n, a.xRange);
    assert m / n < n;
    StepsReach(m / n, n, a.yRange);
  }

  // ---------------------------------------------------------------------------------------
  // Profiling: one axis

  /** The profile cursor after one step: pos + step, or None once it reaches the range. */
  function ProfileAdvance(range: real, step: real, pos: real): (r: Option<real>)
    ensures r.None? <==> pos + step >= range
    ensures r.Some? ==> r.value == pos + step
  {
    if pos + step >= range then None else Some(pos + step)
  }

  function ProfileTrace(range: real, step: real, pos: real, fuel: nat): (t: seq<real>)
    ensures |t| <= fuel
    ensures fuel > 0 ==> |t| > 0 && t[0] == pos
    decreases fuel
  {
    if fuel == 0 then []
    else
      match ProfileAdvance(range, step, pos)
      case None => [pos]
      case Some(next) => [pos] + ProfileTrace(range, step, next, fuel - 1)
  }

  /** The k-th position of a profile with the given step. */
  function ProfilePoint(step: real, k: int): real {
    (k as real) * step
  }

  lemma {:induction false} ProfileTraceFrom(range: real, step: real, n: nat, k: nat)
    requires n >= 1 && range > 0.0 && step == range / (n as real) && k < n
    ensures var t := ProfileTrace(range, step, ProfilePoint(step, k), n - k);
            |t| == n - k
            && (forall m :: 0 <= m < |t| ==> t[m] == ProfilePoint(step, k + m))
            && ProfileAdvance(range, step, t[|t| - 1]).None?
    decreases n - k
  {
    var pos := ProfilePoint(step, k);
    var t := ProfileTrace(range, step, pos, n - k);
    ProfileAdvanceAt(range, step, n, k);
    if k + 1 < n {
      var next := ProfilePoint(step, k + 1);
      ProfileTraceFrom(range, step, n, k + 1);
      var t' := ProfileTrace(range, step, next, n - (k + 1));
      assert t == [pos] + t';
      forall m | 0 < m < |t|
        ensures t[m] == ProfilePoint(step, k + m)
      {
        assert t[m] == t'[m - 1];
        assert k + 1 + (m - 1) == k + m;
      }
    } else {
      assert t == [pos];
    }
  }

  /** One profile step from the k-th position: the (k + 1)-th position, or done at the n-th. */
  lemma ProfileAdvanceAt(range: real, step: real, n: nat, k: nat)
    requires n >= 1 && range > 0.0 && step == range / (n as real) && k < n
    ensures ProfileAdvance(range, step, ProfilePoint(step, k))
            == if k + 1 < n then Some(ProfilePoint(step, k + 1)) else None
  {
    var next := ProfilePoint(step, k + 1);
    assert ProfilePoint(step, k) + step == next by {
      NextMultiple(k, step);
    }
    assert next >= range <==> k + 1 >= n by {
      StepsReach(k + 1, n, range);
    }
  }

  /** A profile from 0 with step range/n samples exactly n positions, all in [0, range). */
  lemma FullProfileScan(range: real, step: real, n: nat)
    requires n >= 1 && range > 0.0 && step == range / (n as real)
    ensures var t := ProfileTrace(range, step, 0.0, n);
            |t| == n
            && (forall m :: 0 <= m < |t| ==> t[m] == ProfilePoint(step, m) && 0.0 <= t[m] < range)
            && ProfileAdvance(range, step, t[|t| - 1]).None?
  {
    assert ProfilePoint(step, 0) == 0.0;
    ProfileTraceFrom(range, step, n, 0);
    var t := ProfileTrace(range, step, 0.0, n);
    forall m | 0 <= m < |t|
      ensures t[m] == ProfilePoint(step, m) && 0.0 <= t[m] < range
    {
      assert t[m] == ProfilePoint(step, 0 + m);
      StepsReach(m, n, range);
    }
  }
}
