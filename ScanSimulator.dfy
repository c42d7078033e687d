/**
 * simulation/scan_simulator.py: a square scan over a synthetic surface. Every grid cell is
 * measured by a virtual tip, passed through the PID feedback simulator, and the corrected Z is
 * written into a resolution × resolution array, row by row.
 */
module ScanSimulator {
  import opened Results
  import opened ArrayModel
  import opened ZFeedbackSimulator

  /** The surface profiles generate_surface knows; the comparison is case-sensitive. */
  const SurfaceModes: set<string> := {"bumps", "wave", "grid", "lines"}

  /**
   * The constructor's arithmetic: dx = width / resolution and dy = height / resolution.
   * Resolution 0 raises ZeroDivisionError there; a negative resolution passes that division and
   * makes numpy.linspace raise ValueError when the surface is generated.
   */
  function Geometry(width: real, height: real, resolution: int): (r: Result<(real, real), PyError>)
    ensures r.Ok? <==> resolution >= 1
    ensures resolution == 0 ==> r == Err(ZeroDivisionError)
    ensures resolution < 0 ==> r == Err(ValueError)
    ensures r.Ok? ==> r.value.0 * (resolution as real) == width && r.value.1 * (resolution as real) == height
  {
    if resolution == 0 then Err(ZeroDivisionError)
    else
      var n := resolution as real;
      var dx := width / n;
      var dy := height / n;
      if resolution < 0 then Err(ValueError) else Ok((dx, dy))
  }

  /**
   * generate_surface(mode): rows indexed by y, columns by x. The four known profiles are numpy
   * expressions over the meshgrid, left uninterpreted as `shape`; any other mode is all zeros.
   */
  function Surface(mode: string, resolution: nat, shape: (string, nat, nat) -> real): (g: seq<seq<real>>)
    ensures |g| == resolution && forall iy :: 0 <= iy < resolution ==> |g[iy]| == resolution
    ensures mode in SurfaceModes ==>
              forall iy, ix :: 0 <= iy < resolution && 0 <= ix < resolution ==> g[iy][ix] == shape(mode, iy, ix)
  {
    seq(resolution, iy requires 0 <= iy < resolution =>
      seq(resolution, ix requires 0 <= ix < resolution =>
        if mode in SurfaceModes then shape(mode, iy, ix) else 0.0))
  }

  /** An unrecognised profile name, including a known one in other letter case, gives a flat surface. */
  lemma UnknownModeIsFlat(mode: string, resolution: nat, shape: (string, nat, nat) -> real)
    requires mode !in SurfaceModes
    ensures |Surface(mode, resolution, shape)| == resolution
    ensures forall iy, ix :: 0 <= iy < resolution && 0 <= ix < resolution ==>
              |Surface(mode, resolution, shape)[iy]| == resolution && Surface(mode, resolution, shape)[iy][ix] == 0.0
  {
  }

  /** The keyword parameters of VirtualTip's constructor (simulation/virtual_tip.py). */
  const TipParameters: set<string> := {"mode"}

  /** The methods a VirtualTip object has. */
  const TipMethods: set<string> := {"set_surface", "_random_surface_lookup", "get_height"}

  /** VirtualTip(keyword=...) as written: TypeError for a keyword the constructor does not take. */
  function NewTipAsWritten(keyword: string): (r: Result<(), PyError>)
    ensures r.Err? <==> keyword !in TipParameters
    ensures r.Err? ==> r.error == TypeError
  {
    if keyword in TipParameters then Ok(()) else Err(TypeError)
  }

  /** tip.name(...) as written: AttributeError when VirtualTip has no such method. */
  function TipCallAsWritten(name: string): (r: Result<(), PyError>)
    ensures r.Err? <==> name !in TipMethods
    ensures r.Err? ==> r.error == AttributeError
  {
    if name in TipMethods then Ok(()) else Err(AttributeError)
  }

  /**
   * As written, the constructor and reset() build the tip as VirtualTip(surface=...), which raises
   * TypeError, and run_scan's tip.measure(ix, iy) would raise AttributeError: VirtualTip takes only
   * `mode` and has no measure method. The class below models the evidently intended working tip.
   */
  lemma ScanSimulatorTipFails()
    ensures NewTipAsWritten("surface") == Err(TypeError)
    ensures TipCallAsWritten("measure") == Err(AttributeError)
    ensures NewTipAsWritten("mode").Ok? && TipCallAsWritten("get_height").Ok?
  {
  }

  /** The first k tip readings of a scan, in visiting order: cell k is column k % n of row k / n. */
  function Measured(n: nat, tip: (nat, nat) -> real, k: nat): (ms: seq<real>)
    requires n >= 1
    ensures |ms| == k
  {
    seq(k, j requires 0 <= j < k => tip(j % n, j / n))
  }

  /** The Z written for the k-th visited cell: the feedback state after k + 1 readings. */
  function ZAfter(s0: PidState, n: nat, tip: (nat, nat) -> real, k: nat): real
    requires n >= 1
  {
    PidRun(s0, Measured(n, tip, k + 1)).zPosition
  }

  /** The first k callback invocations (ix, iy, z), in visiting order. */
  function Visits(s0: PidState, n: nat, tip: (nat, nat) -> real, k: nat): (v: seq<(nat, nat, real)>)
    requires n >= 1
    ensures |v| == k
  {
    seq(k, j requires 0 <= j < k => (j % n, j / n, ZAfter(s0, n, tip, j)))
  }

  lemma MeasuredSnoc(n: nat, tip: (nat, nat) -> real, k: nat)
    requires n >= 1
    ensures Measured(n, tip, k + 1) == Measured(n, tip, k) + [tip(k % n, k / n)]
  {
  }

  /**
   * The scan visits every cell exactly once, row after row. The k-th visit is to a cell inside
   * the grid whose row-major index is k, so no two visits share a cell.
   */
  lemma VisitInGrid(s0: PidState, n: nat, tip: (nat, nat) -> real, k: nat)
    requires n >= 1 && k < n * n
    ensures var v := Visits(s0, n, tip, n * n)[k];
            v.0 < n && v.1 < n && v.1 * n + v.0 == k
  {
    SplitRowMajor(k, n, n);
  }

  /** Cell (iy, ix) is the (iy * n + ix)-th visit, and is reported as (ix, iy, z). */
  lemma CellVisitedAt(s0: PidState, n: nat, tip: (nat, nat) -> real, iy: nat, ix: nat)
    requires n >= 1 && iy < n && ix < n
    ensures iy * n + ix < n * n
    ensures Visits(s0, n, tip, n * n)[iy * n + ix] == (ix, iy, ZAfter(s0, n, tip, iy * n + ix))
  {
    RowMajorBound(iy, ix, n, n);
    DivModOf(iy, ix, n);
  }

  /**
   * The feedback state carries over from cell to cell: the Z of visit k + 1 is one PID update,
   * with that cell's reading, of the state left by visit k.
   */
  lemma FeedbackCarriesOver(s0: PidState, n: nat, tip: (nat, nat) -> real, k: nat)
    requires n >= 1
    ensures ZAfter(s0, n, tip, k + 1)
         == PidUpdate(PidRun(s0, Measured(n, tip, k + 1)), tip((k + 1) % n, (k + 1) / n)).zPosition
  {
    MeasuredSnoc(n, tip, k + 1);
    RunSnoc(s0, Measured(n, tip, k + 1), tip((k + 1) % n, (k + 1) / n));
  }

  /**
   * One cell of the scan: visiting cell (iy, ix) as the k-th feeds its reading to the feedback,
   * writes the resulting Z and reports it as the k-th visit.
   */
  lemma ScanStep(s0: PidState, n: nat, tip: (nat, nat) -> real, iy: nat, ix: nat, k: nat)
    requires n >= 1 && ix < n && k == iy * n + ix
    ensures PidRun(s0, Measured(n, tip, k + 1)) == PidUpdate(PidRun(s0, Measured(n, tip, k)), tip(ix, iy))
    ensures ZAfter(s0, n, tip, k) == PidRun(s0, Measured(n, tip, k + 1)).zPosition
    ensures Visits(s0, n, tip, k + 1) == Visits(s0, n, tip, k) + [(ix, iy, ZAfter(s0, n, tip, k))]
  {
    DivModOf(iy, ix, n);
    MeasuredSnoc(n, tip, k);
    RunSnoc(s0, Measured(n, tip, k), tip(ix, iy));
  }

  class ScanSimulator {
    const width: real
    const height: real
    const resolution: nat
    const dx: real
    const dy: real
    const surface: seq<seq<real>>
    /** The virtual tip's reading at column ix, row iy; the tip itself is not part of this model. */
    const tip: (nat, nat) -> real
    const feedback: ZFeedbackSimulator
    var scanData: array2<real>

    predicate Valid()
      reads this
    {
      resolution >= 1 && scanData.Length0 == resolution && scanData.Length1 == resolution
    }

    predicate AllZero()
      reads this, scanData
    {
      forall iy, ix :: 0 <= iy < scanData.Length0 && 0 <= ix < scanData.Length1 ==> scanData[iy, ix] == 0.0
    }

    /** The constructor; its failures are those of Geometry. The feedback has setpoint 0.0. */
    constructor (width: real, height: real, resolution: int, profileType: string,
                 shape: (string, nat, nat) -> real, tip: (nat, nat) -> real)
      requires Geometry(width, height, resolution).Ok?
      ensures Valid() && AllZero()
      ensures this.width == width && this.height == height && this.resolution == resolution
      ensures (dx, dy) == Geometry(width, height, resolution).value
      ensures surface == Surface(profileType, resolution, shape)
      ensures this.tip == tip
      ensures fresh(feedback) && fresh(scanData)
      ensures feedback.State() == PidState(DefaultKp, DefaultKi, DefaultKd, 0.0, 0.0, 0.0, 0.0)
    {
      this.width := width;
      this.height := height;
      this.resolution := resolution;
      dx := width / (resolution as real);
      dy := height / (resolution as real);
      surface := Surface(profileType, resolution, shape);
      this.tip := tip;
      feedback := new ZFeedbackSimulator(DefaultKp, DefaultKi, DefaultKd, 0.0);
      scanData := new real[resolution, resolution]((_, _) => 0.0);
    }

    /** reset(): a fresh zero array and a cleared feedback state; gains and setpoint stay. */
    method Reset()
      requires Valid()
      modifies this, feedback
      ensures Valid() && AllZero() && fresh(scanData)
      ensures feedback.State() == Cleared(old(feedback.State()))
    {
      feedback.Reset();
      scanData := new real[resolution, resolution]((_, _) => 0.0);
    }

    /**
     * run_scan(callback): rows iy outer, columns ix inner; one feedback update per cell, its
     * result stored at [iy, ix] and, when a callback is given, reported as (ix, iy, z).
     */
    method RunScan(hasCallback: bool) returns (data: array2<real>, calls: seq<(nat, nat, real)>)
      requires Valid()
      modifies scanData, feedback
      ensures data == scanData && Valid()
      ensures feedback.State() == PidRun(old(feedback.State()), Measured(resolution, tip, resolution * resolution))
      ensures forall iy, ix :: 0 <= iy < resolution && 0 <= ix < resolution ==>
                scanData[iy, ix] == ZAfter(old(feedback.State()), resolution, tip, iy * resolution + ix)
      ensures calls == if hasCallback then Visits(old(feedback.State()), resolution, tip, resolution * resolution) else []
    {
      var n := resolution;
      ghost var s0 := feedback.State();
      calls := [];
      var iy := 0;
      while iy < n
        invariant 0 <= iy <= n
        invariant feedback.State() == PidRun(s0, Measured(n, tip, iy * n))
        invariant forall y, x :: 0 <= y < iy && 0 <= x < n ==> scanData[y, x] == ZAfter(s0, n, tip, y * n + x)
        invariant calls == if hasCallback then Visits(s0, n, tip, iy * n) else []
      {
        calls := ScanRow(hasCallback, s0, iy, calls);
        MulSucc(iy, n);
        iy := iy + 1;
      }
      data := scanData;
    }

    /** The inner loop of run_scan: row iy, columns left to right, continuing the feedback state. */
    method ScanRow(hasCallback: bool, ghost s0: PidState, iy: nat, calls0: seq<(nat, nat, real)>)
      returns (calls: seq<(nat, nat, real)>)
      requires Valid() && iy < resolution
      requires feedback.State() == PidRun(s0, Measured(resolution, tip, iy * resolution))
      requires calls0 == if hasCallback then Visits(s0, resolution, tip, iy * resolution) else []
      requires forall y, x :: 0 <= y < iy && 0 <= x < resolution ==> scanData[y, x] == ZAfter(s0, resolution, tip, y * resolution + x)
      modifies scanData, feedback
      ensures feedback.State() == PidRun(s0, Measured(resolution, tip, iy * resolution + resolution))
      ensures forall y, x :: 0 <= y <= iy && 0 <= x < resolution ==> scanData[y, x] == ZAfter(s0, resolution, tip, y * resolution + x)
      ensures calls == if hasCallback then Visits(s0, resolution, tip, iy * resolution + resolution) else []
    {
      var n := resolution;
      ghost var k0 := iy * n;
      calls := calls0;
      var ix := 0;
      while ix < n
        invariant 0 <= ix <= n
        invariant feedback.State() == PidRun(s0, Measured(n, tip, k0 + ix))
        invariant forall y, x :: 0 <= y < iy && 0 <= x < n ==> scanData[y, x] == ZAfter(s0, n, tip, y * n + x)
        invariant forall x :: 0 <= x < ix ==> scanData[iy, x] == ZAfter(s0, n, tip, k0 + x)
        invariant calls == if hasCallback then Visits(s0, n, tip, k0 + ix) else []
      {
        ScanStep(s0, n, tip, iy, ix, k0 + ix);
        var z := feedback.Update(tip(ix, iy));
        scanData[iy, ix] := z;
        if hasCallback {
          calls := calls + [(ix, iy, z)];
        }
        ix := ix + 1;
      }
    }
  }
}
