/**
 * The four scan modes. STM, AFM contact and AFM non-contact share one stepping scheme over an
 * x/y area and differ in their configuration defaults and in how a looked-up surface value
 * becomes the commanded z; they are one class here, AreaScanMode, with one named constructor per
 * mode. The profiling mode scans a single axis. Surface generation (numpy trigonometry and noise)
 * is abstract: initialize() receives the generated array as an argument.
 */
module ScanModes {
  import opened Results
  import opened ScanConfig
  import opened BaseScanMode
  import opened ScanZDriver
  import opened RasterScan

  // ---------------------------------------------------------------------------------------
  // Configuration read at construction

  datatype AreaKind = StmScan | ContactScan | NonContactScan

  datatype AreaSettings = AreaSettings(area: Area, resolution: Value, setpoint: Value)

  /**
   * The ranges, resolution and setpoint of an area mode, and the steps x_range/resolution and
   * y_range/resolution, whose division raises TypeError or ZeroDivisionError.
   */
  function AreaSettingsFrom(cfg: Config, xRange: Value, yRange: Value, setpointDefault: real)
    : (r: Result<AreaSettings, PyError>)
    ensures r.Ok? <==> IsNumber(xRange) && IsNumber(yRange)
                       && IsNumber(Get(cfg, "resolution", Int(100)))
                       && AsReal(Get(cfg, "resolution", Int(100))) != 0.0
    ensures r.Ok? ==>
              var res := Get(cfg, "resolution", Int(100));
              r.value.resolution == res
              && r.value.setpoint == Get(cfg, "setpoint", Float(setpointDefault))
              && r.value.area.xRange == AsReal(xRange) && r.value.area.yRange == AsReal(yRange)
              && r.value.area.xStep * AsReal(res) == AsReal(xRange)
              && r.value.area.yStep * AsReal(res) == AsReal(yRange)
    ensures !IsNumber(xRange) || !IsNumber(Get(cfg, "resolution", Int(100))) ==> r == Err(TypeError)
  {
    var res := Get(cfg, "resolution", Int(100));
    match Divide(xRange, res)
    case Err(e) => Err(e)
    case Ok(xStep) =>
      match Divide(yRange, res)
      case Err(e) => Err(e)
      case Ok(yStep) =>
        Ok(AreaSettings(Area(AsReal(xRange), AsReal(yRange), xStep, yStep), res,
                        Get(cfg, "setpoint", Float(setpointDefault))))
  }

  /**
   * STM: config None is allowed. A non-None scan_area sets both ranges; otherwise each range
   * defaults to 10. The resolution defaults to 100 and the setpoint to 1.0.
   */
  function StmSettings(config: Option<Config>): (r: Result<AreaSettings, PyError>)
    ensures var cfg := EffectiveConfig(config);
            var area := Get(cfg, "scan_area", Null);
            r.Ok? && area != Null ==>
              IsNumber(area) && r.value.area.xRange == AsReal(area) == r.value.area.yRange
    ensures var cfg := EffectiveConfig(config);
            r.Ok? && Get(cfg, "scan_area", Null) == Null ==>
              IsNumber(Get(cfg, "x_range", Int(10))) && IsNumber(Get(cfg, "y_range", Int(10)))
              && r.value.area.xRange == AsReal(Get(cfg, "x_range", Int(10)))
              && r.value.area.yRange == AsReal(Get(cfg, "y_range", Int(10)))
  {
    var cfg := EffectiveConfig(config);
    var area := Get(cfg, "scan_area", Null);
    if area != Null then AreaSettingsFrom(cfg, area, area, 1.0)
    else AreaSettingsFrom(cfg, Get(cfg, "x_range", Int(10)), Get(cfg, "y_range", Int(10)), 1.0)
  }

  /** AFM contact: config.get on None raises AttributeError; the setpoint defaults to 1.0. */
  function ContactSettings(config: Option<Config>): (r: Result<AreaSettings, PyError>)
    ensures config.None? <==> r == Err(AttributeError)
    ensures r.Ok? ==> r.value.setpoint == Get(config.value, "setpoint", Float(1.0))
  {
    match config
    case None => Err(AttributeError)
    case Some(c) => AreaSettingsFrom(c, Get(c, "x_range", Int(10)), Get(c, "y_range", Int(10)), 1.0)
  }

  /** AFM non-contact: as AFM contact, with the amplitude setpoint defaulting to 0.8. */
  function NonContactSettings(config: Option<Config>): (r: Result<AreaSettings, PyError>)
    ensures config.None? <==> r == Err(AttributeError)
    ensures r.Ok? ==> r.value.setpoint == Get(config.value, "setpoint", Float(0.8))
    ensures r.Ok? ==> IsNumber(Get(config.value, "x_range", Int(10)))
                      && IsNumber(Get(config.value, "y_range", Int(10)))
                      && r.value.area.xRange == AsReal(Get(config.value, "x_range", Int(10)))
                      && r.value.area.yRange == AsReal(Get(config.value, "y_range", Int(10)))
  {
    match config
    case None => Err(AttributeError)
    case Some(c) => AreaSettingsFrom(c, Get(c, "x_range", Int(10)), Get(c, "y_range", Int(10)), 0.8)
  }

  /** With no configuration every area mode scans 10 by 10 at resolution 100, steps 0.1. */
  lemma AreaDefaults()
    ensures StmSettings(None) == Ok(AreaSettings(Area(10.0, 10.0, 0.1, 0.1), Int(100), Float(1.0)))
    ensures ContactSettings(Some(map[]))
            == Ok(AreaSettings(Area(10.0, 10.0, 0.1, 0.1), Int(100), Float(1.0)))
    ensures NonContactSettings(Some(map[]))
            == Ok(AreaSettings(Area(10.0, 10.0, 0.1, 0.1), Int(100), Float(0.8)))
  {
  }

  /** A resolution of 0 fails at construction with division by zero. */
  lemma ZeroResolutionFails(config: Config)
    requires Get(config, "resolution", Int(100)) == Int(0)
    requires IsNumber(Get(config, "scan_area", Null)) || Get(config, "scan_area", Null) == Null
    requires IsNumber(Get(config, "x_range", Int(10))) && IsNumber(Get(config, "y_range", Int(10)))
    ensures StmSettings(Some(config)) == Err(ZeroDivisionError)
    ensures ContactSettings(Some(config)) == Err(ZeroDivisionError)
    ensures NonContactSettings(Some(config)) == Err(ZeroDivisionError)
  {
  }

  // ---------------------------------------------------------------------------------------
  // Surface lookup

  /** A generated surface: an n-by-n array, indexed [row (y), column (x)]. */
  datatype Grid = Grid(n: nat, cells: seq<seq<real>>)

  predicate Square(g: Grid) {
    |g.cells| == g.n && forall r :: 0 <= r < |g.cells| ==> |g.cells[r]| == g.n
  }

  /** The non-contact amplitude map 1.0 - 0.2 cos cos lies within [0.8, 1.2]. */
  predicate AmplitudesInRange(g: Grid) {
    forall r, c :: 0 <= r < |g.cells| && 0 <= c < |g.cells[r]| ==> 0.8 <= g.cells[r][c] <= 1.2
  }

  /** min(int(coord / range * (n - 1)), n - 1). */
  function ClampedIndex(coord: real, range: real, n: int): (i: int)
    requires range != 0.0
    ensures i <= n - 1
    ensures n >= 1 && coord / range >= 0.0 ==> 0 <= i
  {
    var scaled := Trunc(coord / range * ((n - 1) as real));
    if scaled < n - 1 then scaled else n - 1
  }

  /**
   * The [iy, ix] cell a position looks up: ZeroDivisionError for a zero range, TypeError before
   * initialize() (no surface), and numpy's IndexError for an index out of range.
   */
  function AreaCellIndex(surface: Option<Grid>, a: Area, pos: Position): (r: Result<(nat, nat), PyError>)
    requires surface.Some? ==> Square(surface.value)
    ensures r.Ok? ==> surface.Some? && r.value.0 < surface.value.n && r.value.1 < surface.value.n
    ensures (a.xRange == 0.0 || a.yRange == 0.0) <==> r == Err(ZeroDivisionError)
    ensures a.xRange != 0.0 && a.yRange != 0.0 && surface.None? ==> r == Err(TypeError)
  {
    if a.xRange == 0.0 || a.yRange == 0.0 then Err(ZeroDivisionError)
    else
      match surface
      case None => Err(TypeError)
      case Some(g) =>
        var ix := ClampedIndex(pos.0, a.xRange, g.n);
        var iy := ClampedIndex(pos.1, a.yRange, g.n);
        match AxisIndex(iy, g.n)
        case Err(e) => Err(e)
        case Ok(row) =>
          match AxisIndex(ix, g.n)
          case Err(e) => Err(e)
          case Ok(col) => Ok((row, col))
  }

  /** A position on the same side of 0 as the ranges always finds a cell of a non-empty surface. */
  lemma CellIndexInBounds(g: Grid, a: Area, pos: Position)
    requires Square(g) && g.n >= 1 && a.xRange != 0.0 && a.yRange != 0.0
    requires pos.0 / a.xRange >= 0.0 && pos.1 / a.yRange >= 0.0
    ensures AreaCellIndex(Some(g), a, pos).Ok?
  {
  }

  /** _amplitude_to_z: the commanded z is the reciprocal of the amplitude plus 0.01. */
  function AmplitudeToZ(amplitude: real): (z: real)
    requires amplitude > -0.01
    ensures z > 0.0 && z * (amplitude + 0.01) == 1.0
  {
    var d := amplitude + 0.01;
    assert d > 0.0;
    assert (1.0 / d) * d == 1.0;
    1.0 / d
  }

  /** Over the amplitude map's range the commanded z stays within [1/1.21, 1/0.81]. */
  lemma AmplitudeToZBounds(amplitude: real)
    requires 0.8 <= amplitude <= 1.2
    ensures 1.0 / 1.21 <= AmplitudeToZ(amplitude) <= 1.0 / 0.81
  {
    var z := AmplitudeToZ(amplitude);
    assert z * (amplitude + 0.01) == 1.0;
    assert z * 0.81 <= 1.0 <= z * 1.21;
  }

  /** The z a step commands at a position: the surface value, converted for non-contact mode. */
  function AreaMeasure(kind: AreaKind, surface: Option<Grid>, a: Area, pos: Position): (r: Result<real, PyError>)
    requires surface.Some? ==> Square(surface.value)
    requires kind == NonContactScan && surface.Some? ==> AmplitudesInRange(surface.value)
    ensures r.Err? <==> AreaCellIndex(surface, a, pos).Err?
    ensures r.Ok? && kind == NonContactScan ==> 1.0 / 1.21 <= r.value <= 1.0 / 0.81
  {
    match AreaCellIndex(surface, a, pos)
    case Err(e) => Err(e)
    case Ok(cell) =>
      var v := surface.value.cells[cell.0][cell.1];
      if kind == NonContactScan then
        AmplitudeToZBounds(v);
        Ok(AmplitudeToZ(v))
      else Ok(v)
  }

  /**
   * On a uniform n-by-n scan over a surface generated at resolution n, every position the scan
   * visits finds its cell: from initialize() to "done" no lookup fails.
   */
  lemma AreaScanLookupsSucceed(kind: AreaKind, g: Grid, a: Area, n: nat)
    requires Uniform(a, n) && Square(g) && g.n == n
    requires kind == NonContactScan ==> AmplitudesInRange(g)
    ensures var t := Trace(a, (0.0, 0.0), n * n);
            forall m :: 0 <= m < |t| ==> AreaMeasure(kind, Some(g), a, t[m]).Ok?
  {
    FullAreaScan(a, n);
    var t := Trace(a, (0.0, 0.0), n * n);
    forall m | 0 <= m < |t|
      ensures AreaMeasure(kind, Some(g), a, t[m]).Ok?
    {
      CellIndexInBounds(g, a, t[m]);
    }
  }

  // ---------------------------------------------------------------------------------------
  // The area modes

  class AreaScanMode {
    const kind: AreaKind
    const hardwareMode: bool
    const settings: AreaSettings
    /** STM's legacy scan_area key (Null for the AFM modes, which do not read it). */
    const scanArea: Value
    const base: ScanState
    const driver: ScanZDriver
    var surface: Option<Grid>

    /** A generated surface is resolution-by-resolution, and amplitudes lie in [0.8, 1.2]. */
    ghost predicate Valid()
      reads this
    {
      (surface.Some? ==> Square(surface.value) && settings.resolution == Int(surface.value.n))
      && (kind == NonContactScan && surface.Some? ==> AmplitudesInRange(surface.value))
    }

    /** StmMode(config, hardware_mode). */
    constructor Stm(config: Option<Config>, hardwareMode: bool)
      requires StmSettings(config).Ok?
      ensures kind == StmScan && this.hardwareMode == hardwareMode
      ensures settings == StmSettings(config).value
      ensures scanArea == Get(EffectiveConfig(config), "scan_area", Null)
      ensures fresh(base) && fresh(base.dataBuffer) && fresh(driver)
      ensures base.config == Some(EffectiveConfig(config)) && base.currentPosition == (0.0, 0.0)
      ensures base.dataBuffer.items == [] && driver.calls == [] && surface == None && Valid()
    {
      kind, this.hardwareMode := StmScan, hardwareMode;
      settings := StmSettings(config).value;
      scanArea := Get(EffectiveConfig(config), "scan_area", Null);
      base := new ScanState(config);
      driver := new ScanZDriver();
      surface := None;
    }

    /** AFMContactMode(config, hardware_mode). */
    constructor AfmContact(config: Option<Config>, hardwareMode: bool)
      requires ContactSettings(config).Ok?
      ensures kind == ContactScan && this.hardwareMode == hardwareMode
      ensures settings == ContactSettings(config).value && scanArea == Null
      ensures fresh(base) && fresh(base.dataBuffer) && fresh(driver)
      ensures base.config == Some(EffectiveConfig(config)) && base.currentPosition == (0.0, 0.0)
      ensures base.dataBuffer.items == [] && driver.calls == [] && surface == None && Valid()
    {
      kind, this.hardwareMode := ContactScan, hardwareMode;
      settings := ContactSettings(config).value;
      scanArea := Null;
      base := new ScanState(config);
      driver := new ScanZDriver();
      surface := None;
    }

    /** AFMNonContactMode(config, hardware_mode). */
    constructor AfmNonContact(config: Option<Config>, hardwareMode: bool)
      requires NonContactSettings(config).Ok?
      ensures kind == NonContactScan && this.hardwareMode == hardwareMode
      ensures settings == NonContactSettings(config).value && scanArea == Null
      ensures fresh(base) && fresh(base.dataBuffer) && fresh(driver)
      ensures base.config == Some(EffectiveConfig(config)) && base.currentPosition == (0.0, 0.0)
      ensures base.dataBuffer.items == [] && driver.calls == [] && surface == None && Valid()
    {
      kind, this.hardwareMode := NonContactScan, hardwareMode;
      settings := NonContactSettings(config).value;
      scanArea := Null;
      base := new ScanState(config);
      driver := new ScanZDriver();
      surface := None;
    }

    /**
     * initialize(): generating the surface needs a non-negative int resolution (numpy.linspace);
     * otherwise it raises and nothing changes. Then the position returns to (0, 0), the buffer is
     * cleared and the driver is initialized.
     */
    method Initialize(generated: seq<seq<real>>) returns (r: Result<(), PyError>)
      requires Valid()
      requires SampleCount(settings.resolution).Ok? ==>
                 Square(Grid(SampleCount(settings.resolution).value, generated))
                 && (kind == NonContactScan ==>
                       AmplitudesInRange(Grid(SampleCount(settings.resolution).value, generated)))
      modifies this, base, base.dataBuffer, driver
      ensures Valid()
      ensures var count := SampleCount(settings.resolution);
              count.Err? ==> r == Err(count.error) && surface == old(surface)
                             && unchanged(base) && unchanged(base.dataBuffer) && unchanged(driver)
      ensures var count := SampleCount(settings.resolution);
              count.Ok? ==> r == Ok(()) && surface == Some(Grid(count.value, generated))
                            && base.currentPosition == (0.0, 0.0) && base.config == old(base.config)
                            && base.dataBuffer.items == []
                            && driver.calls == old(driver.calls) + [DriverCall.Initialize]
    {
      var count := SampleCount(settings.resolution);
      if count.Err? {
        return Err(count.error);
      }
      surface := Some(Grid(count.value, generated));
      base.currentPosition := (0.0, 0.0);
      base.dataBuffer.Clear();
      driver.Initialize();
      r := Ok(());
    }

    /**
     * perform_step(): looks up z at the current position; a failed lookup raises before anything
     * changes. Otherwise the driver is commanded to z, (x, y, z) is appended for the pre-step
     * position, and the cursor advances; "done" leaves the stored position as it was.
     */
    method PerformStep() returns (r: Result<StepStatus, PyError>)
      requires Valid()
      modifies base, base.dataBuffer, driver
      ensures var pos := old(base.currentPosition);
              var m := AreaMeasure(kind, surface, settings.area, pos);
              m.Err? ==> r == Err(m.error)
                         && unchanged(base) && unchanged(base.dataBuffer) && unchanged(driver)
      ensures var pos := old(base.currentPosition);
              var m := AreaMeasure(kind, surface, settings.area, pos);
              m.Ok? ==>
                driver.calls == old(driver.calls) + [DriverCall.SetZPosition(m.value)]
                && base.dataBuffer.items == old(base.dataBuffer.items) + [Sample(pos.0, pos.1, m.value)]
                && base.config == old(base.config)
                && match AreaAdvance(settings.area, pos)
                   case None => r == Ok(Done) && base.currentPosition == pos
                   case Some(next) => r == Ok(Running) && base.currentPosition == next
    {
      var pos := base.currentPosition;
      var m := AreaMeasure(kind, surface, settings.area, pos);
      if m.Err? {
        return Err(m.error);
      }
      driver.SetZPosition(m.value);
      base.dataBuffer.Append(Sample(pos.0, pos.1, m.value));
      var next := AreaAdvance(settings.area, pos);
      if next.None? {
        return Ok(Done);
      }
      base.currentPosition := next.value;
      r := Ok(Running);
    }

    /** finalize(): shuts the driver down. */
    method Finalize()
      modifies driver
      ensures driver.calls == old(driver.calls) + [DriverCall.Shutdown]
    {
      driver.Shutdown();
    }
  }

  // ---------------------------------------------------------------------------------------
  // The profiling mode

  datatype ProfileSettings = ProfileSettings(profileLength: Value, axis: Value, range: real,
                                             resolution: Value, setpoint: Value, step: real)

  /**
   * ProfilingMode's configuration: profile_length (default 100) is read through the None guard,
   * but axis, range, resolution and setpoint are read from config itself, so config None raises
   * AttributeError. Defaults: axis "x", range 10, resolution 200, setpoint 1.0.
   */
  function ProfilingSettings(config: Option<Config>): (r: Result<ProfileSettings, PyError>)
    ensures config.None? <==> r == Err(AttributeError)
    ensures config.Some? ==>
              var c := config.value;
              (r.Ok? <==> IsNumber(Get(c, "range", Int(10))) && IsNumber(Get(c, "resolution", Int(200)))
                           && AsReal(Get(c, "resolution", Int(200))) != 0.0)
    ensures r.Ok? ==>
              var c := config.value;
              r.value.profileLength == Get(c, "profile_length", Int(100))
              && r.value.axis == Get(c, "axis", Str("x"))
              && r.value.range == AsReal(Get(c, "range", Int(10)))
              && r.value.resolution == Get(c, "resolution", Int(200))
              && r.value.setpoint == Get(c, "setpoint", Float(1.0))
              && r.value.step * AsReal(r.value.resolution) == r.value.range
  {
    var cfg := EffectiveConfig(config);
    var profileLength := Get(cfg, "profile_length", Int(100));
    match config
    case None => Err(AttributeError)
    case Some(c) =>
      var range := Get(c, "range", Int(10));
      var res := Get(c, "resolution", Int(200));
      match Divide(range, res)
      case Err(e) => Err(e)
      case Ok(step) =>
        Ok(ProfileSettings(profileLength, Get(c, "axis", Str("x")), AsReal(range), res,
                           Get(c, "setpoint", Float(1.0)), step))
  }

  /** A generated profile: n heights. */
  datatype Profile = Profile(n: nat, heights: seq<real>)

  /** The profile index a position looks up, clamped to at most n - 1. */
  function ProfileIndex(profile: Option<Profile>, s: ProfileSettings, pos: real): (r: Result<nat, PyError>)
    requires profile.Some? ==> |profile.value.heights| == profile.value.n
    ensures r.Ok? ==> profile.Some? && r.value < profile.value.n
    ensures s.range == 0.0 <==> r == Err(ZeroDivisionError)
    ensures s.range != 0.0 && profile.None? ==> r == Err(TypeError)
    ensures profile.Some? && profile.value.n >= 1 && s.range != 0.0 && pos / s.range >= 0.0 ==> r.Ok?
  {
    if s.range == 0.0 then Err(ZeroDivisionError)
    else
      match profile
      case None => Err(TypeError)
      case Some(p) => AxisIndex(ClampedIndex(pos, s.range, p.n), p.n)
  }

  /** The recorded sample: (pos, 0, h) along x, (0, pos, h) for any other axis value. */
  function ProfileSample(axis: Value, pos: real, height: real): (s: Sample)
    ensures axis == Str("x") ==> s.x == pos && s.y == 0.0
    ensures axis != Str("x") ==> s.x == 0.0 && s.y == pos
    ensures s.z == height
  {
    if axis == Str("x") then Sample(pos, 0.0, height) else Sample(0.0, pos, height)
  }

  /**
   * A profile at resolution n >= 1 over a positive range samples n positions from initialize() to
   * "done", and none of their lookups fails.
   */
  lemma ProfileScanLookupsSucceed(p: Profile, s: ProfileSettings, n: nat)
    requires n >= 1 && s.range > 0.0 && s.step == s.range / (n as real)
    requires p.n == n && |p.heights| == n
    ensures var t := ProfileTrace(s.range, s.step, 0.0, n);
            |t| == n && forall m :: 0 <= m < |t| ==> ProfileIndex(Some(p), s, t[m]).Ok?
  {
    FullProfileScan(s.range, s.step, n);
  }

  class ProfilingMode {
    const hardwareMode: bool
    const settings: ProfileSettings
    const base: ScanState
    const driver: ScanZDriver
    /** self.position exists only once initialize() has run. */
    var position: Option<real>
    var profile: Option<Profile>

    ghost predicate Valid()
      reads this
    {
      profile.Some? ==> |profile.value.heights| == profile.value.n
                        && settings.resolution == Int(profile.value.n)
    }

    /** ProfilingMode(config, hardware_mode). */
    constructor (config: Option<Config>, hardwareMode: bool)
      requires ProfilingSettings(config).Ok?
      ensures settings == ProfilingSettings(config).value && this.hardwareMode == hardwareMode
      ensures fresh(base) && fresh(base.dataBuffer) && fresh(driver)
      ensures base.config == Some(EffectiveConfig(config)) && base.currentPosition == (0.0, 0.0)
      ensures base.dataBuffer.items == [] && driver.calls == []
      ensures position == None && profile == None && Valid()
    {
      this.hardwareMode := hardwareMode;
      settings := ProfilingSettings(config).value;
      base := new ScanState(config);
      driver := new ScanZDriver();
      position, profile := None, None;
    }

    /**
     * initialize(): a resolution numpy.linspace rejects raises and changes nothing; otherwise the
     * position becomes 0, the buffer is cleared and the driver is initialized.
     */
    method Initialize(generated: seq<real>) returns (r: Result<(), PyError>)
      requires Valid()
      requires SampleCount(settings.resolution).Ok? ==>
                 |generated| == SampleCount(settings.resolution).value
      modifies this, base.dataBuffer, driver
      ensures Valid()
      ensures var count := SampleCount(settings.resolution);
              count.Err? ==> r == Err(count.error) && position == old(position)
                             && profile == old(profile)
                             && unchanged(base.dataBuffer) && unchanged(driver)
      ensures var count := SampleCount(settings.resolution);
              count.Ok? ==> r == Ok(()) && profile == Some(Profile(count.value, generated))
                            && position == Some(0.0) && base.dataBuffer.items == []
                            && driver.calls == old(driver.calls) + [DriverCall.Initialize]
    {
      var count := SampleCount(settings.resolution);
      if count.Err? {
        return Err(count.error);
      }
      profile := Some(Profile(count.value, generated));
      position := Some(0.0);
      base.dataBuffer.Clear();
      driver.Initialize();
      r := Ok(());
    }

    /**
     * perform_step(): AttributeError before initialize(); a failed lookup raises before anything
     * changes. Otherwise the driver gets the height, the sample is appended, and the position
     * advances by one step unless it reaches the range ("done", position not stored).
     */
    method PerformStep() returns (r: Result<StepStatus, PyError>)
      requires Valid()
      modifies this, base.dataBuffer, driver
      ensures profile == old(profile) && Valid()
      ensures old(position).None? ==> r == Err(AttributeError) && position == old(position)
                                      && unchanged(base.dataBuffer) && unchanged(driver)
      ensures old(position).Some? ==>
                var pos := old(position).value;
                var i := ProfileIndex(profile, settings, pos);
                (i.Err? ==> r == Err(i.error) && position == old(position)
                            && unchanged(base.dataBuffer) && unchanged(driver))
                && (i.Ok? ==>
                      var h := profile.value.heights[i.value];
                      driver.calls == old(driver.calls) + [DriverCall.SetZPosition(h)]
                      && base.dataBuffer.items
                         == old(base.dataBuffer.items) + [ProfileSample(settings.axis, pos, h)]
                      && match ProfileAdvance(settings.range, settings.step, pos)
                         case None => r == Ok(Done) && position == old(position)
                         case Some(next) => r == Ok(Running) && position == Some(next))
    {
      if position.None? {
        return Err(AttributeError);
      }
      var pos := position.value;
      var i := ProfileIndex(profile, settings, pos);
      if i.Err? {
        return Err(i.error);
      }
      var h := profile.value.heights[i.value];
      driver.SetZPosition(h);
      base.dataBuffer.Append(ProfileSample(settings.axis, pos, h));
      var next := ProfileAdvance(settings.range, settings.step, pos);
      if next.None? {
        return Ok(Done);
      }
      position := Some(next.value);
      r := Ok(Running);
    }

    /** finalize(): shuts the driver down. */
    method Finalize()
      modifies driver
      ensures driver.calls == old(driver.calls) + [DriverCall.Shutdown]
    {
      driver.Shutdown();
    }
  }
}
