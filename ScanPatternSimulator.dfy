/**
 * simulation/scan_pattern_simulator.py: the list of (x, y) probe positions for a raster
 * (serpentine), spiral or single-line scan of a square of side scan_size.
 */
module ScanPatternSimulator {
  import opened Results
  import Text
  import opened ArrayModel

  type Point = (real, real)

  /** The mode strings generate_pattern dispatches on. */
  const KnownModes: set<string> := {"raster", "spiral", "profile_x", "profile_y"}

  /** One raster row at height y: x ascending when forward, x descending otherwise. */
  function Row(xs: seq<real>, y: real, forward: bool): seq<Point> {
    seq(|xs|, j requires 0 <= j < |xs| => (if forward then xs[j] else xs[|xs| - 1 - j], y))
  }

  /** Row i of the serpentine raster: y = ys[i], forward on even i. */
  function SerpentineRows(xs: seq<real>, ys: seq<real>): seq<seq<Point>> {
    seq(|ys|, i requires 0 <= i < |ys| => Row(xs, ys[i], i % 2 == 0))
  }

  /** The raster pattern _raster_pattern returns, or the error linspace raises. */
  function RasterSpec(scanSize: real, resolution: int): (r: Result<seq<Point>, PyError>)
    ensures r.Ok? <==> resolution >= 0
    ensures r.Err? ==> r.error == ValueError
    ensures r.Ok? ==> |r.value| == resolution * resolution
  {
    match Linspace(0.0, scanSize, resolution)
    case Err(e) => Err(e)
    case Ok(v) =>
      FlattenLength(SerpentineRows(v, v), resolution);
      Ok(Flatten(SerpentineRows(v, v)))
  }

  /** The spiral: radius and angle both spread evenly over resolution² points, around the centre. */
  function SpiralSpec(scanSize: real, resolution: int, cos: real -> real, sin: real -> real): (r: Result<seq<Point>, PyError>)
    ensures r.Ok? && |r.value| == resolution * resolution
  {
    var points := resolution * resolution;
    var rMax := scanSize / 2.0;
    var theta := Linspace(0.0, 10.0 * Pi, points).value;
    var radius := Linspace(0.0, rMax, points).value;
    Ok(seq(points, k requires 0 <= k < points =>
      (radius[k] * cos(theta[k]) + rMax, radius[k] * sin(theta[k]) + rMax)))
  }

  /** _line_profile(axis): resolution points along the axis, the other coordinate at scan_size / 2. */
  function LineProfile(scanSize: real, resolution: int, axis: string): (r: Result<seq<Point>, PyError>)
    ensures r.Ok? <==> resolution >= 0
    ensures r.Err? ==> r.error == ValueError
    ensures r.Ok? ==> |r.value| == resolution
    ensures r.Ok? ==> forall k :: 0 <= k < |r.value| ==>
              (if axis == "x" then r.value[k].1 else r.value[k].0) == scanSize / 2.0
  {
    match Linspace(0.0, scanSize, resolution)
    case Err(e) => Err(e)
    case Ok(v) =>
      var half := scanSize / 2.0;
      if axis == "x" then Ok(seq(|v|, k requires 0 <= k < |v| => (v[k], half)))
      else Ok(seq(|v|, k requires 0 <= k < |v| => (half, v[k])))
  }

  /** generate_pattern's dispatch on the (already lower-cased) mode. */
  function PatternSpec(scanSize: real, resolution: int, mode: string, cos: real -> real, sin: real -> real): (r: Result<seq<Point>, PyError>)
    ensures r.Err? <==> mode !in KnownModes || (mode != "spiral" && resolution < 0)
    ensures r.Err? ==> r.error == ValueError
  {
    if mode == "raster" then RasterSpec(scanSize, resolution)
    else if mode == "spiral" then SpiralSpec(scanSize, resolution, cos, sin)
    else if mode == "profile_x" then LineProfile(scanSize, resolution, "x")
    else if mode == "profile_y" then LineProfile(scanSize, resolution, "y")
    else Err(ValueError)
  }

  /**
   * The raster has resolution² points; the point at i * resolution + j lies on row y_vals[i],
   * at x_vals[j] on even rows and at x_vals[resolution - 1 - j] on odd rows.
   */
  lemma RasterShape(scanSize: real, resolution: int, i: int, j: int)
    requires 0 <= i < resolution && 0 <= j < resolution
    ensures RasterSpec(scanSize, resolution).Ok?
    ensures |RasterSpec(scanSize, resolution).value| == resolution * resolution
    ensures var v := Linspace(0.0, scanSize, resolution).value;
            i * resolution + j < resolution * resolution &&
            RasterSpec(scanSize, resolution).value[i * resolution + j]
              == (if i % 2 == 0 then v[j] else v[resolution - 1 - j], v[i])
  {
    var v := Linspace(0.0, scanSize, resolution).value;
    var rows := SerpentineRows(v, v);
    FlattenLength(rows, resolution);
    FlattenIndex(rows, resolution, i, j);
  }

  /**
   * Serpentine ends: with resolution ≥ 2, an even row starts at x = 0 and ends at x = scan_size,
   * an odd row starts at x = scan_size and ends at x = 0, and each row's y runs from 0 to scan_size.
   */
  lemma RasterRowEnds(scanSize: real, resolution: int, i: int)
    requires resolution >= 2 && 0 <= i < resolution
    ensures var p := RasterSpec(scanSize, resolution).value;
            var first := i * resolution;
            var last := i * resolution + resolution - 1;
            last < |p| &&
            p[first].0 == (if i % 2 == 0 then 0.0 else scanSize) &&
            p[last].0 == (if i % 2 == 0 then scanSize else 0.0) &&
            p[first].1 == p[last].1 &&
            (i == 0 ==> p[first].1 == 0.0) &&
            (i == resolution - 1 ==> p[last].1 == scanSize)
  {
    RasterShape(scanSize, resolution, i, 0);
    RasterShape(scanSize, resolution, i, resolution - 1);
  }

  /** A spiral with any points at all starts at the centre of the square. */
  lemma SpiralStartsAtCentre(scanSize: real, resolution: int, cos: real -> real, sin: real -> real)
    ensures resolution != 0 ==>
              SpiralSpec(scanSize, resolution, cos, sin).value[0] == (scanSize / 2.0, scanSize / 2.0)
  {
    var points := resolution * resolution;
    assert points >= 0 by {
      if resolution < 0 {
        assert points == (-resolution) * (-resolution);
      }
    }
    if resolution != 0 {
      assert points >= 1 by {
        if resolution < 0 {
          assert points == (-resolution) * (-resolution);
        }
      }
      var rMax := scanSize / 2.0;
      var theta := Linspace(0.0, 10.0 * Pi, points).value;
      var radius := Linspace(0.0, rMax, points).value;
      assert radius[0] == 0.0;
      var p := SpiralSpec(scanSize, resolution, cos, sin).value[0];
      assert p == (radius[0] * cos(theta[0]) + rMax, radius[0] * sin(theta[0]) + rMax);
      assert p.0 == rMax && p.1 == rMax;
    }
  }

  /**
   * profile_x: resolution points with y fixed at scan_size / 2 and x running from 0 up to
   * scan_size; profile_y is the same line with the two coordinates swapped.
   */
  lemma LineProfileShape(scanSize: real, resolution: int)
    requires resolution >= 0
    ensures LineProfile(scanSize, resolution, "x").Ok? && LineProfile(scanSize, resolution, "y").Ok?
    ensures var px := LineProfile(scanSize, resolution, "x").value;
            var py := LineProfile(scanSize, resolution, "y").value;
            |px| == resolution && |py| == resolution &&
            (forall k :: 0 <= k < resolution ==> px[k].1 == scanSize / 2.0) &&
            (forall k :: 0 <= k < resolution ==> py[k] == (px[k].1, px[k].0)) &&
            (resolution >= 1 ==> px[0].0 == 0.0) &&
            (resolution >= 2 ==> px[resolution - 1].0 == scanSize)
  {
  }

  /** Any axis other than "x" gives the profile_y shape. */
  lemma OtherAxisIsY(scanSize: real, resolution: int, axis: string)
    requires axis != "x"
    ensures LineProfile(scanSize, resolution, axis) == LineProfile(scanSize, resolution, "y")
  {
  }

  /** Two mode names that agree letter for letter up to ASCII case. */
  predicate SameUpToCase(m1: string, m2: string) {
    |m1| == |m2| && forall i :: 0 <= i < |m1| ==> Text.LowerChar(m1[i]) == Text.LowerChar(m2[i])
  }

  /** Mode names that differ only in ASCII letter case select the same pattern once lower-cased. */
  lemma DispatchIgnoresCase(scanSize: real, resolution: int, m1: string, m2: string, cos: real -> real, sin: real -> real)
    requires SameUpToCase(m1, m2)
    ensures PatternSpec(scanSize, resolution, Text.Lower(m1), cos, sin)
         == PatternSpec(scanSize, resolution, Text.Lower(m2), cos, sin)
  {
    assert Text.Lower(m1) == Text.Lower(m2);
  }

  /** An upper-case name reaches its pattern: "RASTER" is the raster. */
  lemma UpperCaseRaster(scanSize: real, resolution: int, cos: real -> real, sin: real -> real)
    ensures PatternSpec(scanSize, resolution, Text.Lower("RASTER"), cos, sin) == RasterSpec(scanSize, resolution)
  {
    var raster := Text.Lower("RASTER");
    assert forall i | 0 <= i < |raster| :: raster[i] == "raster"[i];
    assert raster == "raster";
  }

  /** A mixed-case name reaches its pattern: "Profile_X" is the x profile. */
  lemma MixedCaseProfile(scanSize: real, resolution: int, cos: real -> real, sin: real -> real)
    ensures PatternSpec(scanSize, resolution, Text.Lower("Profile_X"), cos, sin) == LineProfile(scanSize, resolution, "x")
  {
    var profile := Text.Lower("Profile_X");
    assert forall i | 0 <= i < |profile| :: profile[i] == "profile_x"[i];
    assert profile == "profile_x";
  }

  class ScanPatternSimulator {
    const scanSize: real
    const resolution: int
    /** The mode, lower-cased once at construction. */
    const mode: string
    /** numpy.cos and numpy.sin, left uninterpreted. */
    const cos: real -> real
    const sin: real -> real

    constructor (scanSize: real, resolution: int, modeName: string, cos: real -> real, sin: real -> real)
      ensures this.scanSize == scanSize && this.resolution == resolution
      ensures this.mode == Text.Lower(modeName)
      ensures this.cos == cos && this.sin == sin
    {
      this.scanSize := scanSize;
      this.resolution := resolution;
      this.mode := Text.Lower(modeName);
      this.cos := cos;
      this.sin := sin;
    }

    /** _raster_pattern: rows appended one by one with pattern.extend. */
    method RasterPattern() returns (r: Result<seq<Point>, PyError>)
      ensures r == RasterSpec(scanSize, resolution)
    {
      var xVals := Linspace(0.0, scanSize, resolution);
      var yVals := Linspace(0.0, scanSize, resolution);
      if xVals.Err? {
        return Err(xVals.error);
      }
      var xs, ys := xVals.value, yVals.value;
      ghost var rows := SerpentineRows(xs, ys);
      var pattern: seq<Point> := [];
      var i := 0;
      while i < |ys|
        invariant 0 <= i <= |ys|
        invariant pattern == Flatten(rows[..i])
      {
        var row := Row(xs, ys[i], i % 2 == 0);
        assert rows[..i + 1] == rows[..i] + [row];
        FlattenSnoc(rows[..i], row);
        pattern := pattern + row;
        i := i + 1;
      }
      assert rows[..|ys|] == rows;
      return Ok(pattern);
    }

    /** generate_pattern: dispatch on the stored mode. */
    method GeneratePattern() returns (r: Result<seq<Point>, PyError>)
      ensures r == PatternSpec(scanSize, resolution, mode, cos, sin)
    {
      if mode == "raster" {
        r := RasterPattern();
      } else if mode == "spiral" {
        r := SpiralSpec(scanSize, resolution, cos, sin);
      } else if mode == "profile_x" {
        r := LineProfile(scanSize, resolution, "x");
      } else if mode == "profile_y" {
        r := LineProfile(scanSize, resolution, "y");
      } else {
        r := Err(ValueError);
      }
    }
  }
}
