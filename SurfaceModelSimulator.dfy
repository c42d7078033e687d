/**
 * simulation/surface_model_simulator.py: a height map of a virtual sample, chosen by model name,
 * with a clamped lookup by (x, y) index. Heights are built over numpy.meshgrid of two linspace
 * axes; numpy's sin, exp and random generator are left uninterpreted.
 */
module SurfaceModelSimulator {
  import opened Results
  import Text
  import opened ArrayModel
  import opened ScanConfig

  const Models: set<string> := {"sinusoidal", "random", "step", "pit", "ridge"}

  /** numpy.sin, numpy.exp and the cells of numpy.random.rand. */
  datatype Numerics = Numerics(sin: real -> real, exp: real -> real, rand: (nat, nat) -> real)

  /** A 2-D array as a sequence of rows. */
  type Grid = seq<seq<real>>

  predicate HasShape(g: Grid, rows: nat, cols: nat) {
    |g| == rows && forall i :: 0 <= i < rows ==> |g[i]| == cols
  }

  /** f applied over numpy.meshgrid(xs, ys): one row per y value, one column per x value. */
  function Meshgrid(xs: seq<real>, ys: seq<real>, f: (real, real) -> real): (g: Grid)
    ensures HasShape(g, |ys|, |xs|)
  {
    seq(|ys|, i requires 0 <= i < |ys| => seq(|xs|, j requires 0 <= j < |xs| => f(xs[j], ys[i])))
  }

  /** amplitude * numpy.random.rand(rows, cols). */
  function RandomGrid(rows: nat, cols: nat, amplitude: real, num: Numerics): (g: Grid)
    ensures HasShape(g, rows, cols)
  {
    seq(rows, i requires 0 <= i < rows => seq(cols, j requires 0 <= j < cols => amplitude * num.rand(i, j)))
  }

  /** The height of a meshgrid-based model at meshgrid values (X, Y). */
  function MeshHeight(model: string, amplitude: real, num: Numerics, x: real, y: real): real {
    if model == "sinusoidal" then amplitude * num.sin(x) * num.sin(y)
    else if model == "step" then (if x < Pi then 0.0 else amplitude)
    else if model == "pit" then -amplitude * num.exp(-((x - Pi) * (x - Pi) + (y - Pi) * (y - Pi)))
    else amplitude * num.exp(-((y - Pi) * (y - Pi)))
  }

  /**
   * _generate_surface for size (width, height). Both linspace axes are built first, so a negative
   * size raises ValueError before the model name is looked at; an unknown name raises ValueError.
   * The random model's shape is (height, width) when `corrected` and (width, height) as written.
   */
  function GenerateWith(model: string, width: int, height: int, amplitude: real, frequency: real,
                        num: Numerics, corrected: bool): (r: Result<Grid, PyError>)
    ensures r.Ok? <==> width >= 0 && height >= 0 && model in Models
    ensures r.Err? ==> r.error == ValueError
    ensures r.Ok? && (corrected || model != "random") ==> HasShape(r.value, height, width)
    ensures r.Ok? && !corrected && model == "random" ==> HasShape(r.value, width, height)
  {
    var top := 2.0 * Pi * frequency;
    match Linspace(0.0, top, width)
    case Err(e) => Err(e)
    case Ok(xs) =>
      match Linspace(0.0, top, height)
      case Err(e) => Err(e)
      case Ok(ys) =>
        if model == "random" then
          (if corrected then Ok(RandomGrid(|ys|, |xs|, amplitude, num))
           else Ok(RandomGrid(|xs|, |ys|, amplitude, num)))
        else if model in Models then Ok(Meshgrid(xs, ys, (x, y) => MeshHeight(model, amplitude, num, x, y)))
        else Err(ValueError)
  }

  /** A constructed simulator: the lower-cased model name, the size and the generated surface. */
  datatype SurfaceModel = SurfaceModel(modelType: string, width: int, height: int,
                                       amplitude: real, frequency: real, surface: Grid)

  /** SurfaceModelSimulator(model_type, size, amplitude, frequency), with the corrected random shape. */
  function NewSurfaceModel(modelType: string, width: int, height: int, amplitude: real, frequency: real,
                           num: Numerics): (r: Result<SurfaceModel, PyError>)
    ensures r.Ok? ==> r.value.modelType == Text.Lower(modelType) && r.value.width == width
                      && r.value.height == height && r.value.amplitude == amplitude
                      && r.value.frequency == frequency
    ensures r.Ok? ==> width >= 0 && height >= 0 && HasShape(r.value.surface, height, width)
  {
    var model := Text.Lower(modelType);
    match GenerateWith(model, width, height, amplitude, frequency, num, true)
    case Err(e) => Err(e)
    case Ok(g) => Ok(SurfaceModel(model, width, height, amplitude, frequency, g))
  }

  /** The same constructor with the random shape as written. */
  function NewSurfaceModelAsWritten(modelType: string, width: int, height: int, amplitude: real,
                                    frequency: real, num: Numerics): (r: Result<SurfaceModel, PyError>)
    ensures r.Ok? ==> r.value.modelType == Text.Lower(modelType) && r.value.width == width
                      && r.value.height == height && r.value.amplitude == amplitude
                      && r.value.frequency == frequency
    ensures r.Ok? ==> width >= 0 && height >= 0
    ensures r.Ok? && r.value.modelType != "random" ==> HasShape(r.value.surface, height, width)
    ensures r.Ok? && r.value.modelType == "random" ==> HasShape(r.value.surface, width, height)
  {
    var model := Text.Lower(modelType);
    match GenerateWith(model, width, height, amplitude, frequency, num, false)
    case Err(e) => Err(e)
    case Ok(g) => Ok(SurfaceModel(model, width, height, amplitude, frequency, g))
  }

  /** numpy.clip(v, lo, hi) on integers; when lo > hi the result is hi. */
  function Clip(v: int, lo: int, hi: int): (r: int)
    ensures lo <= hi ==> lo <= r <= hi
    ensures lo <= v <= hi ==> r == v
    ensures lo > hi ==> r == hi
  {
    var up := if v < lo then lo else v;
    if up > hi then hi else up
  }

  /**
   * get_height(x_idx, y_idx): x clipped to [0, width - 1] and y to [0, height - 1], then
   * surface[y, x] with numpy's indexing (negative indexes count from the end).
   */
  function GetHeight(m: SurfaceModel, xIdx: int, yIdx: int): (r: Result<real, PyError>)
    ensures r.Err? ==> r.error == IndexError
    ensures var x := Clip(xIdx, 0, m.width - 1);
            var y := Clip(yIdx, 0, m.height - 1);
            0 <= y < |m.surface| && 0 <= x < |m.surface[y]| ==> r == Ok(m.surface[y][x])
  {
    var x := Clip(xIdx, 0, m.width - 1);
    var y := Clip(yIdx, 0, m.height - 1);
    match AxisIndex(y, |m.surface|)
    case Err(e) => Err(e)
    case Ok(row) =>
      match AxisIndex(x, |m.surface[row]|)
      case Err(e) => Err(e)
      case Ok(col) => Ok(m.surface[row][col])
  }

  /** The model name is compared after lower-casing; an unknown name, or a negative size, raises ValueError. */
  lemma ConstructionErrors(modelType: string, width: int, height: int, amplitude: real, frequency: real, num: Numerics)
    ensures NewSurfaceModel(modelType, width, height, amplitude, frequency, num).Err? <==>
              (width < 0 || height < 0 || Text.Lower(modelType) !in Models)
    ensures NewSurfaceModel(modelType, width, height, amplitude, frequency, num).Err? ==>
              NewSurfaceModel(modelType, width, height, amplitude, frequency, num).error == ValueError
    ensures NewSurfaceModel(modelType, width, height, amplitude, frequency, num).Ok? ==>
              NewSurfaceModel(modelType, width, height, amplitude, frequency, num).value.modelType == Text.Lower(modelType)
  {
  }

  /** Every constructed surface, random included, has height rows of width cells. */
  lemma SurfaceShape(modelType: string, width: int, height: int, amplitude: real, frequency: real, num: Numerics)
    requires NewSurfaceModel(modelType, width, height, amplitude, frequency, num).Ok?
    ensures var m := NewSurfaceModel(modelType, width, height, amplitude, frequency, num).value;
            width >= 0 && height >= 0 && HasShape(m.surface, height, width)
  {
  }

  /** As written, the random model instead has width rows of height cells. */
  lemma RandomShapeAsWritten(width: nat, height: nat, amplitude: real, frequency: real, num: Numerics)
    ensures NewSurfaceModelAsWritten("random", width, height, amplitude, frequency, num).Ok?
    ensures HasShape(NewSurfaceModelAsWritten("random", width, height, amplitude, frequency, num).value.surface, width, height)
  {
    assert Text.Lower("random") == "random";
  }

  /**
   * On a surface of height rows of width cells with both at least 1, every lookup succeeds,
   * and it reads the cell at the clipped indexes.
   */
  lemma ClampedLookupInBounds(m: SurfaceModel, xIdx: int, yIdx: int)
    requires m.width >= 1 && m.height >= 1 && HasShape(m.surface, m.height, m.width)
    ensures GetHeight(m, xIdx, yIdx).Ok?
    ensures GetHeight(m, xIdx, yIdx).value
         == m.surface[Clip(yIdx, 0, m.height - 1)][Clip(xIdx, 0, m.width - 1)]
  {
  }

  /** Every model constructed with a non-empty size answers every lookup. */
  lemma LookupAlwaysSucceeds(modelType: string, width: int, height: int, amplitude: real, frequency: real,
                             num: Numerics, xIdx: int, yIdx: int)
    requires width >= 1 && height >= 1
    requires NewSurfaceModel(modelType, width, height, amplitude, frequency, num).Ok?
    ensures GetHeight(NewSurfaceModel(modelType, width, height, amplitude, frequency, num).value, xIdx, yIdx).Ok?
  {
    SurfaceShape(modelType, width, height, amplitude, frequency, num);
    ClampedLookupInBounds(NewSurfaceModel(modelType, width, height, amplitude, frequency, num).value, xIdx, yIdx);
  }

  /**
   * The transposed random surface as written: with size (2, 3), get_height(0, 2) clips y to 2
   * and indexes row 2 of a two-row array, which raises IndexError.
   */
  lemma RandomLookupOutOfRange(amplitude: real, frequency: real, num: Numerics)
    ensures NewSurfaceModelAsWritten("random", 2, 3, amplitude, frequency, num).Ok?
    ensures GetHeight(NewSurfaceModelAsWritten("random", 2, 3, amplitude, frequency, num).value, 0, 2) == Err(IndexError)
  {
    RandomShapeAsWritten(2, 3, amplitude, frequency, num);
  }

  /** The step model's heights are 0 or the amplitude, and nothing else. */
  lemma StepIsTwoValued(width: int, height: int, amplitude: real, frequency: real, num: Numerics, i: int, j: int)
    requires NewSurfaceModel("step", width, height, amplitude, frequency, num).Ok?
    ensures var g := NewSurfaceModel("step", width, height, amplitude, frequency, num).value.surface;
            0 <= i < |g| && 0 <= j < |g[i]| ==> g[i][j] == 0.0 || g[i][j] == amplitude
  {
    assert Text.Lower("step") == "step";
  }
}
