/** The few numpy and list operations the simulators rely on, over exact reals. */
module ArrayModel {
  import opened Results

  /** numpy.pi. */
  const Pi: real := 3.141592653589793

  /**
   * numpy.linspace(start, stop, num): num evenly spaced values from start to stop inclusive;
   * a negative num raises ValueError.
   */
  function Linspace(start: real, stop: real, num: int): (r: Result<seq<real>, PyError>)
    ensures num < 0 <==> r == Err(ValueError)
    ensures r.Ok? ==> |r.value| == num
    ensures r.Ok? && num >= 1 ==> r.value[0] == start
    ensures r.Ok? && num >= 2 ==> r.value[num - 1] == stop
  {
    if num < 0 then Err(ValueError)
    else if num == 1 then Ok([start])
    else
      var step := (stop - start) / ((num - 1) as real);
      assert num >= 2 ==> ((num - 1) as real) * step == stop - start;
      Ok(seq(num, i => start + (i as real) * step))
  }

  /** Consecutive linspace values differ by (stop - start) / (num - 1). */
  lemma LinspaceSpacing(start: real, stop: real, num: int, i: int)
    requires num >= 2 && 0 <= i < num - 1
    ensures var v := Linspace(start, stop, num).value;
            v[i + 1] - v[i] == (stop - start) / ((num - 1) as real)
  {
    var step := (stop - start) / ((num - 1) as real);
    assert ((i + 1) as real) * step - (i as real) * step == step;
  }

  /** Concatenation of rows (list.extend in a loop). */
  function Flatten<T>(rows: seq<seq<T>>): seq<T> {
    if rows == [] then [] else rows[0] + Flatten(rows[1..])
  }

  lemma {:induction false} FlattenSnoc<T>(rows: seq<seq<T>>, row: seq<T>)
    ensures Flatten(rows + [row]) == Flatten(rows) + row
    decreases |rows|
  {
    if rows == [] {
      assert rows + [row] == [row];
      assert Flatten([row]) == row + Flatten([]);
    } else {
      assert (rows + [row])[1..] == rows[1..] + [row];
      FlattenSnoc(rows[1..], row);
    }
  }

  /** Rows of equal width w flatten to |rows| * w elements. */
  lemma {:induction false} FlattenLength<T>(rows: seq<seq<T>>, w: nat)
    requires forall i :: 0 <= i < |rows| ==> |rows[i]| == w
    ensures |Flatten(rows)| == |rows| * w
    decreases |rows|
  {
    if rows != [] {
      FlattenLength(rows[1..], w);
      MulSucc(|rows| - 1, w);
    }
  }

  /** Element j of row i of a uniform-width table sits at i * w + j of its flattening. */
  lemma {:induction false} FlattenIndex<T>(rows: seq<seq<T>>, w: nat, i: nat, j: nat)
    requires forall k :: 0 <= k < |rows| ==> |rows[k]| == w
    requires i < |rows| && j < w
    ensures i * w + j < |Flatten(rows)|
    ensures Flatten(rows)[i * w + j] == rows[i][j]
    decreases |rows|
  {
    FlattenLength(rows, w);
    RowMajorBound(i, j, |rows|, w);
    if i > 0 {
      var rest := rows[1..];
      FlattenIndex(rest, w, i - 1, j);
      MulSucc(i - 1, w);
      assert rows[i] == rest[i - 1];
    }
  }

  /** Row-major arithmetic, kept apart from the sequence reasoning. */
  lemma MulSucc(i: int, n: int)
    ensures (i + 1) * n == i * n + n
  {
  }

  /** Cell (i, j) of a rows-by-w table has a row-major index below rows * w. */
  lemma RowMajorBound(i: int, j: int, rows: nat, w: nat)
    requires 0 <= i < rows && 0 <= j < w
    ensures 0 <= i * w + j < rows * w
  {
    MulSucc(i, w);
    assert (i + 1) * w <= rows * w;
  }

  /** An index below rows * w splits into a row below rows and a column below w. */
  lemma SplitRowMajor(k: int, rows: nat, w: nat)
    requires w >= 1 && 0 <= k < rows * w
    ensures 0 <= k / w < rows && 0 <= k % w < w && (k / w) * w + k % w == k
  {
    var q := k / w;
    if q >= rows {
      MulMono(rows, q, w);
    }
  }

  lemma MulMono(a: nat, b: nat, w: nat)
    requires a <= b
    ensures a * w <= b * w
  {
  }

  /** Row-major index q * n + r splits back into row q and column r. */
  lemma DivModOf(q: int, r: int, n: int)
    requires n > 0 && 0 <= r < n
    ensures (q * n + r) / n == q && (q * n + r) % n == r
  {
    var k := q * n + r;
    var d := k / n - q;
    assert d * n == r - k % n by {
      assert k == (k / n) * n + k % n;
      assert (k / n) * n == q * n + d * n;
    }
  }
}
