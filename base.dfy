/** The validation and feature transformation shared by every model (`BaseModel.__init__`). */
module Base {
  import opened Common

  /** A numpy array after `np.array(..., dtype='float')`: its shape and its elements in
      row-major order. */
  datatype NdArray = NdArray(shape: seq<nat>, data: seq<real>)

  /** Number of elements an array of the given shape holds. */
  function Product(s: seq<nat>): nat
  {
    if |s| == 0 then 1 else s[0] * Product(s[1..])
  }

  /** The element buffer has exactly as many entries as the shape calls for. */
  predicate WellFormed(a: NdArray)
  {
    |a.data| == Product(a.shape)
  }

  /** A two-dimensional array given by its rows. The width is kept apart from the rows so that
      a matrix with no rows still has one. */
  datatype Matrix = Matrix(rows: seq<seq<real>>, cols: nat)

  /** Every row has the matrix's width. */
  predicate Rectangular(m: Matrix)
  {
    forall i :: 0 <= i < |m.rows| ==> |m.rows[i]| == m.cols
  }

  /** What a feature transform does with one point: it returns a new point or raises. */
  datatype TransformOutcome = Mapped(point: seq<real>) | Raised(cause: string)

  /** A per-point feature transform; it is deterministic and has no side effects. */
  type Transform = seq<real> -> TransformOutcome

  /** A point distance, taken as given: `_euclidean_distance` in `kNNModel`, and
      `np.linalg.norm(x - mu)` against a centre in `RBFModel`. */
  type Distance = (seq<real>, seq<real>) -> real

  /** The stored base state of a model: the validated X, y and the optional transform. */
  datatype Dataset = Dataset(X: Matrix, y: seq<real>, featTrans: Option<Transform>)

  /** X is rectangular and has one row per label. */
  predicate ValidDataset(d: Dataset)
  {
    Rectangular(d.X) && |d.X.rows| == |d.y|
  }

  lemma ProductOfPair(s: seq<nat>)
    requires |s| == 2
    ensures Product(s) == s[0] * s[1]
  {
    assert s[1..][1..] == [];
    assert Product(s[1..]) == s[1] * Product(s[1..][1..]);
  }

  lemma RowFits(i: nat, j: nat, n: nat, d: nat)
    requires i < n && j < d
    ensures i * d + j < i * d + d <= n * d
  {
    assert n * d == i * d + d + (n - i - 1) * d;
  }

  /** Row `i` of an `n` by `d` row-major buffer. */
  function Row(data: seq<real>, n: nat, d: nat, i: nat): (row: seq<real>)
    requires |data| == n * d && i < n
    ensures |row| == d
    ensures forall j :: 0 <= j < d ==> i * d + j < |data| && row[j] == data[i * d + j]
  {
    if d == 0 then []
    else
      RowFits(i, 0, n, d);
      var row := data[i * d .. i * d + d];
      assert forall j :: 0 <= j < d ==> i * d + j < |data| && row[j] == data[i * d + j] by {
        forall j | 0 <= j < d ensures i * d + j < |data| && row[j] == data[i * d + j] {
          RowFits(i, j, n, d);
        }
      }
      row
  }

  /** The rows of a two-dimensional array read off its row-major buffer. */
  function RowsOf(a: NdArray): (m: Matrix)
    requires WellFormed(a) && |a.shape| == 2
    ensures Rectangular(m) && |m.rows| == a.shape[0] && m.cols == a.shape[1]
    ensures |a.data| == |m.rows| * m.cols
    ensures forall i :: 0 <= i < |m.rows| ==> m.rows[i] == Row(a.data, |m.rows|, m.cols, i)
  {
    ProductOfPair(a.shape);
    var n, d := a.shape[0], a.shape[1];
    Matrix(seq(n, i requires 0 <= i < n => Row(a.data, n, d, i)), d)
  }

  /** Row `i` is the first row whose transform raises, and `e` wraps its cause. */
  ghost predicate RaisesFirstAt(ft: Transform, rows: seq<seq<real>>, i: int, e: ModelError)
  {
    && 0 <= i < |rows|
    && ft(rows[i]).Raised?
    && e == TransformFailed(ft(rows[i]).cause)
    && forall j :: 0 <= j < i ==> ft(rows[j]).Mapped?
  }

  /** Some row raises first, with `e` wrapping its cause. */
  ghost predicate FirstRaise(ft: Transform, rows: seq<seq<real>>, e: ModelError)
  {
    exists i :: RaisesFirstAt(ft, rows, i, e)
  }

  /** `[feat_trans(x) for x in rows]`: stops at the first point whose transform raises. */
  function MapRows(ft: Transform, rows: seq<seq<real>>): (r: Result<seq<seq<real>>>)
    ensures r.Ok? ==> |r.value| == |rows|
    ensures r.Ok? ==> forall i :: 0 <= i < |rows| ==> ft(rows[i]) == Mapped(r.value[i])
    ensures r.Err? ==> FirstRaise(ft, rows, r.error)
  {
    if |rows| == 0 then Ok([])
    else
      match ft(rows[0])
      case Raised(cause) =>
        assert RaisesFirstAt(ft, rows, 0, TransformFailed(cause));
        Err(TransformFailed(cause))
      case Mapped(z) =>
        match MapRows(ft, rows[1..])
        case Err(e) =>
          assert FirstRaise(ft, rows, e) by {
            var i :| RaisesFirstAt(ft, rows[1..], i, e);
            assert rows[i + 1] == rows[1..][i];
            forall j | 0 <= j < i + 1 ensures ft(rows[j]).Mapped? {
              if j > 0 { assert rows[j] == rows[1..][j - 1]; }
            }
            assert RaisesFirstAt(ft, rows, i + 1, e);
          }
          Err(e)
        case Ok(zs) => Ok([z] + zs)
  }

  /** All rows have the length of the first, so numpy can stack them into a matrix. */
  predicate SameLengths(zs: seq<seq<real>>)
  {
    forall i :: 0 <= i < |zs| ==> |zs[i]| == |zs[0]|
  }

  /** `np.array([feat_trans(x) for x in rows], dtype='float')`, with a raise wrapped as a
      transform failure. */
  function TransformRows(ft: Transform, rows: seq<seq<real>>): (r: Result<Matrix>)
    ensures r.Ok? <==> MapRows(ft, rows).Ok? && SameLengths(MapRows(ft, rows).value)
    ensures r.Ok? ==> Rectangular(r.value) && |r.value.rows| == |rows|
    ensures r.Ok? ==> forall i :: 0 <= i < |rows| ==> ft(rows[i]) == Mapped(r.value.rows[i])
    ensures MapRows(ft, rows).Err? ==> r == Err(MapRows(ft, rows).error)
  {
    match MapRows(ft, rows)
    case Err(e) => Err(e)
    case Ok(zs) =>
      if |zs| == 0 then Ok(Matrix([], 0))
      else if SameLengths(zs) then Ok(Matrix(zs, |zs[0]|))
      else Err(TransformFailed(RaggedCause))
  }

  /** The transform of a single point before it is classified; no transform leaves it as is. */
  function TransformPoint(ft: Option<Transform>, x: seq<real>): (r: Result<seq<real>>)
    ensures ft.None? ==> r == Ok(x)
    ensures ft.Some? ==> (r.Ok? <==> ft.value(x).Mapped?)
    ensures ft.Some? && r.Ok? ==> ft.value(x) == Mapped(r.value)
    ensures ft.Some? && r.Err? ==> r.error == TransformFailed(ft.value(x).cause)
  {
    match ft
    case None => Ok(x)
    case Some(f) =>
      match f(x)
      case Mapped(z) => Ok(z)
      case Raised(cause) => Err(TransformFailed(cause))
  }

  /** X has two dimensions, y has one and both have the same length; a well-formed X then
      holds a full table of elements, and a well-formed y one label per row. */
  predicate ShapesAgree(X: NdArray, y: NdArray): (ok: bool)
    ensures ok && WellFormed(X) ==> |X.shape| == 2 && |X.data| == X.shape[0] * X.shape[1]
    ensures ok && WellFormed(y) ==> |X.shape| == 2 && |y.data| == X.shape[0]
  {
    if |X.shape| == 2 && |y.shape| == 1 && X.shape[0] == y.shape[0] then
      ProductOfPair(X.shape);
      assert y.shape[1..] == [];
      assert Product(y.shape) == y.shape[0] * Product(y.shape[1..]);
      true
    else
      false
  }

  /** `BaseModel.__init__`: the shape checks in their order, then the optional transform. */
  function Validate(X: NdArray, y: NdArray, featTrans: Option<Transform>): (r: Result<Dataset>)
    requires WellFormed(X) && WellFormed(y)
    ensures |X.shape| != 2 ==> r == Err(XNotTwoDimensional(X.shape))
    ensures |X.shape| == 2 && |y.shape| != 1 ==> r == Err(YNotOneDimensional(y.shape))
    ensures |X.shape| == 2 && |y.shape| == 1 && X.shape[0] != y.shape[0] ==>
              r == Err(UnequalLengths(X.shape[0], y.shape[0]))
    ensures r.Ok? <==> ShapesAgree(X, y) &&
                       (featTrans.Some? ==> TransformRows(featTrans.value, RowsOf(X).rows).Ok?)
    ensures r.Err? && ShapesAgree(X, y) ==> r.error.TransformFailed?
    ensures r.Err? && ShapesAgree(X, y) ==>
              featTrans.Some? && r == Err(TransformRows(featTrans.value, RowsOf(X).rows).error)
    ensures r.Ok? ==> ValidDataset(r.value) && r.value.y == y.data
    ensures r.Ok? ==> r.value.featTrans == featTrans && |r.value.X.rows| == X.shape[0]
    ensures r.Ok? && featTrans.None? ==> r.value.X == RowsOf(X)
    ensures r.Ok? && featTrans.Some? ==>
              forall i :: 0 <= i < X.shape[0] ==>
                            featTrans.value(RowsOf(X).rows[i]) == Mapped(r.value.X.rows[i])
  {
    if |X.shape| != 2 then Err(XNotTwoDimensional(X.shape))
    else if |y.shape| != 1 then Err(YNotOneDimensional(y.shape))
    else if X.shape[0] != y.shape[0] then Err(UnequalLengths(X.shape[0], y.shape[0]))
    else
      assert |y.data| == y.shape[0] by {
        assert y.shape[1..] == [];
        assert Product(y.shape) == y.shape[0] * Product(y.shape[1..]);
      }
      match featTrans
      case None => Ok(Dataset(RowsOf(X), y.data, featTrans))
      case Some(ft) =>
        match TransformRows(ft, RowsOf(X).rows)
        case Err(e) => Err(e)
        case Ok(m) => Ok(Dataset(m, y.data, featTrans))
  }

  /** With well-shaped inputs and no transform, validation always succeeds. */
  lemma ValidateAcceptsMatchingShapes(X: NdArray, y: NdArray)
    requires WellFormed(X) && WellFormed(y)
    requires ShapesAgree(X, y)
    ensures Validate(X, y, None).Ok?
    ensures Validate(X, y, None).value.X.rows == RowsOf(X).rows
  {
  }
}
