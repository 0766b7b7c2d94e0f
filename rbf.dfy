/** `RBFModel`: a linear classifier over radial-basis features, one per centre. */
module Rbf {
  import opened Common
  import opened Base
  import opened Labels

  /** The kernel `kern`, applied to a scaled distance. */
  type Kernel = real -> real

  /** The closed-form solve `_calc_w_lin`, taken as given: a function of the transformed X
      and y that yields one weight per column, or None where the matrix inverse raises. */
  type Solver = (Matrix, seq<real>) -> Option<seq<real>>

  /** The feature vector of x: a leading 1, then `kern(dist(x, Mu[i]) / r)` per centre. */
  function Features(Mu: seq<seq<real>>, kern: Kernel, dist: Distance, r: real, x: seq<real>)
    : (z: seq<real>)
    requires r != 0.0
    ensures |z| == |Mu| + 1 && z[0] == 1.0
    ensures forall i :: 0 <= i < |Mu| ==> z[i + 1] == kern(dist(x, Mu[i]) / r)
  {
    [1.0] + seq(|Mu|, i requires 0 <= i < |Mu| => kern(dist(x, Mu[i]) / r))
  }

  /** `_feat_trans`: start from `[1]` and append one kernel value per centre. */
  method FeatTrans(Mu: seq<seq<real>>, kern: Kernel, dist: Distance, r: real, x: seq<real>)
    returns (z: seq<real>)
    requires r != 0.0
    ensures z == Features(Mu, kern, dist, r, x)
    ensures |z| == |Mu| + 1 && z[0] == 1.0
    ensures forall i :: 0 <= i < |Mu| ==> z[i + 1] == kern(dist(x, Mu[i]) / r)
  {
    z := [1.0];
    var i := 0;
    while i < |Mu|
      invariant 0 <= i <= |Mu|
      invariant |z| == i + 1 && z[0] == 1.0
      invariant forall j :: 0 <= j < i ==> z[j + 1] == kern(dist(x, Mu[j]) / r)
    {
      z := z + [kern(dist(x, Mu[i]) / r)];
      i := i + 1;
    }
    assert forall j :: 0 <= j < |z| ==> z[j] == Features(Mu, kern, dist, r, x)[j];
  }

  /** The transformed training rows, one feature vector per row. */
  function FeatureRows(Mu: seq<seq<real>>, kern: Kernel, dist: Distance, r: real,
                       X: seq<seq<real>>): (F: Matrix)
    requires r != 0.0
    ensures Rectangular(F) && F.cols == |Mu| + 1 && |F.rows| == |X|
    ensures forall i :: 0 <= i < |X| ==> F.rows[i] == Features(Mu, kern, dist, r, X[i])
  {
    Matrix(seq(|X|, i requires 0 <= i < |X| => Features(Mu, kern, dist, r, X[i])), |Mu| + 1)
  }

  /** A built `RBFModel`: the transformed training rows, the labels, the centres, the kernel,
      the distance, the scale r and the weights. Nothing changes after construction. */
  datatype RbfModel = RbfModel(X: Matrix, y: seq<real>, Mu: seq<seq<real>>, kern: Kernel,
                               dist: Distance, r: real, w: seq<real>)

  predicate ValidModel(m: RbfModel)
  {
    m.r != 0.0 && Rectangular(m.X) && |m.y| == |m.X.rows| && |m.w| == |m.Mu| + 1 &&
    m.X.cols == |m.Mu| + 1
  }

  /** `RBFModel.__init__`: the base validation with no transform, then each row replaced by
      its feature vector and the weights solved for. */
  function Create(X: NdArray, y: NdArray, Mu: seq<seq<real>>, kern: Kernel, dist: Distance,
                  r: real, solve: Solver): (res: Result<RbfModel>)
    requires WellFormed(X) && WellFormed(y) && r != 0.0
    requires forall A: Matrix, b: seq<real> :: solve(A, b).Some? ==> |solve(A, b).value| == A.cols
    ensures !ShapesAgree(X, y) ==> res == Err(Validate(X, y, None).error)
    ensures ShapesAgree(X, y) ==>
              var F := FeatureRows(Mu, kern, dist, r, RowsOf(X).rows);
              && (res.Ok? <==> solve(F, y.data).Some?)
              && (res.Err? ==> res == Err(SolveFailed))
              && (res.Ok? ==>
                    res.value == RbfModel(F, y.data, Mu, kern, dist, r, solve(F, y.data).value))
    ensures res.Ok? ==> ValidModel(res.value)
  {
    match Validate(X, y, None)
    case Err(e) => Err(e)
    case Ok(d) =>
      var F := FeatureRows(Mu, kern, dist, r, d.X.rows);
      match solve(F, d.y)
      case None => Err(SolveFailed)
      case Some(w) => Ok(RbfModel(F, d.y, Mu, kern, dist, r, w))
  }

  /** `RBFModel.classify_all(X)`: the transform is always set, so every point is transformed
      first; then `X @ w` and the masked writes. With no points the transformed array has no
      second dimension and the product with w is refused. */
  method ClassifyAll(m: RbfModel, X: seq<seq<real>>) returns (res: Result<seq<real>>)
    requires ValidModel(m)
    ensures |X| == 0 ==> res == Err(ShapesNotAligned(0, |m.w|))
    ensures res.Ok? <==> |X| > 0
    ensures res.Ok? ==> |res.value| == |X| && AllLabels(res.value)
    ensures res.Ok? ==> forall i :: 0 <= i < |X| ==>
              res.value[i] == Classify(Features(m.Mu, m.kern, m.dist, m.r, X[i]), m.w) as real
  {
    if |X| == 0 {
      return Err(ShapesNotAligned(0, |m.w|));
    }
    var rows: seq<seq<real>> := [];
    var i := 0;
    while i < |X|
      invariant 0 <= i <= |X| && |rows| == i
      invariant forall j :: 0 <= j < i ==> rows[j] == Features(m.Mu, m.kern, m.dist, m.r, X[j])
    {
      var z := FeatTrans(m.Mu, m.kern, m.dist, m.r, X[i]);
      rows := rows + [z];
      i := i + 1;
    }
    var F := Matrix(rows, |m.Mu| + 1);
    var pred := Predict(F, m.w);
    PredictionsAreLabels(F, m.w);
    res := Ok(pred);
  }
}
