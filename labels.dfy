/** The threshold rule and the label-disagreement measure shared by the three models. */
module Labels {
  import opened Vectors
  import opened Base

  /** `LinearModel._classify`: the label of a point x under the weight vector w. */
  function Classify(x: seq<real>, w: seq<real>): (c: int)
    requires |x| == |w|
    ensures c == 1 || c == -1
    ensures c as real * Dot(x, w) >= 0.0
    ensures Dot(x, w) == 0.0 ==> c == 1
  {
    if Dot(x, w) >= 0.0 then 1 else -1
  }

  /** The value a score takes after both masked writes: 1 for a score >= 0, -1 below. */
  function Sign(v: real): (s: real)
    ensures s == 1.0 || s == -1.0
    ensures s == 1.0 <==> v >= 0.0
  {
    if v >= 0.0 then 1.0 else -1.0
  }

  /** The thresholded predictions `sign(X @ w)` as floats, one per row. */
  function Predictions(X: Matrix, w: seq<real>): (p: seq<real>)
    requires Rectangular(X) && X.cols == |w|
    ensures |p| == |X.rows|
  {
    seq(|X.rows|, i requires 0 <= i < |X.rows| => Classify(X.rows[i], w) as real)
  }

  /** The two masked writes `pred[pred >= 0] = 1` and then `pred[pred < 0] = -1`. */
  method Threshold(pred: array<real>)
    modifies pred
    ensures forall i :: 0 <= i < pred.Length ==> pred[i] == Sign(old(pred[i]))
  {
    var i := 0;
    while i < pred.Length
      invariant 0 <= i <= pred.Length
      invariant forall j :: 0 <= j < i ==>
                  pred[j] == (if old(pred[j]) >= 0.0 then 1.0 else old(pred[j]))
      invariant forall j :: i <= j < pred.Length ==> pred[j] == old(pred[j])
    {
      if pred[i] >= 0.0 {
        pred[i] := 1.0;
      }
      i := i + 1;
    }
    i := 0;
    while i < pred.Length
      invariant 0 <= i <= pred.Length
      invariant forall j :: 0 <= j < i ==> pred[j] == Sign(old(pred[j]))
      invariant forall j :: i <= j < pred.Length ==>
                  pred[j] == (if old(pred[j]) >= 0.0 then 1.0 else old(pred[j]))
    {
      if pred[i] < 0.0 {
        pred[i] := -1.0;
      }
      i := i + 1;
    }
  }

  /** `pred = X @ w` followed by the two masked writes: each entry ends as the label that
      `Classify` gives its row, so the second write never undoes the first. */
  method Predict(X: Matrix, w: seq<real>) returns (p: seq<real>)
    requires Rectangular(X) && X.cols == |w|
    ensures |p| == |X.rows|
    ensures forall i :: 0 <= i < |X.rows| ==> p[i] == Classify(X.rows[i], w) as real
    ensures p == Predictions(X, w)
  {
    var n := |X.rows|;
    var pred := new real[n](i requires 0 <= i < n => Dot(X.rows[i], w));
    Threshold(pred);
    p := pred[..];
  }

  function Abs(v: real): real
  {
    if v < 0.0 then -v else v
  }

  /** `np.sum(np.abs(pred - y) / 2)`. */
  function HalfAbsDiffSum(p: seq<real>, y: seq<real>): (s: real)
    requires |p| == |y|
    ensures s >= 0.0
  {
    if |p| == 0 then 0.0 else Abs(p[0] - y[0]) / 2.0 + HalfAbsDiffSum(p[1..], y[1..])
  }

  /** Predictions equal to the labels contribute nothing to the sum. */
  lemma {:induction false} HalfAbsDiffSumSelf(y: seq<real>)
    ensures HalfAbsDiffSum(y, y) == 0.0
  {
    if |y| > 0 {
      HalfAbsDiffSumSelf(y[1..]);
    }
  }

  /** A class label of the models: 1 or -1. */
  predicate IsLabel(v: real)
  {
    v == 1.0 || v == -1.0
  }

  predicate AllLabels(s: seq<real>)
  {
    forall i :: 0 <= i < |s| ==> IsLabel(s[i])
  }

  /** The number of positions where two label sequences disagree. */
  function Mismatches(p: seq<real>, y: seq<real>): (n: nat)
    requires |p| == |y|
    ensures n <= |p|
    ensures n == 0 <==> p == y
  {
    if |p| == 0 then 0
    else
      assert p == [p[0]] + p[1..] && y == [y[0]] + y[1..];
      (if p[0] != y[0] then 1 else 0) + Mismatches(p[1..], y[1..])
  }

  /** With labels in {1, -1} on both sides, the half absolute difference counts the
      disagreements: each one contributes |1 - (-1)| / 2 = 1. */
  lemma {:induction false} HalfAbsDiffCountsMismatches(p: seq<real>, y: seq<real>)
    requires |p| == |y| && AllLabels(p) && AllLabels(y)
    ensures HalfAbsDiffSum(p, y) == Mismatches(p, y) as real
  {
    if |p| > 0 {
      assert AllLabels(p[1..]) && AllLabels(y[1..]) by {
        assert forall i :: 0 <= i < |p| - 1 ==> p[1..][i] == p[i + 1] && y[1..][i] == y[i + 1];
      }
      HalfAbsDiffCountsMismatches(p[1..], y[1..]);
      assert IsLabel(p[0]) && IsLabel(y[0]);
    }
  }

  /** The predictions are labels whatever the weights. */
  lemma PredictionsAreLabels(X: Matrix, w: seq<real>)
    requires Rectangular(X) && X.cols == |w|
    ensures AllLabels(Predictions(X, w))
  {
  }
}
