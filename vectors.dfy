/** Vectors of exact reals standing in for numpy float vectors. */
module Vectors {

  /** `np.dot(a, b)` on two vectors of the same length. */
  function Dot(a: seq<real>, b: seq<real>): (r: real)
    requires |a| == |b|
    ensures |a| == 0 ==> r == 0.0
  {
    if |a| == 0 then 0.0 else a[0] * b[0] + Dot(a[1..], b[1..])
  }

  /** `w + a * x`, element by element. */
  function AddScaled(w: seq<real>, a: real, x: seq<real>): (r: seq<real>)
    requires |w| == |x|
    ensures |r| == |w|
  {
    seq(|w|, j requires 0 <= j < |w| => w[j] + a * x[j])
  }

  /** A vector's dot product with itself, the ridge penalty `w @ w`, is never negative. */
  lemma {:induction false} DotSelfNonnegative(w: seq<real>)
    ensures Dot(w, w) >= 0.0
  {
    if |w| > 0 {
      DotSelfNonnegative(w[1..]);
      assert w[0] * w[0] >= 0.0;
    }
  }

  /** Dot product distributes over the perceptron update `w + a * x'`. */
  lemma {:induction false} DotAddScaled(x: seq<real>, w: seq<real>, a: real, x': seq<real>)
    requires |x| == |w| == |x'|
    ensures Dot(x, AddScaled(w, a, x')) == Dot(x, w) + a * Dot(x, x')
  {
    if |x| > 0 {
      assert AddScaled(w, a, x')[1..] == AddScaled(w[1..], a, x'[1..]) by {
        forall j | 0 <= j < |w| - 1
          ensures AddScaled(w, a, x')[1..][j] == AddScaled(w[1..], a, x'[1..])[j]
        {
        }
      }
      DotAddScaled(x[1..], w[1..], a, x'[1..]);
      assert x[0] * (w[0] + a * x'[0]) == x[0] * w[0] + a * (x[0] * x'[0]);
    }
  }
}
