/** `kNNModel`: a vote among the k training points nearest to the query. */
module Knn {
  import opened Common
  import opened Base
  import opened Labels

  /** A built `kNNModel`: the validated training rows and labels, the default k, and the
      distance it ranks the rows by. Nothing changes after construction. */
  datatype KnnModel = KnnModel(X: Matrix, y: seq<real>, k: int, dist: Distance)

  predicate ValidModel(m: KnnModel)
  {
    Rectangular(m.X) && |m.y| == |m.X.rows|
  }

  /** `kNNModel.__init__`: the base validation with no transform, then the default k. */
  function Create(X: NdArray, y: NdArray, k: int, dist: Distance): (r: Result<KnnModel>)
    requires WellFormed(X) && WellFormed(y)
    ensures r.Ok? <==> ShapesAgree(X, y)
    ensures r.Err? ==> r == Err(Validate(X, y, None).error)
    ensures r.Ok? ==> ValidModel(r.value) && r.value.X == RowsOf(X) && r.value.y == y.data
    ensures r.Ok? ==> r.value.k == k && r.value.dist == dist
  {
    match Validate(X, y, None)
    case Err(e) => Err(e)
    case Ok(d) => Ok(KnnModel(d.X, d.y, k, dist))
  }

  // ---------------------------------------------------------------------------------------
  // Sorting (distance, label) pairs

  /** A (distance, label) pair of the neighbour list. */
  type Pair = (real, real)

  /** Python's tuple order: by distance, and by label between equal distances. */
  predicate LexLe(a: Pair, b: Pair): (le: bool)
    ensures a == b ==> le
    ensures a.0 < b.0 ==> le
    ensures b.0 < a.0 ==> !le
    ensures a.0 == b.0 ==> (le <==> a.1 <= b.1)
  {
    a.0 < b.0 || (a.0 == b.0 && a.1 <= b.1)
  }

  predicate Sorted(s: seq<Pair>)
  {
    forall i, j :: 0 <= i < j < |s| ==> LexLe(s[i], s[j])
  }

  /** The label sum `sum(label for _, label in s)` of a list of pairs. With ±1 labels it lies
      between -|s| and |s|. */
  function LabelSum(s: seq<Pair>): (sum: real)
    ensures |s| == 1 ==> sum == s[0].1
    ensures (forall i :: 0 <= i < |s| ==> IsLabel(s[i].1)) ==> -(|s| as real) <= sum <= |s| as real
  {
    if |s| == 0 then 0.0 else s[0].1 + LabelSum(s[1..])
  }

  /** Places p before the first element it does not exceed. */
  function Insert(p: Pair, s: seq<Pair>): (r: seq<Pair>)
    ensures |r| == |s| + 1
    ensures multiset(r) == multiset(s) + multiset{p}
    ensures LabelSum(r) == p.1 + LabelSum(s)
  {
    if |s| == 0 then [p]
    else if LexLe(p, s[0]) then
      assert ([p] + s)[1..] == s;
      [p] + s
    else
      var r' := Insert(p, s[1..]);
      assert s == [s[0]] + s[1..];
      assert ([s[0]] + r')[1..] == r';
      [s[0]] + r'
  }

  /** A pair that is below every element of a sorted list can go in front of it. */
  lemma SortedCons(a: Pair, s: seq<Pair>)
    requires Sorted(s) && forall j :: 0 <= j < |s| ==> LexLe(a, s[j])
    ensures Sorted([a] + s)
  {
    var r := [a] + s;
    forall i, j | 0 <= i < j < |r| ensures LexLe(r[i], r[j]) {
      assert r[j] == s[j - 1];
      if i > 0 {
        assert r[i] == s[i - 1];
      }
    }
  }

  lemma {:induction false} InsertSorted(p: Pair, s: seq<Pair>)
    requires Sorted(s)
    ensures Sorted(Insert(p, s))
  {
    if |s| > 0 && !LexLe(p, s[0]) {
      var r' := Insert(p, s[1..]);
      SortedTail(s);
      InsertSorted(p, s[1..]);
      forall j | 0 <= j < |r'| ensures LexLe(s[0], r'[j]) {
        assert r'[j] in multiset(r');
        if r'[j] != p {
          assert r'[j] in multiset(s[1..]);
          var k :| 0 <= k < |s[1..]| && s[1..][k] == r'[j];
          assert s[k + 1] == r'[j];
        }
      }
      SortedCons(s[0], r');
    } else if |s| > 0 {
      forall j | 0 <= j < |s| ensures LexLe(p, s[j]) {
        if j > 0 {
          assert LexLe(s[0], s[j]);
        }
      }
      SortedCons(p, s);
    }
  }

  /** `sorted(...)` on the pair list, by insertion. */
  function Sort(s: seq<Pair>): (r: seq<Pair>)
    ensures |r| == |s| && multiset(r) == multiset(s)
    ensures LabelSum(r) == LabelSum(s)
  {
    if |s| == 0 then []
    else
      assert s == [s[0]] + s[1..];
      Insert(s[0], Sort(s[1..]))
  }

  lemma {:induction false} SortSorted(s: seq<Pair>)
    ensures Sorted(Sort(s))
  {
    if |s| > 0 {
      SortSorted(s[1..]);
      InsertSorted(s[0], Sort(s[1..]));
    }
  }

  lemma SortedTail(s: seq<Pair>)
    requires Sorted(s) && |s| > 0
    ensures Sorted(s[1..])
  {
    forall p, q | 0 <= p < q < |s| - 1 ensures LexLe(s[1..][p], s[1..][q]) {
      assert s[1..][p] == s[p + 1] && s[1..][q] == s[q + 1];
    }
  }

  /** The head of a sorted list is below every pair in it. */
  lemma SortedHeadIsLeast(s: seq<Pair>, v: Pair)
    requires Sorted(s) && v in multiset(s)
    ensures LexLe(s[0], v)
  {
    var i :| 0 <= i < |s| && s[i] == v;
    if i > 0 {
      assert LexLe(s[0], s[i]);
    }
  }

  /** Two sorted lists holding the same pairs are the same list: the tuple order is total, so
      the result of `sorted` does not depend on how it sorts. */
  lemma {:induction false} SortedUnique(a: seq<Pair>, b: seq<Pair>)
    requires Sorted(a) && Sorted(b) && multiset(a) == multiset(b)
    ensures a == b
  {
    assert |a| == |multiset(a)| == |multiset(b)| == |b|;
    if |a| > 0 {
      assert a[0] in multiset(b) && b[0] in multiset(a);
      SortedHeadIsLeast(b, a[0]);
      SortedHeadIsLeast(a, b[0]);
      assert a[0] == b[0];
      assert a == [a[0]] + a[1..] && b == [b[0]] + b[1..];
      assert multiset(a) == multiset{a[0]} + multiset(a[1..]);
      assert multiset(b) == multiset{b[0]} + multiset(b[1..]);
      calc {
        multiset(a[1..]);
        multiset(a) - multiset{a[0]};
        multiset(b) - multiset{b[0]};
        multiset(b[1..]);
      }
      SortedTail(a);
      SortedTail(b);
      SortedUnique(a[1..], b[1..]);
    }
  }

  // ---------------------------------------------------------------------------------------
  // The vote

  /** `s[:k]` with Python's slice rules: a negative k drops that many entries from the end,
      and a k beyond the length keeps everything. */
  function PyPrefix(s: seq<Pair>, k: int): (p: seq<Pair>)
    ensures k >= 0 ==> |p| == if k < |s| then k else |s|
    ensures k < 0 ==> |p| == if |s| + k > 0 then |s| + k else 0
    ensures p == s[..|p|]
  {
    if k >= 0 then (if k < |s| then s[..k] else s)
    else (if |s| + k > 0 then s[..|s| + k] else [])
  }

  /** The (distance, label) pair of every training row. */
  function Pairs(m: KnnModel, x: seq<real>): (s: seq<Pair>)
    requires ValidModel(m)
    ensures |s| == |m.X.rows|
    ensures forall i :: 0 <= i < |s| ==> s[i] == (m.dist(x, m.X.rows[i]), m.y[i])
  {
    seq(|m.X.rows|, i requires 0 <= i < |m.X.rows| => (m.dist(x, m.X.rows[i]), m.y[i]))
  }

  /** The k the call uses: the given one, or the model's default. */
  function EffectiveK(m: KnnModel, k: Option<int>): (n: int)
    ensures k.Some? ==> n == k.value
    ensures k.None? ==> n == m.k
  {
    if k.Some? then k.value else m.k
  }

  /** A prefix of a sorted list is sorted, and none of its pairs exceeds a pair left behind. */
  lemma SortedPrefix(s: seq<Pair>, n: nat)
    requires Sorted(s) && n <= |s|
    ensures Sorted(s[..n]) && multiset(s[..n]) <= multiset(s)
    ensures forall p, q :: p in s[..n] && q in multiset(s) - multiset(s[..n]) ==> LexLe(p, q)
  {
    assert s == s[..n] + s[n..];
    assert multiset(s) == multiset(s[..n]) + multiset(s[n..]);
    forall p, q | p in s[..n] && q in multiset(s) - multiset(s[..n]) ensures LexLe(p, q) {
      var i :| 0 <= i < n && s[..n][i] == p;
      assert q in s[n..];
      var j :| 0 <= j < |s| - n && s[n..][j] == q;
      assert s[i] == p && s[n + j] == q;
    }
  }

  /** `distances[:k]`: the chosen neighbours. */
  function Neighbours(m: KnnModel, x: seq<real>, k: Option<int>): (nb: seq<Pair>)
    requires ValidModel(m)
    ensures Sorted(nb) && multiset(nb) <= multiset(Pairs(m, x))
    ensures EffectiveK(m, k) >= 0 ==>
              |nb| == if EffectiveK(m, k) < |m.X.rows| then EffectiveK(m, k) else |m.X.rows|
    ensures forall p, q :: p in nb && q in multiset(Pairs(m, x)) - multiset(nb) ==> LexLe(p, q)
  {
    var s := Sort(Pairs(m, x));
    SortSorted(Pairs(m, x));
    var nb := PyPrefix(s, EffectiveK(m, k));
    SortedPrefix(s, |nb|);
    nb
  }

  /** `kNNModel.classify(x, k)`: 1 when the labels of the chosen neighbours sum to at least 0,
      -1 otherwise. The model has no transform, so the transform branch never runs. */
  function ClassifyPoint(m: KnnModel, x: seq<real>, k: Option<int>): (c: int)
    requires ValidModel(m)
    ensures c == 1 || c == -1
  {
    if LabelSum(Neighbours(m, x, k)) >= 0.0 then 1 else -1
  }

  /** The vote is fixed by the sorted order alone: for ANY sorted arrangement of the pairs, the
      answer is 1 exactly when the first k of that arrangement have a label sum of at least 0. */
  lemma VoteOnAnySortedArrangement(m: KnnModel, x: seq<real>, k: Option<int>, s: seq<Pair>)
    requires ValidModel(m)
    requires Sorted(s) && multiset(s) == multiset(Pairs(m, x))
    ensures ClassifyPoint(m, x, k) == 1 <==> LabelSum(PyPrefix(s, EffectiveK(m, k))) >= 0.0
    ensures ClassifyPoint(m, x, k) == -1 <==> LabelSum(PyPrefix(s, EffectiveK(m, k))) < 0.0
  {
    SortSorted(Pairs(m, x));
    SortedUnique(s, Sort(Pairs(m, x)));
  }

  /** Between neighbours at the same distance, the one labelled -1 is taken first. */
  lemma TieTakesMinusOneFirst(m: KnnModel, x: seq<real>, k: Option<int>, i: int, j: int)
    requires ValidModel(m) && 0 <= i < |m.y| && 0 <= j < |m.y| && i != j
    requires m.dist(x, m.X.rows[i]) == m.dist(x, m.X.rows[j]) && m.y[i] == -1.0 && m.y[j] == 1.0
    ensures (m.dist(x, m.X.rows[j]), 1.0) in Neighbours(m, x, k) ==>
              (m.dist(x, m.X.rows[i]), -1.0) in Neighbours(m, x, k)
  {
    var P := Pairs(m, x);
    var s := Sort(P);
    SortSorted(P);
    var nb := Neighbours(m, x, k);
    assert nb == s[..|nb|];
    assert P[i] in multiset(s);
    if P[j] in nb {
      SortedTieOrder(s, |nb|, P[i], P[j]);
    }
  }

  /** In a sorted list, a pair that precedes a chosen pair in the tuple order is chosen too. */
  lemma SortedTieOrder(s: seq<Pair>, n: nat, a: Pair, b: Pair)
    requires Sorted(s) && n <= |s| && a in s && b in s[..n]
    requires LexLe(a, b) && a != b
    ensures a in s[..n]
  {
    var q :| 0 <= q < n && s[..n][q] == b;
    var q' :| 0 <= q' < |s| && s[q'] == a;
    assert s[q] == b;
    assert q' < q;
    assert s[..n][q'] == a;
  }

  /** The sum of a sequence of labels. */
  function Total(y: seq<real>): real
  {
    if |y| == 0 then 0.0 else y[0] + Total(y[1..])
  }

  lemma {:induction false} LabelSumIsTotal(s: seq<Pair>, y: seq<real>)
    requires |s| == |y| && forall i :: 0 <= i < |s| ==> s[i].1 == y[i]
    ensures LabelSum(s) == Total(y)
  {
    if |s| > 0 {
      LabelSumIsTotal(s[1..], y[1..]);
    }
  }

  /** When k covers every training row, the answer is the sign of the total label sum,
      whatever the query. */
  lemma VoteIgnoresQueryWhenKCoversAll(m: KnnModel, x: seq<real>, k: Option<int>)
    requires ValidModel(m) && EffectiveK(m, k) >= |m.X.rows|
    ensures ClassifyPoint(m, x, k) == if Total(m.y) >= 0.0 then 1 else -1
  {
    LabelSumIsTotal(Pairs(m, x), m.y);
  }

  /** With k = 1, a training row whose only nearest row is itself gets its own label's sign. */
  lemma SelfQueryReturnsOwnLabel(m: KnnModel, i: int)
    requires ValidModel(m) && 0 <= i < |m.X.rows|
    requires m.dist(m.X.rows[i], m.X.rows[i]) == 0.0
    requires forall j :: 0 <= j < |m.X.rows| && j != i ==> m.dist(m.X.rows[i], m.X.rows[j]) > 0.0
    ensures ClassifyPoint(m, m.X.rows[i], Some(1)) == if m.y[i] >= 0.0 then 1 else -1
  {
    var x := m.X.rows[i];
    var P := Pairs(m, x);
    var s := Sort(P);
    SortSorted(P);
    assert s[0] in multiset(P);
    var j :| 0 <= j < |P| && P[j] == s[0];
    assert P[i] in multiset(s);
    var q :| 0 <= q < |s| && s[q] == P[i];
    assert LexLe(s[0], P[i]) by { if q > 0 { assert LexLe(s[0], s[q]); } }
    assert j == i;
    assert Neighbours(m, x, Some(1)) == [P[i]];
    assert LabelSum([P[i]]) == m.y[i] + LabelSum([P[i]][1..]);
  }

  /** `kNNModel.classify_all(X, k)`: `classify` applied to each row in turn. */
  function ClassifyAll(m: KnnModel, X: seq<seq<real>>, k: Option<int>): (r: seq<int>)
    requires ValidModel(m)
    ensures |r| == |X|
    ensures forall i :: 0 <= i < |X| ==> r[i] == ClassifyPoint(m, X[i], k)
  {
    seq(|X|, i requires 0 <= i < |X| => ClassifyPoint(m, X[i], k))
  }

  /** The predictions as the float array that is subtracted from y. */
  function AsReals(p: seq<int>): (r: seq<real>)
    ensures |r| == |p| && forall i :: 0 <= i < |p| ==> r[i] == p[i] as real
  {
    seq(|p|, i requires 0 <= i < |p| => p[i] as real)
  }

  /** numpy's broadcast of `pred - y`: equal lengths pair up, and a length-1 side is repeated
      against the other; any other pair of lengths raises. */
  function Broadcast(p: seq<real>, y: seq<real>): (r: Result<(seq<real>, seq<real>)>)
    ensures r.Ok? <==> |p| == |y| || |p| == 1 || |y| == 1
    ensures r.Ok? ==> |r.value.0| == |r.value.1|
    ensures |p| == |y| ==> r == Ok((p, y))
  {
    if |p| == |y| then Ok((p, y))
    else if |p| == 1 then Ok((seq(|y|, _ => p[0]), y))
    else if |y| == 1 then Ok((p, seq(|p|, _ => y[0])))
    else Err(ShapesNotAligned(|p|, |y|))
  }

  /** `kNNModel.classification_error(X, y, k)`: the half absolute differences summed and
      divided by `len(y)`. `None` stands for the NaN that an empty y gives. */
  function ClassificationError(m: KnnModel, X: seq<seq<real>>, y: seq<real>, k: Option<int>)
    : (r: Result<Option<real>>)
    requires ValidModel(m)
    ensures r.Err? <==> |X| != |y| && |X| != 1 && |y| != 1
    ensures r.Ok? ==> (r.value.None? <==> |y| == 0)
  {
    match Broadcast(AsReals(ClassifyAll(m, X, k)), y)
    case Err(e) => Err(e)
    case Ok(pair) =>
      if |y| == 0 then Ok(None)
      else Ok(Some(HalfAbsDiffSum(pair.0, pair.1) / |y| as real))
  }

  lemma ShareBounds(n: nat, d: nat)
    requires 0 < d && n <= d
    ensures 0.0 <= n as real / d as real <= 1.0
    ensures n as real / d as real == 0.0 <==> n == 0
  {
    var q := n as real / d as real;
    assert q * d as real == n as real;
  }

  /** For label vectors, the mean half absolute difference is the share of mismatches. */
  lemma MismatchShare(p: seq<real>, y: seq<real>)
    requires |p| == |y| > 0 && AllLabels(p) && AllLabels(y)
    ensures HalfAbsDiffSum(p, y) / |y| as real == Mismatches(p, y) as real / |y| as real
    ensures 0.0 <= HalfAbsDiffSum(p, y) / |y| as real <= 1.0
    ensures HalfAbsDiffSum(p, y) / |y| as real == 0.0 <==> p == y
  {
    HalfAbsDiffCountsMismatches(p, y);
    ShareBounds(Mismatches(p, y), |y|);
  }

  /** With as many rows as labels there is no broadcast: the error is the plain mean. */
  lemma ErrorOfEqualLengths(m: KnnModel, X: seq<seq<real>>, y: seq<real>, k: Option<int>)
    requires ValidModel(m) && |X| == |y| > 0
    ensures var p := AsReals(ClassifyAll(m, X, k));
            ClassificationError(m, X, y, k) == Ok(Some(HalfAbsDiffSum(p, y) / |y| as real))
  {
  }

  /** Every vote is a label. */
  lemma VotesAreLabels(m: KnnModel, X: seq<seq<real>>, k: Option<int>)
    requires ValidModel(m)
    ensures AllLabels(AsReals(ClassifyAll(m, X, k)))
  {
  }

  /** The predictions equal y exactly when every row's vote matches its label. */
  lemma PredictionsMatch(m: KnnModel, X: seq<seq<real>>, y: seq<real>, k: Option<int>)
    requires ValidModel(m) && |X| == |y|
    ensures AsReals(ClassifyAll(m, X, k)) == y <==>
              forall i :: 0 <= i < |X| ==> ClassifyPoint(m, X[i], k) as real == y[i]
  {
    var p := AsReals(ClassifyAll(m, X, k));
    if forall i :: 0 <= i < |X| ==> ClassifyPoint(m, X[i], k) as real == y[i] {
      assert p == y;
    }
  }

  /** With one label per row, all in {1, -1}, the error is the share of rows the model
      misclassifies: it lies in [0, 1] and is 0 exactly when every prediction matches. */
  lemma ErrorIsMismatchShare(m: KnnModel, X: seq<seq<real>>, y: seq<real>, k: Option<int>)
    requires ValidModel(m) && |X| == |y| > 0 && AllLabels(y)
    ensures var p := AsReals(ClassifyAll(m, X, k));
            ClassificationError(m, X, y, k) == Ok(Some(Mismatches(p, y) as real / |y| as real))
    ensures 0.0 <= ClassificationError(m, X, y, k).value.value <= 1.0
    ensures ClassificationError(m, X, y, k).value.value == 0.0 <==>
              forall i :: 0 <= i < |X| ==> ClassifyPoint(m, X[i], k) as real == y[i]
  {
    var p := AsReals(ClassifyAll(m, X, k));
    ErrorOfEqualLengths(m, X, y, k);
    VotesAreLabels(m, X, k);
    MismatchShare(p, y);
    PredictionsMatch(m, X, y, k);
  }
}
