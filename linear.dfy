/** `LinearModel`: the bias column, the in-sample error, the pocket-perceptron refinement of
    the closed-form weights, and classification by the sign of x·w. */
module Linear {
  import opened Common
  import opened Vectors
  import opened Base
  import opened Labels

  // ---------------------------------------------------------------------------------------
  // The bias column

  /** Prepends the constant feature 1 to every row: the bias column the constructor means
      to add. */
  function PrependBias(X: Matrix): (Xb: Matrix)
    requires Rectangular(X)
    ensures Rectangular(Xb) && Xb.cols == X.cols + 1 && |Xb.rows| == |X.rows|
    ensures forall i :: 0 <= i < |X.rows| ==> Xb.rows[i][0] == 1.0 && Xb.rows[i][1..] == X.rows[i]
  {
    Matrix(seq(|X.rows|, i requires 0 <= i < |X.rows| => [1.0] + X.rows[i]), X.cols + 1)
  }

  /** The bias column as written, `np.column_stack((np.ones_like(X.shape[0]), X))`.
      `np.ones_like` of the row count is a 0-d array holding 1, which `column_stack` turns
      into a 1 by 1 block; stacking it beside X only works when X has exactly one row, and
      otherwise numpy raises. */
  function ColumnStackAsWritten(X: Matrix): (r: Result<Matrix>)
    requires Rectangular(X)
    ensures r.Ok? <==> |X.rows| == 1
    ensures r.Ok? ==> r.value == PrependBias(X)
  {
    if |X.rows| == 1 then
      assert [[1.0] + X.rows[0]] == PrependBias(X).rows;
      Ok(Matrix([[1.0] + X.rows[0]], X.cols + 1))
    else Err(ShapesNotAligned(|X.rows|, 1))
  }

  /** Two training rows are enough for the written bias column to fail, where the intended
      one prepends 1 to both rows. */
  lemma BiasAsWrittenFailsOnTwoRows()
    ensures ColumnStackAsWritten(Matrix([[0.0], [1.0]], 1)).Err?
    ensures PrependBias(Matrix([[0.0], [1.0]], 1)).rows == [[1.0, 0.0], [1.0, 1.0]]
  {
    var Xb := PrependBias(Matrix([[0.0], [1.0]], 1));
    assert Xb.rows[0] == [1.0, 0.0] && Xb.rows[1] == [1.0, 1.0];
  }

  // ---------------------------------------------------------------------------------------
  // In-sample error

  /** Training rows, labels and weights fit together. */
  predicate Fits(X: Matrix, y: seq<real>, w: seq<real>)
  {
    Rectangular(X) && |y| == |X.rows| && X.cols == |w|
  }

  /** Row i is misclassified: the label `_classify` gives it differs from y[i]. */
  predicate Misclassified(X: Matrix, y: seq<real>, w: seq<real>, i: int): (mis: bool)
    requires Fits(X, y, w)
    ensures mis ==> 0 <= i < |X.rows|
    ensures 0 <= i < |X.rows| && IsLabel(y[i]) ==>
              (mis <==> if y[i] == 1.0 then Dot(X.rows[i], w) < 0.0 else Dot(X.rows[i], w) >= 0.0)
  {
    0 <= i < |X.rows| && Classify(X.rows[i], w) as real != y[i]
  }

  /** `_calc_E_in(w)`: half the summed absolute differences between the thresholded scores
      and the labels, plus the ridge penalty r·(w·w). */
  function EIn(X: Matrix, y: seq<real>, w: seq<real>, r: real): (e: real)
    requires Fits(X, y, w)
    ensures e >= r * Dot(w, w)
    ensures Predictions(X, w) == y ==> e == r * Dot(w, w)
  {
    HalfAbsDiffSumSelf(y);
    HalfAbsDiffSum(Predictions(X, w), y) + r * Dot(w, w)
  }

  /** The number of rows that w misclassifies. */
  function MisclassifiedCount(X: Matrix, y: seq<real>, w: seq<real>): (n: nat)
    requires Fits(X, y, w)
    ensures n <= |X.rows|
    ensures n == 0 <==> Predictions(X, w) == y
  {
    Mismatches(Predictions(X, w), y)
  }

  /** With labels in {1, -1}, E_in is the misclassification count plus the penalty, so
      without regularisation it is the plain count. */
  lemma EInCountsMisclassified(X: Matrix, y: seq<real>, w: seq<real>, r: real)
    requires Fits(X, y, w) && AllLabels(y)
    ensures EIn(X, y, w, r) == MisclassifiedCount(X, y, w) as real + r * Dot(w, w)
    ensures r == 0.0 ==> EIn(X, y, w, r) == MisclassifiedCount(X, y, w) as real
  {
    PredictionsAreLabels(X, w);
    HalfAbsDiffCountsMismatches(Predictions(X, w), y);
  }

  /** The count is zero exactly when no row is misclassified. */
  lemma NoMisclassifiedIffZeroCount(X: Matrix, y: seq<real>, w: seq<real>)
    requires Fits(X, y, w)
    ensures MisclassifiedCount(X, y, w) == 0 <==>
              forall i :: 0 <= i < |X.rows| ==> !Misclassified(X, y, w, i)
  {
    if forall i :: 0 <= i < |X.rows| ==> !Misclassified(X, y, w, i) {
      forall i | 0 <= i < |y| ensures Predictions(X, w)[i] == y[i] {
        assert !Misclassified(X, y, w, i);
      }
      assert Predictions(X, w) == y;
    }
  }

  /** With a non-negative regularisation coefficient, E_in is never negative. */
  lemma EInNonnegative(X: Matrix, y: seq<real>, w: seq<real>, r: real)
    requires Fits(X, y, w) && r >= 0.0
    ensures EIn(X, y, w, r) >= 0.0
  {
    DotSelfNonnegative(w);
    assert r * Dot(w, w) >= 0.0;
  }

  /** `_calc_E_in` itself: the scores, the two masked writes, then the sum and the penalty. */
  method CalcEIn(X: Matrix, y: seq<real>, w: seq<real>, r: real) returns (e: real)
    requires Fits(X, y, w)
    ensures e == EIn(X, y, w, r)
  {
    var pred := Predict(X, w);
    e := HalfAbsDiffSum(pred, y) + r * Dot(w, w);
  }

  // ---------------------------------------------------------------------------------------
  // The pocket perceptron

  /** `w += y[i] * X[i]`, done in place. */
  method AddScaledInPlace(w: array<real>, a: real, x: seq<real>)
    requires w.Length == |x|
    modifies w
    ensures w[..] == AddScaled(old(w[..]), a, x)
  {
    forall j | 0 <= j < w.Length {
      w[j] := w[j] + a * x[j];
    }
    assert forall j :: 0 <= j < w.Length ==> w[..][j] == AddScaled(old(w[..]), a, x)[j];
  }

  /** `np.copyto(dst, src)`: a value copy, so later writes to src leave dst alone. */
  method CopyInto(dst: array<real>, src: array<real>)
    requires dst.Length == src.Length
    modifies dst
    ensures dst[..] == old(src[..])
  {
    forall j | 0 <= j < dst.Length {
      dst[j] := src[j];
    }
  }

  /** A perceptron step at a labelled row raises that row's margin y·(x·w) by x·x, which is
      never negative: the update moves the score towards the row's label. */
  lemma UpdateRaisesMargin(x: seq<real>, w: seq<real>, yi: real)
    requires |x| == |w| && IsLabel(yi)
    ensures yi * Dot(x, AddScaled(w, yi, x)) == yi * Dot(x, w) + Dot(x, x)
    ensures yi * Dot(x, AddScaled(w, yi, x)) >= yi * Dot(x, w)
  {
    DotAddScaled(x, w, yi, x);
    DotSelfNonnegative(x);
    var d, q := Dot(x, w), Dot(x, x);
    assert Dot(x, AddScaled(w, yi, x)) == d + yi * q;
    if yi == 1.0 {
      assert yi * (d + yi * q) == d + q;
    } else {
      assert yi * (d + yi * q) == -d + q;
    }
  }

  /** The training data with the draws standing in for `random.randint(0, len(X) - 1)`. */
  predicate TrainingData(X: Matrix, y: seq<real>, draws: seq<nat>)
  {
    Rectangular(X) && |y| == |X.rows| && forall k :: 0 <= k < |draws| ==> draws[k] < |X.rows|
  }

  /** The pocket loop between two iterations: the working weights, the pocket weights and
      their error `E_`, and how many draws have been used. */
  datatype PocketState = PocketState(w: seq<real>, pocket: seq<real>, pocketE: real, cursor: nat)

  /** How the loop ends: after all iterations, or because the draws ran out while searching
      for a misclassified row in the given iteration. */
  datatype PocketRun = Finished(state: PocketState) | Exhausted(state: PocketState, iteration: nat)

  /** The inner `while True`: the position of the first draw at or after c whose row the
      working weights misclassify; draws of correctly classified rows are skipped. */
  function NextMisclassified(X: Matrix, y: seq<real>, w: seq<real>, draws: seq<nat>, c: nat)
    : (r: Option<nat>)
    requires TrainingData(X, y, draws) && X.cols == |w|
    decreases |draws| - c
    ensures r.Some? ==> c <= r.value < |draws| && Misclassified(X, y, w, draws[r.value])
    ensures r.Some? ==> forall k :: c <= k < r.value ==> !Misclassified(X, y, w, draws[k])
    ensures r.None? ==> forall k :: c <= k < |draws| ==> !Misclassified(X, y, w, draws[k])
  {
    if c >= |draws| then None
    else if Misclassified(X, y, w, draws[c]) then Some(c)
    else NextMisclassified(X, y, w, draws, c + 1)
  }

  /** One outer iteration once the search has stopped at draw position c: one perceptron
      update at that row, and the new weights go into the pocket only when their error is
      strictly lower. */
  function Iterate(X: Matrix, y: seq<real>, r: real, draws: seq<nat>, s: PocketState, c: nat)
    : (s': PocketState)
    requires TrainingData(X, y, draws) && X.cols == |s.w| && c < |draws|
    ensures s'.w == AddScaled(s.w, y[draws[c]], X.rows[draws[c]]) && s'.cursor == c + 1
    ensures EIn(X, y, s'.w, r) < s.pocketE ==> s'.pocket == s'.w && s'.pocketE == EIn(X, y, s'.w, r)
    ensures EIn(X, y, s'.w, r) >= s.pocketE ==> s'.pocket == s.pocket && s'.pocketE == s.pocketE
  {
    var i := draws[c];
    var w' := AddScaled(s.w, y[i], X.rows[i]);
    var e := EIn(X, y, w', r);
    if e < s.pocketE then PocketState(w', w', e, c + 1)
    else PocketState(w', s.pocket, s.pocketE, c + 1)
  }

  /** The outer `for t in range(n_iter)` from iteration t on. */
  function Run(X: Matrix, y: seq<real>, r: real, draws: seq<nat>, s: PocketState,
               t: nat, nIter: nat): (res: PocketRun)
    requires TrainingData(X, y, draws) && X.cols == |s.w|
    decreases nIter - t
    ensures res.Exhausted? ==> t <= res.iteration < nIter
    ensures t >= nIter ==> res == Finished(s)
  {
    if t >= nIter then Finished(s)
    else
      match NextMisclassified(X, y, s.w, draws, s.cursor)
      case None => Exhausted(s, t)
      case Some(c) => Run(X, y, r, draws, Iterate(X, y, r, draws, s, c), t + 1, nIter)
  }

  /** The state before the loop: `w_ = w_lin`, `E_ = E_in(w_lin)` and `w` a copy of w_lin. */
  function Start(X: Matrix, y: seq<real>, r: real, wLin: seq<real>): (s: PocketState)
    requires Fits(X, y, wLin)
    ensures s.w == wLin && s.pocket == wLin && s.cursor == 0
    ensures s.pocketE == EIn(X, y, wLin, r)
  {
    PocketState(wLin, wLin, EIn(X, y, wLin, r), 0)
  }

  /** The pocket error is the error of the pocket weights. */
  ghost predicate PocketHonest(X: Matrix, y: seq<real>, r: real, s: PocketState)
    requires Rectangular(X) && |y| == |X.rows|
  {
    |s.pocket| == X.cols && s.pocketE == EIn(X, y, s.pocket, r)
  }

  /** The loop invariant of the pocket algorithm: `E_` stays equal to `E_in(w_)` and never
      increases, whatever the draws. */
  lemma {:induction false} RunKeepsPocketHonest(X: Matrix, y: seq<real>, r: real, draws: seq<nat>,
                                                s: PocketState, t: nat, nIter: nat)
    requires TrainingData(X, y, draws) && X.cols == |s.w| && PocketHonest(X, y, r, s)
    decreases nIter - t
    ensures PocketHonest(X, y, r, Run(X, y, r, draws, s, t, nIter).state)
    ensures Run(X, y, r, draws, s, t, nIter).state.pocketE <= s.pocketE
  {
    if t < nIter {
      match NextMisclassified(X, y, s.w, draws, s.cursor)
      case None =>
      case Some(c) =>
        RunKeepsPocketHonest(X, y, r, draws, Iterate(X, y, r, draws, s, c), t + 1, nIter);
    }
  }

  /** The inner `while True` itself: draw until a misclassified row comes up. Returns the
      position of that draw, or None when the draws run out first. */
  method SearchMisclassified(X: Matrix, y: seq<real>, w: seq<real>, draws: seq<nat>, from: nat)
    returns (found: Option<nat>)
    requires TrainingData(X, y, draws) && X.cols == |w|
    ensures found == NextMisclassified(X, y, w, draws, from)
  {
    var cursor := from;
    while true
      invariant from <= cursor
      invariant NextMisclassified(X, y, w, draws, from) == NextMisclassified(X, y, w, draws, cursor)
      decreases |draws| - cursor
    {
      if cursor >= |draws| {
        return None;
      }
      var i := draws[cursor];
      if Classify(X.rows[i], w) as real != y[i] {
        return Some(cursor);
      }
      cursor := cursor + 1;
    }
  }

  /** The rest of one outer iteration on the arrays: `w += y[i] * X[i]`, then copy w into
      the pocket when its error is strictly lower. It agrees with `Iterate`. */
  method PocketUpdate(X: Matrix, y: seq<real>, r: real, draws: seq<nat>, w: array<real>,
                      wPocket: array<real>, e: real, c: nat, ghost s: PocketState)
    returns (e': real)
    requires TrainingData(X, y, draws) && X.cols == w.Length == wPocket.Length && c < |draws|
    requires w != wPocket
    requires s.w == w[..] && s.pocket == wPocket[..] && s.pocketE == e
    modifies w, wPocket
    ensures PocketState(w[..], wPocket[..], e', c + 1) == Iterate(X, y, r, draws, s, c)
  {
    var i := draws[c];
    AddScaledInPlace(w, y[i], X.rows[i]);
    var eIn := CalcEIn(X, y, w[..], r);
    e' := e;
    if eIn < e {
      e' := eIn;
      CopyInto(wPocket, w);
    }
  }

  /** One unfolding of `Run` when the search finds a row. */
  lemma RunStep(X: Matrix, y: seq<real>, r: real, draws: seq<nat>, s: PocketState,
                t: nat, nIter: nat, c: nat)
    requires TrainingData(X, y, draws) && X.cols == |s.w| && t < nIter
    requires NextMisclassified(X, y, s.w, draws, s.cursor) == Some(c)
    ensures Run(X, y, r, draws, s, t, nIter) ==
            Run(X, y, r, draws, Iterate(X, y, r, draws, s, c), t + 1, nIter)
  {
  }

  /** `Run` stops where the search finds no row. */
  lemma RunStops(X: Matrix, y: seq<real>, r: real, draws: seq<nat>, s: PocketState,
                 t: nat, nIter: nat)
    requires TrainingData(X, y, draws) && X.cols == |s.w| && t < nIter
    requires NextMisclassified(X, y, s.w, draws, s.cursor).None?
    ensures Run(X, y, r, draws, s, t, nIter) == Exhausted(s, t)
  {
  }

  /** Once the working weights misclassify no row, the `while True` search never ends before
      the n_iter limit: the run is cut off with the exhausted-draws outcome, even though w
      already fits every row. */
  lemma SeparatedRunStalls(X: Matrix, y: seq<real>, r: real, draws: seq<nat>, s: PocketState,
                           t: nat, nIter: nat)
    requires TrainingData(X, y, draws) && X.cols == |s.w| && t < nIter
    requires MisclassifiedCount(X, y, s.w) == 0
    ensures Run(X, y, r, draws, s, t, nIter) == Exhausted(s, t)
  {
    NoMisclassifiedIffZeroCount(X, y, s.w);
  }

  /** A fresh array holding v, as `np.copy` makes. */
  method ArrayOf(v: seq<real>) returns (a: array<real>)
    ensures fresh(a) && a[..] == v
  {
    a := new real[|v|](j requires 0 <= j < |v| => v[j]);
  }

  /** One pass of the outer loop on the arrays: the search, then the update. It stops the
      run where `Run` does, and otherwise moves to the state `Run` continues from. */
  method PocketIteration(X: Matrix, y: seq<real>, r: real, draws: seq<nat>, w: array<real>,
                         wPocket: array<real>, e: real, cursor: nat, ghost t: nat, ghost nIter: nat)
    returns (e': real, cursor': nat, stopped: bool)
    requires TrainingData(X, y, draws) && X.cols == w.Length == wPocket.Length && w != wPocket
    requires t < nIter
    modifies w, wPocket
    ensures var before := PocketState(old(w[..]), old(wPocket[..]), e, cursor);
            stopped ==> Run(X, y, r, draws, before, t, nIter) == Exhausted(before, t)
    ensures stopped ==> w[..] == old(w[..]) && wPocket[..] == old(wPocket[..]) && e' == e
    ensures var before := PocketState(old(w[..]), old(wPocket[..]), e, cursor);
            !stopped ==> Run(X, y, r, draws, before, t, nIter) ==
                         Run(X, y, r, draws, PocketState(w[..], wPocket[..], e', cursor'),
                             t + 1, nIter)
  {
    ghost var s := PocketState(w[..], wPocket[..], e, cursor);
    var found := SearchMisclassified(X, y, w[..], draws, cursor);
    if found.None? {
      RunStops(X, y, r, draws, s, t, nIter);
      return e, cursor, true;
    }
    var c := found.value;
    RunStep(X, y, r, draws, s, t, nIter, c);
    e' := PocketUpdate(X, y, r, draws, w, wPocket, e, c, s);
    cursor', stopped := c + 1, false;
  }

  /** What `_train_model` reports for a run: the pocket weights, their error, and the
      iteration at which the draws ran out, if they did. */
  function Outcome(run: PocketRun): (seq<real>, real, Option<nat>)
  {
    (run.state.pocket, run.state.pocketE, if run.Exhausted? then Some(run.iteration) else None)
  }

  /** `_train_model`: the pocket loop over a working array `w` and a separate pocket array
      `w_`, starting from the closed-form weights. */
  method TrainModel(X: Matrix, y: seq<real>, r: real, wLin: seq<real>, nIter: nat, draws: seq<nat>)
    returns (pocket: seq<real>, pocketE: real, exhaustedAt: Option<nat>)
    requires TrainingData(X, y, draws) && X.cols == |wLin|
    ensures (pocket, pocketE, exhaustedAt) ==
            Outcome(Run(X, y, r, draws, Start(X, y, r, wLin), 0, nIter))
    ensures |pocket| == |wLin| && pocketE == EIn(X, y, pocket, r)
    ensures pocketE <= EIn(X, y, wLin, r)
  {
    var wPocket := ArrayOf(wLin);
    var e := CalcEIn(X, y, wLin, r);
    var w := ArrayOf(wLin);
    var cursor: nat := 0;
    ghost var start := Start(X, y, r, wLin);
    ghost var goal := Run(X, y, r, draws, start, 0, nIter);
    var t := 0;
    while t < nIter
      invariant 0 <= t <= nIter && w != wPocket && w.Length == wPocket.Length == |wLin|
      invariant goal == Run(X, y, r, draws, PocketState(w[..], wPocket[..], e, cursor), t, nIter)
    {
      var stopped;
      e, cursor, stopped := PocketIteration(X, y, r, draws, w, wPocket, e, cursor, t, nIter);
      if stopped {
        RunKeepsPocketHonest(X, y, r, draws, start, 0, nIter);
        return wPocket[..], e, Some(t);
      }
      t := t + 1;
    }
    assert goal == Finished(PocketState(w[..], wPocket[..], e, cursor));
    RunKeepsPocketHonest(X, y, r, draws, start, 0, nIter);
    pocket, pocketE, exhaustedAt := wPocket[..], e, None;
  }


  // ---------------------------------------------------------------------------------------
  // The model

  /** A trained `LinearModel`: X with its bias column, y, r, the transform, the iteration
      budget and the trained weights. Nothing changes after construction. */
  datatype LinearModel = LinearModel(X: Matrix, y: seq<real>, r: real, featTrans: Option<Transform>,
                                     nIter: nat, w: seq<real>)

  predicate ValidModel(m: LinearModel)
  {
    Fits(m.X, m.y, m.w)
  }

  /** The closed-form ridge solve `_calc_w_lin`, taken as given: a function of X, y and r that
      yields one weight per column of X, or None where the matrix inverse raises. */
  type Solver = (Matrix, seq<real>, real) -> Option<seq<real>>

  /** `LinearModel.__init__`: validate, add the bias column, solve for w_lin, then refine it
      with the pocket loop. */
  method Create(X: NdArray, y: NdArray, r: real, featTrans: Option<Transform>, nIter: nat,
                solve: Solver, draws: seq<nat>)
    returns (res: Result<LinearModel>)
    requires WellFormed(X) && WellFormed(y)
    requires forall A: Matrix, b: seq<real>, q: real ::
               solve(A, b, q).Some? ==> |solve(A, b, q).value| == A.cols
    requires |X.shape| == 2 ==> forall k :: 0 <= k < |draws| ==> draws[k] < X.shape[0]
    ensures Validate(X, y, featTrans).Err? ==> res == Err(Validate(X, y, featTrans).error)
    ensures res.Ok? ==> Validate(X, y, featTrans).Ok?
    ensures res.Ok? ==> var m := res.value;
              && m.X == PrependBias(Validate(X, y, featTrans).value.X)
              && m.y == y.data && m.r == r && m.featTrans == featTrans && m.nIter == nIter
              && ValidModel(m)
              && solve(m.X, m.y, r).Some?
              && EIn(m.X, m.y, m.w, r) <= EIn(m.X, m.y, solve(m.X, m.y, r).value, r)
    ensures Validate(X, y, featTrans).Ok? ==>
              var Xb := PrependBias(Validate(X, y, featTrans).value.X);
              solve(Xb, y.data, r).None? ==> res == Err(SolveFailed)
    ensures Validate(X, y, featTrans).Ok? ==>
              var Xb := PrependBias(Validate(X, y, featTrans).value.X);
              solve(Xb, y.data, r).Some? ==>
              var run := Run(X := Xb, y := y.data, r := r, draws := draws,
                             s := Start(Xb, y.data, r, solve(Xb, y.data, r).value),
                             t := 0, nIter := nIter);
              && (res.Err? <==> run.Exhausted?)
              && (run.Exhausted? ==> res == Err(SearchExhausted(run.iteration)))
              && (res.Ok? ==> res.value.w == run.state.pocket)
  {
    var v := Validate(X, y, featTrans);
    if v.Err? {
      return Err(v.error);
    }
    var Xb := PrependBias(v.value.X);
    var wLin := solve(Xb, v.value.y, r);
    if wLin.None? {
      return Err(SolveFailed);
    }
    var pocket, _, exhaustedAt := TrainModel(Xb, v.value.y, r, wLin.value, nIter, draws);
    if exhaustedAt.Some? {
      return Err(SearchExhausted(exhaustedAt.value));
    }
    res := Ok(LinearModel(Xb, v.value.y, r, featTrans, nIter, pocket));
  }

  /** The weights a call uses: the given ones, or the model's own when none are given. */
  function Weights(m: LinearModel, w: Option<seq<real>>): (v: seq<real>)
    ensures w.Some? ==> v == w.value
    ensures w.None? ==> v == m.w
  {
    if w.Some? then w.value else m.w
  }

  /** `LinearModel.classify(x, w)`: transform x when the model has a transform, then the
      threshold rule. The bias feature is not prepended, so the caller passes points that
      already carry it. */
  function ClassifyPoint(m: LinearModel, x: seq<real>, w: Option<seq<real>>): (res: Result<int>)
    ensures TransformPoint(m.featTrans, x).Err? ==> res == Err(TransformPoint(m.featTrans, x).error)
    ensures res.Ok? <==> TransformPoint(m.featTrans, x).Ok? &&
                         |TransformPoint(m.featTrans, x).value| == |Weights(m, w)|
    ensures res.Ok? ==> var z := TransformPoint(m.featTrans, x).value;
              && (res.value == 1 <==> Dot(z, Weights(m, w)) >= 0.0)
              && (res.value == -1 <==> Dot(z, Weights(m, w)) < 0.0)
  {
    match TransformPoint(m.featTrans, x)
    case Err(e) => Err(e)
    case Ok(z) =>
      var wv := Weights(m, w);
      if |z| != |wv| then Err(ShapesNotAligned(|z|, |wv|)) else Ok(Classify(z, wv))
  }

  /** The points a batch classification works on: the rows themselves, or their transforms
      stacked into a new array. */
  function Points(featTrans: Option<Transform>, X: Matrix): (P: Result<Matrix>)
    requires Rectangular(X)
    ensures P.Ok? ==> Rectangular(P.value) && |P.value.rows| == |X.rows|
  {
    match featTrans
    case None => Ok(X)
    case Some(ft) => TransformRows(ft, X.rows)
  }

  /** `LinearModel.classify_all(X, w)`: transform the rows when the model has a transform,
      then `X @ w` and the masked writes. Each label agrees with `classify` on that row. */
  method ClassifyAll(m: LinearModel, X: Matrix, w: Option<seq<real>>)
    returns (res: Result<seq<real>>)
    requires Rectangular(X)
    ensures Points(m.featTrans, X).Err? ==> res == Err(Points(m.featTrans, X).error)
    ensures Points(m.featTrans, X).Ok? && Points(m.featTrans, X).value.cols != |Weights(m, w)| ==>
              res == Err(ShapesNotAligned(Points(m.featTrans, X).value.cols, |Weights(m, w)|))
    ensures res.Ok? <==> Points(m.featTrans, X).Ok? &&
                         Points(m.featTrans, X).value.cols == |Weights(m, w)|
    ensures res.Ok? ==> |res.value| == |X.rows| && AllLabels(res.value)
    ensures res.Ok? ==> forall i :: 0 <= i < |X.rows| ==>
              res.value[i] == Classify(Points(m.featTrans, X).value.rows[i], Weights(m, w)) as real
    ensures res.Ok? ==> forall i :: 0 <= i < |X.rows| ==>
              ClassifyPoint(m, X.rows[i], w).Ok? &&
              ClassifyPoint(m, X.rows[i], w).value as real == res.value[i]
  {
    var wv := Weights(m, w);
    var P := Points(m.featTrans, X);
    if P.Err? {
      return Err(P.error);
    }
    if P.value.cols != |wv| {
      return Err(ShapesNotAligned(P.value.cols, |wv|));
    }
    var pred := Predict(P.value, wv);
    forall i | 0 <= i < |X.rows|
      ensures TransformPoint(m.featTrans, X.rows[i]) == Ok(P.value.rows[i])
    {
    }
    PredictionsAreLabels(P.value, wv);
    res := Ok(pred);
  }
}
