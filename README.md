# Classification models of `models.py`, in Dafny

`models.py` defines three binary classifiers that share one base constructor.

- **`BaseModel`.** Validates a data matrix X and a label vector y, and optionally maps every row through a feature transform.
- **`LinearModel`.**
  - Adds a bias column.
  - Solves for closed-form ridge weights.
  - Refines those weights with the pocket perceptron.
  - Labels a point 1 when x·w ≥ 0 and -1 otherwise.
- **`kNNModel`.**
  - Sorts the (distance, label) pairs of the training rows.
  - Votes with the labels of the first k pairs.
  - Reports the average disagreement with given labels.
- **`RBFModel`.** Replaces each point by a leading 1 followed by one kernel value per centre, then classifies linearly.

The Dafny modules follow that layout:

| module | file | contents |
|---|---|---|
| `Common` | `common.dfy` | `Option`, `Result` and the errors the models raise |
| `Vectors` | `vectors.dfy` | dot product, the perceptron update |
| `Base` | `base.dfy` | the array shape and the validation and transform of `BaseModel.__init__` |
| `Labels` | `labels.dfy` | `_classify`, the masked threshold writes, the half-absolute-difference error |
| `Linear` | `linear.dfy` | `LinearModel` |
| `Knn` | `knn.dfy` | `kNNModel` |
| `Rbf` | `rbf.dfy` | `RBFModel` |

How the model is built:

- **Immutable models.** The models set their fields only while they are constructed. Each model is therefore a datatype value returned by its `Create`, and every `raise` becomes an `Err` of `Result`.
- **Imperative parts stay imperative.**
  - The pocket loop is a method over two arrays: the working weights and a separate pocket array.
  - The masked writes `pred[pred >= 0] = 1; pred[pred < 0] = -1` are a method over an array.
  - The RBF transform appends in a loop.
- **Specification functions.** Each of these methods is proved equal to an independent function, and the properties are proved about that function:
  - `Linear.Run` for the pocket loop
  - `Labels.Predictions` for the masked writes
  - `Rbf.Features` for the RBF transform
- **Randomness.** The random index of the pocket search is a caller-supplied sequence of draws.

## Model

| member | source | states |
|---|---|---|
| `Base.RowsOf` | models.py:47-48 | reading a well-formed 2-D array gives a rectangular matrix with `shape[0]` rows of width `shape[1]`, each row taken from the row-major buffer |
| `Base.MapRows` | models.py:60-64 | mapping the transform over the rows either gives one mapped point per row, or fails with the cause of the first row whose transform raises |
| `Base.TransformRows` | models.py:60-64 | the transformed array exists exactly when no row raises and all results have one length; it then has one row per input row, each the transform's result |
| `Base.TransformPoint` | models.py:246-250 | the point is unchanged without a transform; with one, the result is its output, or a failure carrying its cause |
| `Base.ShapesAgree` | models.py:50-58 | the three shape checks together: X is 2-D, y is 1-D and their lengths are equal; a well-formed X then holds `shape[0]·shape[1]` elements and a well-formed y one label per row |
| `Base.Validate` | models.py:24-68 | the three shape errors come in source order: X not 2-D, then y not 1-D, then unequal lengths. Validation succeeds exactly when the shapes agree and the transform (if any) succeeds; a later failure is a transform failure. A failure after the shape checks is exactly the error that transforming the rows reports. On success y is unchanged, the transform is kept, the row count is kept, and each stored row is the original row or its transform |
| `Base.ValidateAcceptsMatchingShapes` | models.py:50-58 | well-shaped X and y with no transform are always accepted, with X stored as read |
| `Vectors.Dot` | models.py:220 | `np.dot` of two vectors of one length, as in `_classify` and the penalty `w @ w` at line 200, the sum of the products of their entries; an empty product is 0 |
| `Vectors.AddScaled` | models.py:157 | the perceptron update keeps the vector's length |
| `Vectors.DotSelfNonnegative` | models.py:200 | the ridge penalty `w @ w` is never negative |
| `Vectors.DotAddScaled` | models.py:157 | x·(w + a·x') = x·w + a·(x·x') |
| `Labels.Classify` | models.py:202-220 | the label is 1 or -1, has the sign of x·w, and is 1 when x·w = 0 |
| `Labels.Sign` | models.py:198-199 | the value a score takes after both masked writes is 1 or -1, and it is 1 exactly when the score is ≥ 0 |
| `Labels.Predictions` | models.py:282-285 | one prediction per row |
| `Labels.Threshold` | models.py:198-199 | after both masked writes each entry is 1 where it was ≥ 0 and -1 where it was < 0; the second write does not undo the first |
| `Labels.Predict` | models.py:282-285 | `X @ w` followed by the masked writes gives, row by row, the label `_classify` gives that row |
| `Labels.HalfAbsDiffSum` | models.py:200 | the half-absolute-difference sum is never negative |
| `Labels.HalfAbsDiffSumSelf` | models.py:200 | predictions equal to the labels contribute nothing to the half-absolute-difference sum |
| `Labels.Mismatches` | models.py:431 | the disagreement count is at most the length, and zero exactly when the two sequences are equal |
| `Labels.HalfAbsDiffCountsMismatches` | models.py:200 | with labels in {1, -1} on both sides, the half-absolute-difference sum equals the disagreement count |
| `Labels.PredictionsAreLabels` | models.py:283-284 | every prediction is 1 or -1 |
| `Linear.ColumnStackAsWritten` | models.py:122-123 | the bias column as written succeeds exactly when X has one row, and then agrees with the intended one |
| `Linear.BiasAsWrittenFailsOnTwoRows` | models.py:122-123 | a two-row X is rejected by the written bias column, while the intended one prepends 1 to both rows |
| `Linear.PrependBias` | models.py:122-123 | the intended bias column: same number of rows, one more column, each row 1 followed by the original row |
| `Linear.Misclassified` | models.py:155 | row i is misclassified only if it is a row of X; for a ±1 label, it is misclassified exactly when x·w < 0 for label 1, or x·w ≥ 0 for label -1 |
| `Linear.EIn` | models.py:200 | E_in, the half-absolute-difference sum of the thresholded scores against y plus r·(w·w), is at least the penalty r·(w·w), and equals it when every prediction matches |
| `Linear.MisclassifiedCount` | models.py:197-200 | the number of rows whose prediction differs from the label is at most the row count, and zero exactly when the predictions equal y |
| `Linear.EInCountsMisclassified` | models.py:197-200 | with labels in {1, -1}, E_in equals the number of misclassified rows plus r·(w·w), and the plain count when r = 0 |
| `Linear.NoMisclassifiedIffZeroCount` | models.py:197-200 | the misclassification count is zero exactly when no row is misclassified |
| `Linear.EInNonnegative` | models.py:200 | E_in ≥ 0 whenever r ≥ 0 |
| `Linear.CalcEIn` | models.py:181-200 | `_calc_E_in` computes E_in of the given weights |
| `Linear.AddScaledInPlace` | models.py:157 | `w += y[i] * X[i]` in place leaves w equal to the update of its old value |
| `Linear.CopyInto` | models.py:161 | `np.copyto` leaves the destination equal to the source's contents |
| `Linear.UpdateRaisesMargin` | models.py:155-157 | an update at a labelled row raises that row's margin y·(x·w) by x·x ≥ 0 |
| `Linear.NextMisclassified` | models.py:152-156 | the search stops at the first draw whose row is misclassified, skipping only correctly classified rows; it finds nothing only when no remaining draw is misclassified |
| `Linear.SearchMisclassified` | models.py:152-156 | the inner `while True` returns the position `NextMisclassified` specifies |
| `Linear.Iterate` | models.py:155-162 | one iteration makes exactly one update, at the row found, and replaces the pocket by the new weights only on strict improvement; otherwise pocket and its error are untouched |
| `Linear.Run` | models.py:149-162 | the loop stops early only in an iteration before `n_iter`, and finishes unchanged once `n_iter` iterations are done |
| `Linear.Start` | models.py:141-148 | the loop starts with pocket and working weights both equal to w_lin, and the pocket error `E_` is E_in(w_lin) |
| `Linear.RunKeepsPocketHonest` | models.py:141-162 | the pocket error always equals E_in of the pocket weights and never increases |
| `Linear.RunStep` | models.py:152-162 | an iteration that finds a row continues from the updated state |
| `Linear.RunStops` | models.py:152-156 | an iteration whose search finds nothing ends the run |
| `Linear.SeparatedRunStalls` | models.py:149-156 | once the working weights misclassify no row, an iteration before `n_iter` never finds a row, and the run ends with the draws exhausted at that iteration |
| `Linear.ArrayOf` | models.py:148 | `np.copy` gives a fresh array with the same contents |
| `Linear.PocketUpdate` | models.py:157-162 | the update and copy on the two arrays agree with `Iterate` |
| `Linear.PocketIteration` | models.py:152-162 | one pass of the outer loop on the arrays moves to the state `Run` continues from, or stops where `Run` stops, leaving both arrays unchanged |
| `Linear.TrainModel` | models.py:131-166 | `_train_model` returns the pocket weights of `Run` from w_lin, together with their error and the iteration where the draws ran out; that error is E_in of the returned weights and at most E_in(w_lin) |
| `Linear.Create` | models.py:89-129 | validation errors pass through unchanged; the stored X is the validated X with the bias column; a failing solve is reported; otherwise the weights are the pocket result of `Run` and satisfy E_in(w) ≤ E_in(w_lin) |
| `Linear.Weights` | models.py:275 | the weights a call uses (here and at line 196): the ones passed in, or the model's own when none are passed |
| `Linear.ClassifyPoint` | models.py:222-251 | a transform failure passes through; a width mismatch between the point and the weights is refused; otherwise the label is 1 exactly when z·w ≥ 0 and -1 exactly when z·w < 0 |
| `Linear.Points` | models.py:276-280 | the batch to classify keeps its row count, transformed or not |
| `Linear.ClassifyAll` | models.py:253-285 | transform failures and width mismatches are reported; on success there is one ±1 label per row, equal to `classify` on that row |
| `Knn.Create` | models.py:304-323 | construction succeeds exactly when the shapes agree, stores X as read, y and the default k, and reports the base errors otherwise |
| `Knn.LexLe` | models.py:377 | Python's tuple order on (distance, label): every pair is below itself, a smaller distance comes first, and the label decides between equal distances |
| `Knn.LabelSum` | models.py:382 | `sum(label for _, label in nearest_neighbors)`: a single pair sums to its own label, and with ±1 labels the sum of n pairs lies in [-n, n] |
| `Knn.Insert` | models.py:377-378 | inserting keeps all pairs and adds one; the label sum grows by the new label |
| `Knn.InsertSorted` | models.py:377-378 | insertion into a sorted list keeps it sorted |
| `Knn.Sort` | models.py:377-378 | sorting keeps exactly the same pairs and the label sum |
| `Knn.SortSorted` | models.py:377-378 | the sorted list is ordered by distance, and by label between equal distances |
| `Knn.SortedTail` | models.py:377-378 | the tail of a sorted list is sorted |
| `Knn.SortedHeadIsLeast` | models.py:377-378 | the head of a sorted list is its least pair |
| `Knn.SortedCons` | models.py:377-378 | a pair below all elements can precede a sorted list |
| `Knn.SortedUnique` | models.py:377-378 | two sorted lists with the same pairs are equal, so `sorted`'s result does not depend on the algorithm |
| `Knn.PyPrefix` | models.py:381 | `s[:k]` has `min(k, n)` entries for k ≥ 0 and `max(n + k, 0)` for k < 0, always a prefix |
| `Knn.Pairs` | models.py:377-378 | one (distance, label) pair per training row, in row order |
| `Knn.EffectiveK` | models.py:367 | the k a call uses (here and at lines 402 and 427): the one passed in, or the model's default when none is passed |
| `Knn.SortedPrefix` | models.py:381 | a prefix of a sorted list is sorted, and none of its pairs exceeds a pair left out |
| `Knn.Neighbours` | models.py:377-381 | the chosen neighbours are sorted, there are `min(k, n)` of them for k ≥ 0, they are drawn from the pairs, and none exceeds a pair not chosen |
| `Knn.ClassifyPoint` | models.py:344-382 | the vote is 1 or -1 |
| `Knn.VoteOnAnySortedArrangement` | models.py:377-382 | for any sorted arrangement of the pairs, the vote is 1 exactly when the first k pairs' labels sum to ≥ 0, and -1 exactly when they sum below 0 |
| `Knn.TieTakesMinusOneFirst` | models.py:377-378 | between two rows at equal distance, if the +1 row is chosen then the -1 row is chosen too |
| `Knn.SortedTieOrder` | models.py:377-381 | in a sorted list, a pair below a chosen pair is chosen |
| `Knn.LabelSumIsTotal` | models.py:382 | the label sum of the pairs is the total of y |
| `Knn.VoteIgnoresQueryWhenKCoversAll` | models.py:381-382 | with k ≥ n the vote is the sign of the total label sum, whatever the query |
| `Knn.SelfQueryReturnsOwnLabel` | models.py:344-382 | with k = 1 a training row whose only nearest row is itself gets the sign of its own label |
| `Knn.ClassifyAll` | models.py:384-405 | one vote per query row, in order, with the same k |
| `Knn.AsReals` | models.py:431 | the integer votes become the same values as reals |
| `Knn.Broadcast` | models.py:431 | `pred - y` works exactly for equal lengths or a length-1 side, pairing equal lengths unchanged |
| `Knn.ClassificationError` | models.py:407-431 | the error is refused exactly on lengths numpy cannot broadcast, and is NaN exactly when y is empty |
| `Knn.ShareBounds` | models.py:431 | a count over a positive total lies in [0, 1] and is 0 only for a zero count |
| `Knn.MismatchShare` | models.py:431 | for ±1 vectors, the mean half absolute difference is the mismatch count over the length, lies in [0, 1], and is 0 exactly when they are equal |
| `Knn.ErrorOfEqualLengths` | models.py:431 | with as many query rows as labels nothing is broadcast, and the error is the plain mean half absolute difference |
| `Knn.PredictionsMatch` | models.py:431 | the votes equal y exactly when each row's vote is its label |
| `Knn.VotesAreLabels` | models.py:382 | every vote of a batch is 1 or -1 |
| `Knn.ErrorIsMismatchShare` | models.py:427-431 | with one ±1 label per row the error is (number of mismatches) / len(y), lies in [0, 1], and is 0 exactly when every prediction matches |
| `Rbf.Features` | models.py:524-527 | the feature vector of x has `len(Mu) + 1` entries: a leading 1, then entry i+1 is `kern(norm(x - Mu[i]) / r)` |
| `Rbf.FeatTrans` | models.py:504-527 | the feature vector has `len(Mu) + 1` entries, entry 0 is 1, and entry i+1 is `kern(dist(x, Mu[i]) / r)` |
| `Rbf.FeatureRows` | models.py:490 | the transformed training matrix has one feature vector per row and width `len(Mu) + 1` |
| `Rbf.Create` | models.py:456-491 | base errors pass through; otherwise the stored X is the feature rows, the solve's failure is reported, and the weights are its result, one per feature |
| `Rbf.ClassifyAll` | models.py:533-561 | every point is transformed first; an empty batch is refused by the product with w; otherwise there is one ±1 label per point, that of its feature vector under w |

## Left out

- Floating point: arrays hold exact reals, so rounding, `inf` and `NaN` do not arise except where the result type says so (`Knn.ClassificationError`'s `None`).
- `_calc_w_lin` of both models (models.py:168-179, models.py:493-502): the matrix inverse is a caller-supplied solver. It yields one weight per column, or `None` where `np.linalg.inv` would raise.
- `np.linalg.norm` (models.py:342, models.py:526) is a caller-supplied `Base.Distance`.
  - It is total, so the error numpy raises when `x - self.X[i]` (kNN, models.py:342) or `x - self.Mu[i]` (RBF, models.py:526) cannot broadcast is not modelled.
- `_gaussian_kernel` and `math.exp` (models.py:530-531): `Rbf.Create` takes the kernel as a parameter, so the Gaussian default for a missing `kern` is not modelled.
- `random.randint` (models.py:154) is a caller-supplied sequence of draws, each below the row count.
  - The program would keep drawing forever when no row is misclassified. The model stops with `SearchExhausted` when the draws run out. `Linear.SeparatedRunStalls` shows that this happens as soon as the working weights fit every row, for example a training matrix [[1, 0]] (bias column included), y = [1], w_lin = [1, 0] and n_iter = 1. The run is then `Exhausted` even though w already fits the data; what the authors meant to happen in that case is not evident, so no corrected loop is modelled.
  - `randint(0, -1)` on an empty X also raises; in the model this shows up as `SearchExhausted(0)`.
- Debug printing and `time()` (models.py:144-146, models.py:150-151, models.py:163-164): output only.
- dtype coercion (models.py:47-48, models.py:122): inputs are already float arrays of a given shape; ragged inputs to `np.array` are not modelled.
- Ragged transform results (models.py:62) fail with one fixed cause, `RaggedCause`; numpy's own message is not kept.
- Linear.Create: n_iter is a `nat`, as the docstring's "Number of training iterations" (models.py:110-111) describes it. A negative budget is not modelled; in the source `range(n_iter)` is then empty and the pocket stays w_lin, as with a budget of 0.
- Constructor defaults: `Linear.Create` takes r and n_iter explicitly, so the defaults r = 0 and n_iter = 2000 (models.py:92-94) are not modelled. The same holds for `Knn.Create`'s default k = 1 (models.py:304) and `Rbf.Create`'s default r = 2 (models.py:461).
- Base.TransformRows: with a transform and zero rows the model stores a 0-by-0 matrix, while numpy stores a one-dimensional array of shape (0,) (models.py:62). The later product with w fails either way, but the stored shape differs.
- The `*WIP*` dummy-feature check named in the constructor's docstring (models.py:45) has no code and is not modelled.
- Rbf.Create: requires r ≠ 0. With r = 0 numpy divides by zero and yields `inf`, or `NaN` where the point sits on a centre (0/0), which exact reals cannot express. The same holds for `Rbf.FeatTrans` and `Rbf.ClassifyAll`.
- `Rbf.Create` with zero training rows: numpy builds a one-dimensional empty array and the inverse then raises. The model passes the solver a zero-row matrix of width `len(Mu) + 1`, and the solver's `None` stands for that raise.
- `Knn.ClassifyPoint` has no transform step: `kNNModel` never passes a transform (models.py:322), so the branch at models.py:370-374 never runs.
- Python and numpy defects, each modelled as the evident intent:
  - The annotation `Callable[[numpy.ndarray], numpy.ndarray]` (models.py:93) names `numpy`, which is imported only as `np`. Before Python 3.14 annotations are evaluated when the function is defined, so importing `models.py` raises `NameError`. The model treats `feat_trans` as an optional transform.
  - `except e:` (models.py:63, 249, 279, 555) would raise `NameError` when a transform raises. The model reports `TransformFailed` with the cause.
  - `np.copy(self.w)` (models.py:148) reads `self.w` before it is assigned. The model starts from a copy of w_lin.
  - `n_iter` (models.py:149) is unbound. The model uses the stored iteration budget.
  - `if debug` (models.py:150) tests the nested function. It only prints, and is left out.
  - `w != None` on arrays (models.py:196, 275) is ambiguous for numpy. The model uses an `Option`: the given weights, or the model's own when none are given.
  - `classify` (models.py:251) passes `w` straight to `_classify` even when it is `None`. The model uses the model's weights there too, as its docstring says.
  - `_calc_E_in`'s default `w` is not modelled, because its only caller always passes weights.
- `LinearModel.classify` and `classify_all` (models.py:246-251, 276-282) do not prepend the bias to new points. Callers pass points that already carry it; a point of the wrong width gets `ShapesNotAligned`, as numpy's product would refuse it.
- The bias column as written (models.py:122-123) is modelled by `Linear.ColumnStackAsWritten`. The rest of the model uses the corrected `Linear.PrependBias`; see Findings.

## Findings

| source | as written | input that shows it | evidently intended | confidence | as-written member | corrected member |
|---|---|---|---|---|---|---|
| models.py:122-123 | the bias is a 0-d `ones_like` of the row count, which `column_stack` turns into one 1 by 1 block, so stacking it beside X fails unless X has exactly one row | X = [[0], [1]] (two rows), where `column_stack` raises | a column of ones, one per row, prepended to X | high; not executed | `Linear.BiasAsWrittenFailsOnTwoRows` | `Linear.PrependBias` |
