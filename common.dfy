/** Failure values shared by the three models.

    Every model constructor and classification call in models.py either returns a value or
    raises; the raises become the `Err` case of `Result`. */
module Common {

  datatype Option<T> = None | Some(value: T)

  /** The ways a model operation can stop without a value. */
  datatype ModelError =
    /** X does not have exactly two dimensions (the first ValueError of the base constructor). */
    | XNotTwoDimensional(xShape: seq<nat>)
    /** y does not have exactly one dimension. */
    | YNotOneDimensional(yShape: seq<nat>)
    /** X and y have different lengths. */
    | UnequalLengths(lenX: nat, lenY: nat)
    /** The feature transform raised (`cause` is the underlying message), or its results did
        not form a rectangular array. */
    | TransformFailed(cause: string)
    /** numpy refused to combine arrays of these shapes: a dot or matrix product whose inner
        dimensions differ, a `column_stack` of blocks with different row counts, or a
        difference of vectors that cannot be broadcast. */
    | ShapesNotAligned(got: nat, expected: nat)
    /** The pocket search ran out of supplied random draws at iteration `iteration` before it
        drew a misclassified point; the program itself keeps drawing without end. */
    | SearchExhausted(iteration: nat)
    /** The closed-form solve raised, as `np.linalg.inv` does on a singular matrix. */
    | SolveFailed

  datatype Result<T> = Ok(value: T) | Err(error: ModelError)

  /** The failure message used when transformed rows have different lengths. */
  const RaggedCause: string := "inhomogeneous shape after feature transform"
}
