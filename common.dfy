/** Small value types shared by every module of the model. */
module Common {

  /** A byte of a file or of a compressed / packed buffer. */
  newtype byte = b: int | 0 <= b < 256

  /**
   * One cell of a table. The tables are allocated full of a sentinel value and
   * a build writes only the cells whose point it could evaluate; `Hole` stands
   * for a cell that still holds the sentinel, `Val` for a written sample.
   */
  datatype Cell<T> = Hole | Val(value: T)

  /** What a call into the foreign property evaluator does: return, or throw. */
  datatype Attempt<T> = Ok(value: T) | Threw

  datatype Option<T> = None | Some(value: T)

  datatype Result<T, E> = Success(value: T) | Failure(error: E)
}
