/** Value types shared by the modules of the model: nullable values, results with an error
    branch, and identifiers. */
module Common {

  /** A nullable value (`int?`, `DateTime?`, a reference that may be null). */
  datatype Option<+T> = None | Some(value: T) {

    /** The null-coalescing operator `this ?? fallback`. */
    function GetOr(fallback: T): T
    {
      match this
      case Some(v) => v
      case None => fallback
    }
  }

  /** The value of a computation, or the error (an exception) it raises. */
  datatype Result<+R, +E> = Success(value: R) | Failure(error: E)

  /** A `Guid`, represented by its 128-bit value read as a number. */
  type Guid = x: int | 0 <= x < 0x1_0000_0000_0000_0000_0000_0000_0000_0000

  /** `Guid.Empty`, the all-zero identifier. */
  const EmptyGuid: Guid := 0
}
