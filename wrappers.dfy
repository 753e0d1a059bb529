/** Option and Result values shared by every module of the model. */
module Wrappers {

  /** std::optional: a value that may be absent. */
  datatype Option<+T> = None | Some(value: T) {
    function GetOr(default: T): T {
      match this
      case Some(v) => v
      case None => default
    }
  }

  /** The outcome of an operation that the source reports by throwing. */
  datatype Result<+T, +E> = Ok(value: T) | Err(error: E)

  /** sparrow::nullable: a value and whether it is present (not null). */
  datatype Nullable<+T> = Nullable(value: T, hasValue: bool)

  /** std::out_of_range, as thrown by the bounds-checked at(i) of both arrays. */
  datatype IndexError = OutOfRange(index: nat, size: nat)

  /** Fixed-width integer types of the C++ source, as ranges of int. */
  type int64 = x: int | -0x8000_0000_0000_0000 <= x < 0x8000_0000_0000_0000
  type int32 = x: int | -0x8000_0000 <= x < 0x8000_0000

  predicate IsInt64(x: int) {
    -0x8000_0000_0000_0000 <= x < 0x8000_0000_0000_0000
  }
}
