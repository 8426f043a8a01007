/** Nullable values and results of operations that may raise. */
module Wrappers {

  /** A C# reference that may be null: `None` stands for null. */
  datatype Option<+T> = None | Some(value: T) {
    function GetOr(default: T): T {
      match this
      case Some(v) => v
      case None => default
    }
  }

  /** The outcome of a C# call that either returns a value or throws. */
  datatype Result<+R, +E> = Success(value: R) | Failure(error: E)

  /** `string.IsNullOrEmpty` */
  predicate IsNullOrEmpty(s: Option<string>) {
    s.None? || s.value == ""
  }

  /** What `string.Format` prints for a string argument: null prints as nothing. */
  function OrEmpty(s: Option<string>): string {
    s.GetOr("")
  }
}
