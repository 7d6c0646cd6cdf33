/** Wrappers shared by the whole model: `Option` stands for
    the TypeScript optional field (`x?: T`, `undefined`), `Result` for a
    validation outcome that carries either the typed payload or the list of
    fields that were rejected. */
module Wrappers {

  datatype Option<+T> = None | Some(value: T) {

    /** The value, or `default` when absent (JavaScript's `x || default` on a
        field that is either missing or present). */
    function GetOr(default: T): T {
      match this
      case Some(v) => v
      case None => default
    }
  }

  datatype Result<+R, +E> = Success(value: R) | Failure(error: E)
}
