/** Failure-compatible wrappers used across the model: `Option` stands for a
    JavaScript `null`/`undefined` or a Java `null`/`Optional.empty()`, `Result`
    for a Java method that either returns a value or throws. */
module Wrappers {

  datatype Option<+T> = None | Some(value: T) {
    function GetOr(default: T): T {
      match this
      case Some(v) => v
      case None => default
    }
  }

  datatype Result<+T, +E> = Ok(value: T) | Err(error: E)

  /** One field of a partial update (`if (dto.getX() != null) entity.setX(...)`):
      a non-null value overwrites the stored one, null keeps it. */
  function Pick<T>(given: Option<T>, stored: Option<T>): (r: Option<T>)
    ensures given.Some? ==> r == given
    ensures given.None? ==> r == stored
  {
    if given.Some? then given else stored
  }
}
