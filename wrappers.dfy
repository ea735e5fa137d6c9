/** Result shapes shared by the whole model. */
module Wrappers {

  /** Python's `None` / a present value. */
  datatype Option<+T> = None | Some(value: T) {
    function GetOr(default: T): T {
      match this
      case Some(v) => v
      case None => default
    }
  }

  /** The outcome of calling code that may raise: the exception's `str(e)`, or the returned value. */
  datatype Call<+T> = Raised(error: string) | Returned(value: T)
}
