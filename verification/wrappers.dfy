/** Optional values, the exceptions the yield pipeline raises, and results that carry them. */
module Wrappers {

  /** Python's `X | None`. */
  datatype Option<+T> = None | Some(value: T)

  /**
   * The three kinds of failure the core raises:
   * - NotFound: `NotFoundException`, a first-match search that matched nothing;
   * - UnsupportedNetwork: the `KibaException('Unsupported network, ...')` of every chain check;
   * - Transport: anything a request raises (HTTP error, a body that is not JSON, a missing key).
   */
  datatype Error = NotFound | UnsupportedNetwork | Transport

  /** A value, or the exception that was raised instead of returning it. */
  datatype Result<+T> = Ok(value: T) | Err(error: Error) {

    predicate IsFailure() {
      Err?
    }

    function PropagateFailure<U>(): Result<U>
      requires Err?
    {
      Err(error)
    }

    function Extract(): T
      requires Ok?
    {
      value
    }
  }
}
