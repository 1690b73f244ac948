/** The two wrappers the model uses: `Option` for a Python function that may
    return `None`, and `Result` for one that may raise instead of returning. */
module Wrappers {

  datatype Option<+T> = None | Some(value: T)

  datatype Result<+R, +E> = Success(value: R) | Failure(error: E)
}
