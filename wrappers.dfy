/** Small result types shared by every module of the model. */
module Wrappers {

  datatype Option<+T> = None | Some(value: T)

  datatype Result<+T, +E> = Success(value: T) | Failure(error: E)

  /** How an operation of the application ends: it returns normally, it
      returns an error to its caller, or it panics (a Rust `panic!`, or
      `unwrap`/`expect` on a failure), which ends the process. */
  datatype Status = Ok | Err(message: string) | Panic(message: string)
}
