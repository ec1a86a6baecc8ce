/** Value types shared by every part of the model: Rust's `Option`, `Result`
    and `std::task::Poll`. */
module Prelude {

  /** Rust's `Option<T>`. */
  datatype Option<+T> = None | Some(value: T) {
    /** `Option::unwrap_or(default)`. */
    function UnwrapOr(default: T): T {
      match this
      case Some(v) => v
      case None => default
    }
  }

  /** Rust's `Result<T, E>`. */
  datatype Result<+T, +E> = Ok(value: T) | Err(error: E)

  /** `std::task::Poll<T>`: the answer of one `poll` of a future. */
  datatype Poll<+T> = Pending | Ready(value: T) {
    /** `Poll::is_ready`. */
    predicate IsReady() {
      Ready?
    }
  }

  /** A Rust panic (`panic!`, a failed `expect` or `unwrap`), with its
      message; the model returns it where the program would unwind. */
  datatype Panic = Panic(message: string)
}
