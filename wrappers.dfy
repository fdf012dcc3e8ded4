/** Option and Result types shared by every stage of the pipeline.

    `Option` stands for Rust's `Option`; `Result.Fault` stands for a
    `panic!` (or an implicit panic: an index out of bounds, a division by
    zero), which aborts the whole run in the original program. */
module Wrappers {

  datatype Option<+T> = None | Some(value: T)

  datatype Result<+T> = Ok(value: T) | Fault(message: string) {

    predicate IsFailure() {
      Fault?
    }

    function PropagateFailure<U>(): Result<U>
      requires Fault?
    {
      Fault(message)
    }

    function Extract(): T
      requires Ok?
    {
      value
    }
  }
}
