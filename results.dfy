/** Shared result types: optional values, results with an error, and what a
    command-line script leaves behind when it exits. */
module Results {

  datatype Option<+T> = None | Some(value: T)

  /** A success value or an error; usable with `:-`. */
  datatype Result<+T, +E> = Ok(value: T) | Err(error: E) {

    predicate IsFailure() {
      Err?
    }

    function PropagateFailure<U>(): Result<U, E>
      requires Err?
    {
      Err(error)
    }

    function Extract(): T
      requires Ok?
    {
      value
    }
  }

  /** The observable effect of running a script: its exit status and the
      lines it printed to standard output and standard error. */
  datatype Exit = Exit(status: nat, stdout: seq<string>, stderr: seq<string>)
}
