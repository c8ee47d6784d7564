/** Failure values shared by every module: the Python exceptions the core raises,
    and the Option/Result wrappers that carry them. */
module Errors {

  datatype Option<T> = None | Some(value: T)

  /** The exception classes the core raises. `UndefinedNodex` is `UndefinedNodexError`;
      `RecursionLimit` stands for the interpreter's recursion limit, reached when
      `Nodex.connect` keeps calling itself. */
  datatype Error =
    | TypeError
    | ValueError
    | RuntimeError
    | IndexError
    | KeyError
    | AttributeError
    | UndefinedNodex
    | RecursionLimit

  datatype Result<T> = Ok(value: T) | Err(error: Error)

  /** The outcome of an operation that returns nothing on success. */
  datatype Outcome = Done | Failed(error: Error)
}
