/** Option, Result and Outcome values standing for C#'s null references,
    thrown exceptions and void methods that may throw. */
module Wrappers {

  datatype Option<T> = None | Some(value: T)

  /** The exception classes the core throws, by kind. */
  datatype Exception =
    | InvalidOperationException
    | ArgumentException
    | NotImplementedException
    /** What Parallel.Invoke throws after its batch when an action threw. */
    | AggregateException
    /** Whatever exception a queued action itself threw. */
    | ActionException

  /** A value, or the exception the C# code would have thrown instead. */
  datatype Result<T> = Ok(value: T) | Err(error: Exception)

  /** Completion of a void method: normal return, or a thrown exception. */
  datatype Outcome = Pass | Fail(error: Exception)
}
