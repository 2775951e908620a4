/** Optional values, results and the exceptions the extractor can raise. */
module Wrappers {

  /** A value that may be absent: C#'s `null`. */
  datatype Option<+T> = None | Some(value: T)

  /** The .NET exceptions that escape the modelled operations. */
  datatype Exn =
    | NotImplemented       // NotImplementedException
    | KeyNotFound          // KeyNotFoundException
    | IndexOutOfRange      // an index out of range: ArgumentOutOfRangeException from a List indexer, IndexOutOfRangeException from an array, or a page the document lacks
    | InvalidCast          // InvalidCastException raised by Enumerable.Cast
    | InvalidOperation     // InvalidOperationException (a list modified while enumerated)
    | Overflow             // OverflowException (an array created with a negative length)
    | ArgumentNull         // ArgumentNullException
    | ObjectDisposed       // ObjectDisposedException (a disposed lock entered)

  /** The outcome of an operation that either returns a value or throws. */
  datatype Result<+T> = Ok(value: T) | Err(error: Exn) {
    predicate IsFailure() { Err? }
    function PropagateFailure<U>(): Result<U>
      requires Err?
    {
      Err(error)
    }
    function Extract(): T
      requires Ok?
    {
      value
    }
  }
}
