/** Option and Result values, and the .NET exceptions that the plugin's code can raise
    on the paths this model covers. */
module Common {

  datatype Option<T> = None | Some(value: T)

  datatype Result<T, E> = Ok(value: T) | Err(error: E)

  /** The exception classes the plugin's code raises (directly or through the framework)
      on the paths modelled here. */
  datatype Exception =
    | ArgumentNullException          // an explicit null check, or a framework call given null
    | ArgumentOutOfRangeException    // indexing an empty list
    | NullReferenceException         // dereferencing a null member
    | InvalidOperationException      // Enumerable.Last() on an empty sequence
    | FormatException                // int.Parse or new Guid(...) on malformed text
    | OverflowException              // int.Parse on a value outside the 32-bit range
}
