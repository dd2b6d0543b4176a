/** Results of operations that may raise an exception in the Python source.
    Each constructor of Error names the exception the source raises. */
module Outcomes {

  datatype Error =
    | IndexError            // indexing past the end of a list
    | KeyError              // a missing column label
    | TypeError             // an operation applied to a value of the wrong kind
    | AttributeError        // a method looked up on a value that lacks it
    | ValueError            // pandas refuses the arguments (e.g. nothing to concatenate)
    | InvalidIndexError     // pandas cannot align rows on a non-unique index
    | NotImplementedError   // the abstract step was called
    | ZeroDivisionError     // a division by zero
    | AmbiguousColumn       // a column label that occurs more than once
    | External(code: nat)   // raised by code outside this model

  datatype Option<+T> = None | Some(value: T)

  datatype Result<+T> = Ok(value: T) | Err(error: Error)
}
