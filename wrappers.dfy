/** Optional values and Java exceptions that escape an operation. */
module Wrappers {

  /** A Java reference that may be null: None stands for null. */
  datatype Option<+T> = None | Some(value: T)

  /** The Java runtime exceptions the modelled code lets escape to its caller. */
  datatype Fault =
    | NullPointer    // java.lang.NullPointerException
    | NumberFormat   // java.lang.NumberFormatException

  /** The value an operation returns, or the exception it throws. */
  datatype Result<+T> = Ok(value: T) | Err(fault: Fault)
}
