/** Failure-carrying values shared by every module of the model. The error
    kinds name the three ways the configuration code can raise: a rejected
    argument (the source's ValueError), a missing attribute (AttributeError)
    and an out-of-range list index (IndexError). A unit name that the
    registry does not know is its own kind, as the registry lookup here is an
    explicit map rather than an attribute access. */
module Wrappers {

  datatype Option<T> = None | Some(value: T)

  datatype Error =
    | InvalidArgument(message: string)
    | UnresolvedUnitName(name: string)
    | UnknownAttribute(attribute: string)
    | IndexOutOfRange(index: nat)

  /** The value of a call that either returns a `T` or raises an `Error`. */
  datatype Result<T> = Ok(value: T) | Err(error: Error)

  /** The outcome of a call that returns nothing or raises an `Error`. */
  datatype Outcome = Pass | Fail(error: Error)
}
