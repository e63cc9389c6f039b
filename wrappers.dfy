/** Option and Result, the two failure-carrying shapes the model uses. */
module Wrappers {

  datatype Option<+T> = None | Some(value: T)

  datatype Result<+R, +E> = Success(value: R) | Failure(error: E)
}

/**
 * The Python exceptions that the core lets escape to its caller. The
 * router client catches only request and JSON-decoding errors; every
 * other exception raised inside the core propagates unchanged.
 */
module Failures {

  datatype Raised =
    | ValueError   // float() or tuple unpacking rejected a coordinate text
    | KeyError     // a dictionary key is absent from a decoded payload
    | IndexError   // a list in a decoded payload is empty
}
