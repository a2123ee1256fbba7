/** Failure-compatible wrappers and the error kinds that surface from a SOAP call. */
module Wrappers {

  datatype Option<+T> = None | Some(value: T)

  datatype Result<+R, +E> = Success(value: R) | Failure(error: E) {
    predicate IsFailure() {
      Failure?
    }

    function PropagateFailure<U>(): Result<U, E>
      requires Failure?
    {
      Failure(error)
    }

    function Extract(): R
      requires Success?
    {
      value
    }
  }

  /** What a PHP exception thrown on the way of a call stands for. */
  datatype Error =
    | TypeError                    // a value of the wrong type (here: null) passed to a typed parameter
    | HttpError(message: string)   // the browser's promise was rejected; `await` rethrows its reason
    | SoapFault(message: string)   // raised by the SOAP driver while encoding or decoding
    | LoadError(message: string)   // the WSDL loader could not produce the document
}
