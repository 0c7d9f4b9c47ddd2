/** Errors as the suite sees them: the API server's not-found status, every
    other API or transport failure, a failed conversion between the untyped
    and the typed form of an object, and the messages the helpers build
    themselves with fmt.Errorf. */
module Errors {

  datatype Option<+T> = None | Some(value: T)

  datatype Error =
    | NotFound                        // the API server answered with status reason NotFound
    | ApiFailure(reason: string)      // any other status or transport error
    | ConversionFailed(reason: string) // the unstructured converter rejected the object's shape
    | ComponentsMissing               // "failed to get spec.components in ..."
    | ComponentNotMap                 // "unexpected format for component ..."
    | FieldNotMap                     // "value cannot be set because ... is not a map[string]interface{}"
    | EngineNotFound                  // "MulticlusterEngine CR not found."
    | EmptyToken                      // "empty token"
    | AuthenticationFailed            // "fail to authenticate"
    | UserNameMismatch(expected: string) // "username does not match <expected>"
    | NilTokenSecretRef               // the nil-pointer panic on an account with no status.tokenSecretRef

  /** A Go pair (value, error) in which exactly one side is meaningful. */
  datatype Result<+T> = Ok(value: T) | Err(error: Error)

  /** errors.IsNotFound: true only for an error that is the not-found status
      (and false for the absence of an error). */
  predicate IsNotFound<T>(r: Result<T>) {
    r.Err? && r.error.NotFound?
  }
}
