/**
 * The parts of the SDK's shared `base` package that the suite code uses:
 * the error envelope every remote response carries, its error codes and
 * the error values that the modelled operations return.
 */
module Base {

  /** `base.Error`: the `{errcode, errmsg}` envelope of every response; it is a Go `error` too. */
  datatype Envelope = Envelope(errCode: int, errMsg: string)

  // The error codes of `base`. Their numbers live in the `base` package, which is
  // not part of this model: the values below are placeholders, and every proof
  // relies only on the four being distinct.
  const ErrCodeOk: int := 0
  const ErrCodeSuiteTokenInvalid: int := 1
  const ErrCodeSuiteTokenTimeout: int := 2
  const ErrCodeSuiteTokenFailure: int := 3

  /** The error values the modelled operations can return. */
  datatype Error =
    | DecodeFailed                                      // a JSON or XML body did not decode
    | Remote(envelope: Envelope)                        // a `base.Error` envelope returned as the error
    | SignatureInvalid                                  // "validate signature error"
    | UnknownMessageType(infoType: string, origData: string)
}
