/** The driver's error value, as the binding constructs it. */
module Errors {
  import opened Conversions

  /** A driver error: a numeric code and the native message text. */
  datatype TaosError = TaosError(code: int32, errStr: string)

  /** The driver's code for "no connection could be made". Its numeric value
      lives in the driver's errors package, which is not part of this model,
      so it is left unspecified here. */
  const TSC_INVALID_CONNECTION: int32

  /** The error taosConnect returns when the native connect yields nil. */
  const InvalidConnection: TaosError := TaosError(TSC_INVALID_CONNECTION, "invalid connection")
}
