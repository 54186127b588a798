/** The application-wide error, reduced to the cases the board logic can produce. */
module Errors {
  import Constants

  /** A failed HTTP call: the transport failed, or the body did not decode. */
  datatype ApiError = NetworkError | DecodeError

  /** Why a raw service record could not become a `Service`. */
  datatype ServiceConversionError = MissingDestination | MissingOrigin

  datatype AppError =
    | Config(config: Constants.ConfigError)
    | Api(api: ApiError)
    | Conversion(conversion: ServiceConversionError)
}
