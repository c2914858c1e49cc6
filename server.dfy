/**
 * The two pieces of request handling in the API entry point that are logic
 * rather than wiring: the CORS origin check and the final error-handling
 * middleware that turns any error passed to `next` into a JSON response.
 */
module Server {
  import opened Wrappers

  /** The dev-server origins the API accepts credentials from. */
  const AllowedOrigins: seq<string> := ["http://localhost:5173", "http://localhost:5174", "http://localhost:5175"]

  const CorsRejection := "Not allowed by CORS"
  const DefaultErrorMessage := "Internal Server Error"

  /**
   * The `origin` callback given to the CORS middleware. `origin` is the request's
   * Origin header (`None` when absent). A falsy origin (absent or empty) is let
   * through, as is one of the allowed origins; anything else is refused with an error.
   */
  function CorsOrigin(origin: Option<string>): (r: Result<bool, string>)
    ensures r.Ok? <==> origin.None? || origin.value == "" || origin.value in AllowedOrigins
    ensures r.Ok? ==> r.value
    ensures r.Err? ==> r.error == CorsRejection
  {
    if origin.None? || origin.value == "" || origin.value in AllowedOrigins then Ok(true)
    else Err(CorsRejection)
  }

  /**
   * An error handed to `next`: `statusCode` is set by the application's
   * `errorHandler(status, message)`; errors thrown by the runtime or the database
   * driver carry no status code.
   */
  datatype RaisedError = RaisedError(statusCode: Option<int>, message: Option<string>)

  /** The body the error middleware sends. */
  datatype ErrorBody = ErrorBody(success: bool, statusCode: int, message: string)

  /** `errorHandler(status, message)`: an error that carries its own status code. */
  function Raise(status: int, message: string): (e: RaisedError)
    ensures e.statusCode == Some(status) && e.message == Some(message)
  {
    RaisedError(Some(status), Some(message))
  }

  /**
   * The error-handling middleware: the HTTP status is the error's status code when
   * it is truthy (set and non-zero), otherwise 500; the message is the error's
   * message when it is truthy (set and non-empty), otherwise the default.
   */
  function ErrorResponse(err: RaisedError): (r: (int, ErrorBody))
    ensures err.statusCode.Some? && err.statusCode.value != 0 ==> r.0 == err.statusCode.value
    ensures err.statusCode.None? || err.statusCode.value == 0 ==> r.0 == 500
    ensures err.message.Some? && err.message.value != "" ==> r.1.message == err.message.value
    ensures err.message.None? || err.message.value == "" ==> r.1.message == DefaultErrorMessage
    ensures !r.1.success && r.1.statusCode == r.0
  {
    var status := if err.statusCode.Some? && err.statusCode.value != 0 then err.statusCode.value else 500;
    var message := if err.message.Some? && err.message.value != "" then err.message.value else DefaultErrorMessage;
    (status, ErrorBody(false, status, message))
  }
}
