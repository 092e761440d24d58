/** The shapes shared by the request handlers: JSON responses with a status code, and the
    outcome of a call into the database that may throw. */
module Http {
  import opened Wrappers

  const StatusOk: int := 200
  const StatusBadRequest: int := 400
  const StatusUnauthorized: int := 401
  const StatusServerError: int := 500

  /** The `{ error, details? }` body every failing handler returns. */
  datatype ErrorBody = ErrorBody(error: string, details: Option<string>)

  /** A handler's response: a JSON body with status 200, or an error body with its status. */
  datatype Response<+T> = Success(body: T) | Failure(status: int, err: ErrorBody) {
    function Status(): int {
      match this
      case Success(_) => StatusOk
      case Failure(s, _) => s
    }
  }

  /** What a thrown JavaScript error carries: `error.name` and `error.message`. */
  datatype Thrown = Thrown(name: string, message: string)

  /** The outcome of one awaited database call that returns nothing of interest
      (`connectToDatabase()`, `findById(...).exec()` for the reply): it completes or throws. */
  datatype Attempt = Completes | Throws(error: Thrown)

  /** The outcome of one awaited database call that yields a value. */
  datatype Outcome<+T> = Yields(value: T) | Fails(error: Thrown)

  /** What a client-side `throw` hands to its `catch`: an `Error` object with its message, or
      some other value. */
  datatype Raised = ErrorObject(message: string) | OtherValue

  /** The `{ error: 'Unauthorized' }` reply of every handler behind a session. */
  function Unauthorized<T>(): Response<T> {
    Failure(StatusUnauthorized, ErrorBody("Unauthorized", None))
  }

  /** JavaScript truthiness of an optional string: present and not empty. */
  predicate Truthy(s: Option<string>) {
    s.Some? && s.value != ""
  }
}
