/** How an API route turns what its `catch` block receives into an HTTP response. */
module Http {
  import opened Common

  /** The message `requireUser` throws when no user is signed in. */
  const UNAUTHORIZED: string := "Unauthorized"

  /** What a route handler's `catch` receives: the schema's validation error, or an
      error carrying a message (from `requireUser` or from the database). */
  datatype Thrown = ZodError | Error(message: string)

  datatype Response<T> = Ok(data: T) | Fail(status: int, message: string)

  /** The status code a `catch` block chooses: 400 for a validation error, 401 for the
      message `Unauthorized`, 500 for anything else. */
  function StatusOf(e: Thrown): (code: int)
    ensures code == 400 <==> e.ZodError?
    ensures code == 401 <==> e == Error(UNAUTHORIZED)
    ensures code == 500 <==> e.Error? && e.message != UNAUTHORIZED
  {
    match e
    case ZodError => 400
    case Error(m) => if m == UNAUTHORIZED then 401 else 500
  }

  /** The message sent back: `Invalid input` for a validation error, otherwise the
      error's message, or the route's `fallback` when that message is empty. */
  function MessageOf(e: Thrown, fallback: string): (m: string)
    ensures e.ZodError? ==> m == "Invalid input"
    ensures e.Error? && e.message != "" ==> m == e.message
    ensures e.Error? && e.message == "" ==> m == fallback
  {
    match e
    case ZodError => "Invalid input"
    case Error(msg) => if msg == "" then fallback else msg
  }

  /** The response a `catch` block builds from `e`: always a failure, 400 exactly for a
      validation error, 401 exactly for `Unauthorized`, 500 for every other error, and
      carrying a message whenever the route has a fallback. */
  function Failure<T>(e: Thrown, fallback: string): (resp: Response<T>)
    ensures resp.Fail?
    ensures resp.status == 400 <==> e.ZodError?
    ensures resp.status == 401 <==> e == Error(UNAUTHORIZED)
    ensures resp.status == 500 <==> e.Error? && e.message != UNAUTHORIZED
    ensures e.Error? && e.message != "" ==> resp.message == e.message
    ensures fallback != "" ==> resp.message != ""
  {
    Fail(StatusOf(e), MessageOf(e, fallback))
  }

  /** A database error reaching a `catch` block gives 500 with its message (or the
      fallback when it has none), except that the message `Unauthorized` gives 401. */
  lemma DatabaseErrorResponse<T>(m: string, fallback: string)
    ensures Failure<T>(Error(m), fallback).status == if m == UNAUTHORIZED then 401 else 500
    ensures Failure<T>(Error(m), fallback).message == if m == "" then fallback else m
  {
  }

  /** A `GET` listing handler: `requireUser` throws `Unauthorized` when nobody is signed
      in, a database error is rethrown, and otherwise the rows are returned. */
  function Listing<T>(hasUser: bool, dbError: Option<string>, rows: T, fallback: string): (resp: Response<T>)
    ensures !hasUser ==> resp == Fail(401, UNAUTHORIZED)
    ensures hasUser && dbError.Some? ==> resp == Failure(Error(dbError.value), fallback)
    ensures hasUser && dbError.None? ==> resp == Ok(rows)
  {
    if !hasUser then Failure(Error(UNAUTHORIZED), fallback)
    else if dbError.Some? then Failure(Error(dbError.value), fallback)
    else Ok(rows)
  }
}
