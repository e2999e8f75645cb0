/** The JSON responses the route handlers return, and what a handler does to
    the database besides answering. A handler answers with an HTTP status and
    either a payload or an error message: the package routes wrap them as
    `{ message: 'success', … }` and `{ message: 'error', error }`, the
    dashboard routes send the payload object or `{ error }` alone. */
module Http {
  import opened Schema

  datatype Response<+T> =
    | Ok(status: nat, payload: T)
    | Err(status: nat, error: string)

  /** A handler's response with the rows it appends to the error log and the
      mail it hands to an SMTP transport. */
  datatype Effect<+T> = Effect(response: Response<T>, logs: seq<ErrorLog>, mails: seq<Mail>)
}
