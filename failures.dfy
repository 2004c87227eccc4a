/**
 * The values a request handler may panic with. The Go responder receives such a value as `any`
 * and tells exactly one shape apart from everything else; the model closes `any` into that shape
 * and a catch-all.
 */
module Failures {
  import opened Wrappers

  datatype Failure =
    | NotFound(error: string)   // an exception.NotFoundError, whose only field is Error
    | Other(detail: string)     // any other panic value: validation, SQL, nil dereference, ...

  /** The comma-ok type assertion `err.(NotFoundError)`: the message when the value is a NotFoundError. */
  function AsNotFound(err: Failure): (r: Option<string>)
    ensures r.Some? <==> err.NotFound?
    ensures r.Some? ==> err == NotFound(r.value)
  {
    match err
    case NotFound(message) => Some(message)
    case Other(_) => None
  }
}
