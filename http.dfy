/**
 * The outcome of a request handler: a value, or one of the error responses the
 * handlers send. Every handler answers either with its success body or with
 * one of these, never both.
 */
module Http {

  datatype Error =
    | BadRequest(message: string)
    | Forbidden
    | NotFound(message: string)
      /** "Insufficient credits": what the operation needs and what the user has, in cents. */
    | InsufficientCredits(required: int, available: int)
      /** The message script contains blocked words; the words found are returned. */
    | BlockedWords(words: seq<string>)
    | ServerError(message: string)

  /** The HTTP status code each error is sent with. */
  function StatusCode(e: Error): (code: int)
    ensures 400 <= code < 600
    ensures code == 404 <==> e.NotFound?
    ensures code == 403 <==> e.Forbidden?
    ensures code == 500 <==> e.ServerError?
  {
    match e
    case BadRequest(_) => 400
    case Forbidden => 403
    case NotFound(_) => 404
    case InsufficientCredits(_, _) => 400
    case BlockedWords(_) => 400
    case ServerError(_) => 500
  }

  datatype Result<T> = Ok(value: T) | Err(error: Error)
  {
    predicate IsFailure() { Err? }
    function PropagateFailure<U>(): Result<U>
      requires Err?
    {
      Err(error)
    }
    function Extract(): T
      requires Ok?
    {
      value
    }
  }
}
