/** Small value types shared by every module of the model. */
module Common {

  /** A value that may be absent: a nullable column, an optional request parameter, a missing JSON key. */
  datatype Option<T> = None | Some(value: T) {
    function GetOr(default: T): T {
      match this
      case Some(v) => v
      case None => default
    }
  }

  /** The result of a step that can raise; `Failure` carries the text of the exception. */
  datatype Result<T> = Success(value: T) | Failure(error: string)

  /** The outcome of one call to a remote marketplace endpoint, decided by the environment:
      the decoded JSON payload, or the text of the exception the HTTP layer raised. */
  datatype Remote<T> = Ok(payload: T) | Err(message: string)

  /** Python truthiness of a nullable text column: neither None nor the empty string. */
  predicate Truthy(s: Option<string>) {
    s.Some? && |s.value| > 0
  }

  /** The text of the `KeyError` raised by `data[key]` on a JSON object lacking `key`. */
  function KeyErrorMessage(key: string): string {
    "'" + key + "'"
  }

  /** How an f-string renders an optional text value: `None` prints as "None". */
  function OptText(v: Option<string>): string {
    if v.Some? then v.value else "None"
  }
}
