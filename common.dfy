/** Values shared by every module of the model: optional values, results,
    and the value a JavaScript `catch` clause receives. */
module Common {

  datatype Option<+T> = None | Some(value: T) {
    /** `x ?? d` */
    function GetOr(default: T): T {
      match this
      case Some(v) => v
      case None => default
    }
  }

  datatype Result<+T, +E> = Ok(value: T) | Err(error: E)

  /** What a `catch (err)` clause receives: an `Error` instance carrying a
      message, or some other thrown value. */
  datatype Failure = Thrown(message: string) | NonError

  /** `err instanceof Error ? err.message : fallback` */
  function MessageOr(f: Failure, fallback: string): (m: string)
    ensures f.Thrown? ==> m == f.message
    ensures f.NonError? ==> m == fallback
  {
    match f
    case Thrown(msg) => msg
    case NonError => fallback
  }

  /** JavaScript truthiness of a possibly-null string: non-null and non-empty. */
  predicate Truthy(s: Option<string>) {
    s.Some? && s.value != ""
  }

  /** `s || fallback` for a possibly-null string. */
  function OrDefault(s: Option<string>, fallback: string): (r: string)
    ensures Truthy(s) ==> r == s.value
    ensures !Truthy(s) ==> r == fallback
  {
    if Truthy(s) then s.value else fallback
  }
}
