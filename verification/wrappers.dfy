/** Option and Result wrappers shared by the whole model.
    A backend call that the client awaits is modelled as one atomic step whose outcome is
    a `Result`: `Ok(value)` when the promise resolves, `Err(failure)` when it rejects. */
module Wrappers {

  datatype Option<+T> = None | Some(value: T) {
    function GetOr(default: T): T {
      match this
      case Some(v) => v
      case None => default
    }
  }

  /** What a rejected promise carries: an `Error` instance with its message, or some
      other thrown value (the `error instanceof Error` test in the session store). */
  datatype Failure = Error(message: string) | NonError

  datatype Result<+T> = Ok(value: T) | Err(failure: Failure) {
    /** The state a cache keeps: the new value on success, the previous one on failure. */
    function ValueOr(previous: T): T {
      match this
      case Ok(v) => v
      case Err(_) => previous
    }
  }

  /** How an awaited handler ends: normally, or by re-throwing the failure. */
  datatype Outcome = Completed | Raised(failure: Failure)

  /** The outcome of a handler that re-raises whatever its backend call raised. */
  function Reraise<T>(r: Result<T>): (o: Outcome)
    ensures o.Completed? <==> r.Ok?
    ensures r.Err? ==> o == Raised(r.failure)
  {
    match r
    case Ok(_) => Completed
    case Err(f) => Raised(f)
  }
}
