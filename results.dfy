/** Go's two ways of reporting an outcome: a possibly-nil value, and a
    `(value, error)` pair returned by a collaborator. */
module Results {

  /** A Go variable that may be nil (an unset interface, a nil pointer). */
  datatype Option<+T> = None | Some(value: T)

  /** What a Go call `v, err := f(...)` hands back: a value when `err == nil`,
      otherwise the error, of which only its `Error()` text is observable. */
  datatype Outcome<+T> = Ok(value: T) | Err(message: string)
}
