/** What a wire handler receives and what it does with it.

    Every component of the model is fed by a wire adapter that calls its
    handler with an object `{ error, data }`.  In JavaScript an array or an
    object is truthy even when it is empty, so "`if (data)`" distinguishes only
    a delivered value from a missing one (`undefined`/`null`).  That is
    exactly `Option`. */
module Wire {

  datatype Option<+T> = None | Some(value: T)

  /** The three ways a handler can react: it assigns its tracked field, it
      writes one error line to the console (and changes nothing), or it does
      nothing at all (the adapter's first call, with neither field set). */
  datatype HandlerOutcome = Assigned | ErrorLogged | Ignored

  /** The `if (data) … else if (error) …` cascade shared by every handler:
      data wins over an error delivered with it. */
  function Dispatch(hasData: bool, hasError: bool): (outcome: HandlerOutcome)
    ensures outcome == Assigned <==> hasData
    ensures outcome == ErrorLogged <==> !hasData && hasError
    ensures outcome == Ignored <==> !hasData && !hasError
  {
    if hasData then Assigned
    else if hasError then ErrorLogged
    else Ignored
  }
}
