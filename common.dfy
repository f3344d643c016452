/** Values shared by every layer of the client: optional values, the
    failures the client can raise, and a result type carrying either. */
module Common {

  datatype Option<+T> = None | Some(value: T)

  /** The exceptions the client lets escape, by the Python class that
      raises them. */
  datatype Error =
    | HttpError(status: int)   // `raise_for_status` on a 4xx or 5xx status
    | Interrupted              // `ChunkedEncodingError`: the body was cut off
    | NoReply                  // the server gave no answer at all
    | KeyError(key: string)    // `d[key]` on a dict without that key
    | TypeError                // a value of the wrong shape was indexed, iterated or unpacked
    | AttributeError           // `.get` or an attribute looked up on a value that lacks it
    | ValueError               // `int(...)` of a malformed `Retry-After` value

  /** A `datetime`, known only by the ISO text it was parsed from or is
      formatted as: `fromisoformat` and `isoformat` are not modelled. */
  datatype DateTime = DateTime(iso: string)

  datatype Result<+T> = Ok(value: T) | Err(error: Error) {
    predicate IsFailure() { Err? }

    function PropagateFailure<U>(): Result<U>
      requires Err?
    {
      Err(error)
    }

    function Extract(): T
      requires Ok?
    {
      value
    }
  }
}
