/** Optional values and the uniform result envelope of the container control facade. */
module Envelopes {

  // A JSON field that may be absent. For fields the server reads as
  // `x || fallback`, `None` also covers the falsy values that read as absent.
  datatype Option<+T> = None | Some(value: T) {

    // `this || fallback`: the field when present, `fallback` otherwise.
    function Or(fallback: T): (r: T)
      ensures Some? ==> r == value
      ensures None? ==> r == fallback
    {
      if Some? then value else fallback
    }
  }

  /** `{success: true, <payload>}` or `{success: false, error: message}`. */
  datatype Envelope<+T> = Success(payload: T) | Failure(message: string) {

    /** Re-labels the payload, keeping a failure's message. */
    function Map<U>(f: T -> U): (r: Envelope<U>)
      ensures r.Success? <==> Success?
      ensures Success? ==> r.payload == f(payload)
      ensures Failure? ==> r.message == message
    {
      match this
      case Success(p) => Success(f(p))
      case Failure(m) => Failure(m)
    }
  }
}
