/**
 * The network, as the core sees it: one GET of a locator either fails at
 * some stage or delivers a status code and a body.  Which stage fails, and
 * what the body is, are decided outside the model, so callers receive the
 * outcome as a function of the locator.
 */
module Http {
  import opened Common

  /** The result of `http.NewRequest`, `client.Do` and `io.ReadAll` for one locator. */
  datatype Outcome =
    | RequestRejected                         // http.NewRequest returned an error
    | TransportFailed                         // client.Do returned an error
    | ReadFailed(status: nat)                 // a response arrived, reading its body failed
    | Delivered(status: nat, data: Bytes)     // a response arrived and its whole body was read

  /** What a caller is told when a retrieval does not produce a value. */
  datatype Error =
    | RequestError
    | TransportError
    | ReadError
    | DecodeError

  /** The error a failed network outcome is reported as. */
  function FailureOf(o: Outcome): (e: Error)
    requires !o.Delivered?
    ensures e != DecodeError
    ensures o.RequestRejected? ==> e == RequestError
    ensures o.TransportFailed? ==> e == TransportError
    ensures o.ReadFailed? ==> e == ReadError
  {
    match o
    case RequestRejected => RequestError
    case TransportFailed => TransportError
    case ReadFailed(_) => ReadError
  }
}
