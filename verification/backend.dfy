/**
 * What the handlers see of their backends (the data store, the CUI
 * integration REST service and the account-management RPC service): the
 * outcome of one call, either its value or the message of the exception it
 * threw. The calls themselves are parameters of the handlers.
 */
module Backend {
  import opened Wrappers
  import opened JavaLang

  /** The outcome of one backend call; the error is the exception's message. */
  type Reply<T> = Result<T, string>

  /** A JSON body the REST service returned, kept as its serialized text. */
  datatype Body = Body(json: string)

  /** A backend call made without a surrounding catch: its exception propagates unchanged. */
  function Raised<T>(reply: Reply<T>): (r: Result<T, Failure>)
    ensures reply.Ok? <==> r.Ok?
    ensures reply.Ok? ==> r.value == reply.value
    ensures reply.Err? ==> r.error == Failure.Backend(reply.error) && r.error.Text() == reply.error
  {
    match reply
    case Ok(v) => Ok(v)
    case Err(m) => Err(Failure.Backend(m))
  }
}
