/** The outcome of one awaited axios call, as the client code sees it: either
    the response, or the error axios throws. The network itself is not
    modelled; each call's outcome is given to the model as a value. */
module Transport {
  import opened Js

  /** The parts of `error.response` the client code reads: the `error` field
      of the decoded response body and the HTTP status text. */
  datatype ErrorResponse = ErrorResponse(dataError: Option<string>, statusText: Option<string>)

  /** A thrown axios error: `error.response` is absent when no response
      arrived (timeout, connection refused); `error.message` may be empty. */
  datatype RequestError = RequestError(response: Option<ErrorResponse>, message: Option<string>)

  /** The `error` field of the response body, if a response arrived. */
  function ResponseDataError(e: RequestError): (r: Option<string>)
    ensures e.response.Some? ==> r == e.response.value.dataError
    ensures e.response.None? ==> r == None
  {
    if e.response.Some? then e.response.value.dataError else None
  }

  /** The status text of the response, if one arrived. */
  function ResponseStatusText(e: RequestError): (r: Option<string>)
    ensures e.response.Some? ==> r == e.response.value.statusText
    ensures e.response.None? ==> r == None
  {
    if e.response.Some? then e.response.value.statusText else None
  }

  /** What an awaited call produced: `response.data`, or the thrown error. */
  datatype Outcome<+T> = Responded(data: T) | Threw(error: RequestError)
}
