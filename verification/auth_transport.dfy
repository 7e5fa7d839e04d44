/** The authenticating round tripper: it asks the manager for tokens before
    every request and either forwards the request with an `Authorization`
    header or fails without calling the wrapped transport. */
module AuthTransport {
  import opened Results
  import opened Endpoint
  import opened Lifecycle

  /** The request handed to the wrapped transport; only its headers matter. */
  datatype Request = Request(headers: map<string, string>)

  /** What `RoundTrip` does before delegating: `Forward(r)` means the wrapped
      transport is called with `r`; a failure means it is not called. */
  function Authorize(tokens: Outcome, request: Request): (r: Result<Request, Failure>)
    ensures r.Failure? <==> tokens.error.Some?
    ensures r.Failure? ==> r.error == tokens.error.value
    ensures r.Success? && tokens.access != "" ==>
              "Authorization" in r.value.headers && r.value.headers["Authorization"] == "Bearer " + tokens.access
    ensures r.Success? && tokens.access == "" ==> r.value == request
    // No header other than `Authorization` is touched.
    ensures r.Success? ==> forall h :: h != "Authorization" ==>
              (h in r.value.headers <==> h in request.headers) &&
              (h in request.headers ==> r.value.headers[h] == request.headers[h])
  {
    if tokens.error.Some? then Failure(tokens.error.value)
    else if tokens.access != "" then
      Success(Request(request.headers["Authorization" := "Bearer " + tokens.access]))
    else Success(request)
  }
}
