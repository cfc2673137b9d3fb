/** The HTTP exchange, reduced to the values the upload code reads and writes. The network call
    itself is a function value supplied by the caller. */
module Http {
  import opened Wrappers
  import opened PyJson

  /** An already-resolved authentication credential, attached to every request as is. */
  datatype Credential = Anonymous | Basic(username: string, password: string) | Bearer(token: string)

  type Headers = map<string, string>

  /** A POST request: target URL, headers, credential and the JSON document sent as the body. */
  datatype Request = Request(url: string, headers: Headers, auth: Credential, payload: Json)

  /** A server response: status code, headers, and the body, which is `None` when it is not JSON. */
  datatype Response = Response(status: int, headers: Headers, body: Option<Json>)

  /** A server, as the function from the request sent to the response received. */
  type Poster = Request -> Response

  /** requests' `raise_for_status`: raises for 4xx client errors and 5xx server errors only. */
  predicate RaisesForStatus(status: int)
  {
    400 <= status < 600
  }

  /** `r.raise_for_status()` followed by `r.json()`: the status is checked before the body is
      parsed, and an accepted response yields its parsed body unchanged. */
  function CheckedBody(response: Response): (r: Result<Json>)
    ensures RaisesForStatus(response.status) ==> r == Err(HttpError(response.status))
    ensures r.Ok? <==> !RaisesForStatus(response.status) && response.body.Some?
    ensures r.Ok? ==> r.value == response.body.value
    ensures !RaisesForStatus(response.status) && response.body.None? ==> r == Err(JsonDecodeError)
  {
    if RaisesForStatus(response.status) then Err(HttpError(response.status))
    else if response.body.None? then Err(JsonDecodeError)
    else Ok(response.body.value)
  }

  /** Every 2xx status, in particular 201 Created, passes the status check. */
  lemma SuccessPassesCheck(response: Response)
    requires 200 <= response.status < 300 && response.body.Some?
    ensures CheckedBody(response) == Ok(response.body.value)
  {
  }
}
