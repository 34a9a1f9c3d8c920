/**
  * The HTTP values the client exchanges with its transport: the request it
  * hands over (method, endpoint, options) and the response it gets back
  * (status, reason phrase, body). The transport itself is a function
  * parameter: given an outgoing request it either answers with a response or
  * fails with a message (a Guzzle exception).
  */
module Http {
  import opened Wrappers
  import opened JsonValues

  /** A response body: its raw text and what `json_decode` makes of it (`None`: not valid JSON). */
  datatype Body = Body(text: string, json: Option<Json>)

  datatype Response = Response(status: int, reason: string, body: Body)

  /**
    * The request options the client uses: headers (`None` when the caller
    * passed none; a header value is `None` when it is PHP `null`), the query
    * map (a `null` query value is kept as `None`), a raw string body and a
    * JSON payload.
    */
  datatype Options = Options(
    headers: Option<map<string, Option<string>>>,
    query: Option<map<string, Option<string>>>,
    body: Option<string>,
    json: Option<map<string, Json>>)

  const NoOptions := Options(None, None, None, None)

  datatype Outgoing = Outgoing(verb: string, endpoint: string, options: Options)

  /** Sends one request: a response, or the message of the transport exception. */
  type Transport = Outgoing -> Result<Response, string>

  const TOKEN_HEADER := "ens-auth-token"

  /**
    * `['ens-auth-token' => $token] + ($options['headers'] ?? [])`: PHP's array
    * union keeps the left operand's entry, so the token replaces a caller
    * header of the same name and every other caller header is kept.
    */
  function WithToken(headers: Option<map<string, Option<string>>>, token: Option<string>): (r: map<string, Option<string>>)
    ensures TOKEN_HEADER in r && r[TOKEN_HEADER] == token
    ensures headers.None? ==> r.Keys == {TOKEN_HEADER}
    ensures headers.Some? ==> r.Keys == headers.value.Keys + {TOKEN_HEADER}
    ensures headers.Some? ==> forall h :: h in headers.value && h != TOKEN_HEADER ==> r[h] == headers.value[h]
  {
    var caller := if headers.Some? then headers.value else map[];
    caller[TOKEN_HEADER := token]
  }
}
