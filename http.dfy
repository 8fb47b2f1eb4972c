/**
  The authenticated client layer as the endpoints see it. Token acquisition,
  URL parsing and the network round trip happen behind `send`, a parameter of
  every endpoint; what is modelled is the request handed to it and the outcome
  it returns.
 */
module Http {
  import opened Wrappers

  /** The single OAuth scope every discovery-engine call asks for. */
  const BaseScope := "https://www.googleapis.com/auth/cloud-platform"

  datatype Method = Post | Get | Delete

  /** The body type of calls that send none. */
  datatype NoBody = NoBody

  /**
    A request as handed to the client: the HTTP method, the scopes, the URL before
    its query string, the query pairs in order (before percent-encoding) and the
    JSON body, if any.
   */
  datatype ApiCall<B> = ApiCall(verb: Method, scopes: seq<string>, url: string,
                                query: seq<(string, string)>, body: Option<B>)

  /**
    The failures the client layer reports, each with its message: the token
    provider's, the send's (the layer's own `ClientError` variant), and URL
    parsing's.
   */
  datatype ClientError =
    | ProviderError(reason: string)
    | Transport(reason: string)
    | UrlParseError(reason: string)

  datatype Response = Response(status: nat, body: string)

  /** What one call comes back with: a client-layer failure or an HTTP response. */
  datatype Exchange = Failed(error: ClientError) | Received(response: Response)

  /** Statuses that reqwest's `error_for_status` turns into an error: 4xx and 5xx. */
  predicate IsErrorStatus(status: nat) {
    400 <= status <= 599
  }
}
