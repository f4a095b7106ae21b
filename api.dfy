/** The HTTP layer (src/services/api.js): the SWR `fetcher`, the two axios
    clients and the request interceptor of the authenticated one. The network
    itself is an input function from a request to a response or an error. */
module Api {
  import opened Wrappers
  import opened Common
  import opened AuthStorage

  const ApiUrl := "https://api.apiyonetim.gen.tr/api"
  const AuthorizationHeader := "Authorization"
  const BearerPrefix := "Bearer "

  datatype Verb = Get | Post | Put

  /** A request relative to `ApiUrl`: `params` is axios's query-parameter object. */
  datatype Request = Request(verb: Verb, url: string, params: Option<map<string, string>>, body: Option<Json>)

  /** An axios error: `error.response?.data`, None when no response arrived. */
  datatype AxiosError = AxiosError(responseData: Option<Json>)

  /** `error.response?.data || { message: fallback }`: what every service
      rethrows. It is always truthy, so a caller's `error.message` never reads
      a property of null. */
  function ThrownBody(e: AxiosError, fallback: string): (j: Json)
    ensures Truthy(j)
    ensures e.responseData.Some? && Truthy(e.responseData.value) ==> j == e.responseData.value
    ensures !(e.responseData.Some? && Truthy(e.responseData.value)) ==> j == MessageObject(fallback)
  {
    if e.responseData.Some? && Truthy(e.responseData.value) then e.responseData.value
    else MessageObject(fallback)
  }

  /** A service call: resolve to the response body, or throw `ThrownBody`. */
  function Settle(answer: Result<Response, AxiosError>, fallback: string): (r: Result<Json, Json>)
    ensures r.Ok? <==> answer.Ok?
    ensures r.Ok? ==> r.value == answer.value.data
    ensures r.Err? ==> Truthy(r.error) && r.error == ThrownBody(answer.error, fallback)
  {
    match answer
    case Ok(response) => Ok(response.data)
    case Err(e) => Err(ThrownBody(e, fallback))
  }

  /** An axios response; only its body `data` is read. */
  datatype Response = Response(status: int, data: Json)

  /** What the network answers: a response, or the error axios rejects with. */
  type Network = Request -> Result<Response, AxiosError>

  /** An SWR key: a plain path, or the array `[url, startDate, endDate]`. */
  datatype SwrKey = PathKey(path: string) | RangeKey(url: string, startDate: string, endDate: string)

  /** The request `fetcher(key)` issues. */
  function FetcherRequest(key: SwrKey): (r: Request)
    ensures r.verb == Get && r.body == None
    ensures key.PathKey? ==> r.url == key.path && r.params == None
    ensures key.RangeKey? ==>
      (r.url == key.url && r.params == Some(map["startDate" := key.startDate, "endDate" := key.endDate]))
  {
    match key
    case PathKey(path) => Request(Get, path, None, None)
    case RangeKey(url, startDate, endDate) =>
      Request(Get, url, Some(map["startDate" := startDate, "endDate" := endDate]), None)
  }

  /** A range key's dates are the request's `startDate` and `endDate` parameters. */
  lemma RangeRequestParams(key: SwrKey)
    requires key.RangeKey?
    ensures var p := FetcherRequest(key).params;
      && p.Some? && "startDate" in p.value && "endDate" in p.value
      && p.value["startDate"] == key.startDate && p.value["endDate"] == key.endDate
  {
  }

  /** `fetcher(key)`: resolves to the response body `res.data`; a failure is passed on as it is. */
  function Fetcher(key: SwrKey, send: Network): (r: Result<Json, AxiosError>)
    ensures var answer := send(FetcherRequest(key));
      && (answer.Ok? <==> r.Ok?)
      && (r.Ok? ==> r.value == answer.value.data)
      && (r.Err? ==> r.error == answer.error)
  {
    match send(FetcherRequest(key))
    case Ok(response) => Ok(response.data)
    case Err(e) => Err(e)
  }

  /** `Bearer ${token}` */
  function BearerValue(token: string): (v: string)
    ensures |v| == |BearerPrefix| + |token|
    ensures v[..|BearerPrefix|] == BearerPrefix && v[|BearerPrefix|..] == token
  {
    BearerPrefix + token
  }

  /** Recovers the token from an Authorization value; None when it is not a bearer value. */
  function BearerToken(v: string): (t: Option<string>)
    ensures t.Some? <==> |v| >= |BearerPrefix| && v[..|BearerPrefix|] == BearerPrefix
  {
    if |v| >= |BearerPrefix| && v[..|BearerPrefix|] == BearerPrefix then Some(v[|BearerPrefix|..]) else None
  }

  lemma BearerRoundTrip(token: string)
    ensures BearerToken(BearerValue(token)) == Some(token)
  {
  }

  /** The two axios instances: `api` runs the interceptor, `apiPublic` has none. */
  datatype Client = Authenticated | Public

  /** `{ 'Content-Type': 'application/json' }`, the headers both instances start from. */
  function DefaultHeaders(): (h: map<string, string>)
    ensures h.Keys == {"Content-Type"} && h["Content-Type"] == "application/json"
  {
    map["Content-Type" := "application/json"]
  }

  /** The headers a request leaves with, given what `getToken()` answered. */
  function OutgoingHeaders(client: Client, headers: map<string, string>, stored: Option<string>): (h: map<string, string>)
    ensures h - {AuthorizationHeader} == headers - {AuthorizationHeader}
    ensures (client == Authenticated && stored.Some? && stored.value != "") ==>
      AuthorizationHeader in h && BearerToken(h[AuthorizationHeader]) == stored
    ensures !(client == Authenticated && stored.Some? && stored.value != "") ==> h == headers
  {
    if client == Authenticated && stored.Some? && stored.value != ""
    then headers[AuthorizationHeader := BearerValue(stored.value)]
    else headers
  }

  /** `apiPublic` never carries a token, whatever is stored. */
  lemma PublicClientSendsNoToken(stored: Option<string>)
    ensures AuthorizationHeader !in OutgoingHeaders(Public, DefaultHeaders(), stored)
  {
  }

  /** A request's mutable axios config, as the interceptor sees it. */
  class RequestConfig {
    var headers: map<string, string>

    constructor (headers: map<string, string>)
      ensures this.headers == headers
    {
      this.headers := headers;
    }
  }

  /** The request interceptor of `api`: sets `config.headers.Authorization`
      in place when a token is stored and leaves the config alone otherwise. */
  method InterceptRequest(config: RequestConfig, storage: Storage, readFails: bool) returns (same: RequestConfig)
    modifies config
    ensures same == config
    ensures config.headers == OutgoingHeaders(Authenticated, old(config.headers), Read(storage.entries, readFails))
  {
    var token := storage.GetToken(readFails);
    if token.Some? && token.value != "" {
      config.headers := config.headers[AuthorizationHeader := BearerValue(token.value)];
    }
    same := config;
  }
}
