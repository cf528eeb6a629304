/**
 * The server-side API client: the base URL with one trailing slash
 * dropped, endpoint joining, the bearer and content-type headers, and the
 * request procedure that turns a non-ok response into an error. The session
 * lookup and the network are parameters: each request takes the session's
 * access token and the response the server gave.
 */
module ApiService {
  import opened Wrappers
  import opened JsText
  import opened Json

  type Headers = map<string, string>

  datatype HttpMethod = GET | POST | PUT | DELETE

  /** The request `fetch` is given. */
  datatype Request = Request(verb: HttpMethod, url: string, headers: Headers, body: Option<string>)

  /** What the server answered: a status, the body text, and the body parsed as JSON when it parses. */
  datatype Response = Response(ok: bool, status: int, text: string, json: Option<Json>)

  /** The caller's `options`: its own headers, if any (the other request settings are not modelled). */
  datatype FetchOptions = FetchOptions(headers: Option<Headers>)

  const NoOptions := FetchOptions(None)

  /** `CONFIG.API_BASE_URL` with one trailing '/' dropped. */
  function BaseUrl(configured: string): (url: string)
    ensures |configured| > 0 && configured[|configured| - 1] == '/' ==> url + "/" == configured
    ensures !(|configured| > 0 && configured[|configured| - 1] == '/') ==> url == configured
  {
    if |configured| > 0 && configured[|configured| - 1] == '/' then configured[..|configured| - 1] else configured
  }

  /** Only one slash is dropped: a URL ending in "//" keeps one. */
  lemma BaseUrlDropsOne(prefix: string)
    ensures BaseUrl(prefix + "//") == prefix + "/"
  {
    assert (prefix + "//")[..|prefix| + 1] == prefix + "/";
  }

  /** The endpoint with a leading '/' added when it lacks one. */
  function CleanEndpoint(endpoint: string): (e: string)
    ensures StartsWith(e, "/")
    ensures StartsWith(endpoint, "/") ==> e == endpoint
    ensures !StartsWith(endpoint, "/") ==> e == "/" + endpoint
  {
    if StartsWith(endpoint, "/") then endpoint else "/" + endpoint
  }

  /** Cleaning is idempotent, and a clean endpoint and its bare form lead to the same place. */
  lemma CleanEndpointStable(endpoint: string)
    ensures CleanEndpoint(CleanEndpoint(endpoint)) == CleanEndpoint(endpoint)
    ensures !StartsWith(endpoint, "/") ==> CleanEndpoint("/" + endpoint) == CleanEndpoint(endpoint)
  {
    if !StartsWith(endpoint, "/") {
      assert StartsWith("/" + endpoint, "/");
    }
  }

  /** The request URL: the base URL followed by the cleaned endpoint. */
  function RequestUrl(configured: string, endpoint: string): (url: string)
    ensures url == BaseUrl(configured) + CleanEndpoint(endpoint)
    ensures url[|BaseUrl(configured)|] == '/'
  {
    BaseUrl(configured) + CleanEndpoint(endpoint)
  }

  /** `Bearer ${session?.accessToken || ''}`. */
  function Authorization(accessToken: Option<string>): (h: string)
    ensures accessToken.Some? && accessToken.value != "" ==> h == "Bearer " + accessToken.value
    ensures !(accessToken.Some? && accessToken.value != "") ==> h == "Bearer "
  {
    "Bearer " + (if accessToken.Some? && accessToken.value != "" then accessToken.value else "")
  }

  /** The default headers overlaid with the caller's, key by key. */
  function MergedHeaders(accessToken: Option<string>, own: Option<Headers>): (h: Headers)
    ensures "Authorization" in h && "Content-Type" in h
    ensures forall k :: own.Some? && k in own.value ==> k in h && h[k] == own.value[k]
    ensures own.None? || "Authorization" !in own.value ==> h["Authorization"] == Authorization(accessToken)
    ensures own.None? || "Content-Type" !in own.value ==> h["Content-Type"] == "application/json"
  {
    var defaults := map["Authorization" := Authorization(accessToken), "Content-Type" := "application/json"];
    if own.Some? then defaults + own.value else defaults
  }

  /**
   * The headers `fetch` receives. The options are spread after the merged
   * headers, so a caller's `headers` replace them wholesale.
   */
  function SentHeaders(accessToken: Option<string>, options: FetchOptions): (h: Headers)
    ensures options.headers.Some? ==> h == options.headers.value
    ensures options.headers.None? ==> h == MergedHeaders(accessToken, None)
  {
    if options.headers.Some? then options.headers.value else MergedHeaders(accessToken, options.headers)
  }

  /** A caller's headers without an Authorization entry send the request without one. */
  lemma OwnHeadersDropAuthorization(accessToken: Option<string>, own: Headers)
    requires "Authorization" !in own
    ensures "Authorization" !in SentHeaders(accessToken, FetchOptions(Some(own)))
    ensures "Authorization" in MergedHeaders(accessToken, Some(own))
  {
  }

  /** The error a non-ok response raises. */
  function ApiError(status: int, text: string): string {
    "API Error " + IntToString(status) + ": " + text
  }

  /**
   * `fetchAPI(endpoint, method, body, options)`: the request it sends and
   * what the call settles to. A non-ok response rejects with its status and
   * body text; an ok response with a body that does not parse rejects too.
   */
  function FetchApi(configured: string, accessToken: Option<string>, endpoint: string, verb: HttpMethod,
                    body: Option<string>, options: FetchOptions, response: Response): (r: (Request, Result<Json>))
    ensures r.0 == Request(verb, RequestUrl(configured, endpoint), SentHeaders(accessToken, options), body)
    ensures !response.ok ==> r.1 == Err(ApiError(response.status, response.text))
    ensures response.ok && response.json.Some? ==> r.1 == Ok(response.json.value)
    ensures response.ok && response.json.None? ==> r.1.Err?
  {
    var request := Request(verb, RequestUrl(configured, endpoint), SentHeaders(accessToken, options), body);
    if !response.ok then (request, Err(ApiError(response.status, response.text)))
    else if response.json.None? then (request, Err("SyntaxError: Unexpected token in JSON"))
    else (request, Ok(response.json.value))
  }

  /** The error names the status: the text after "API Error " is the status in decimal. */
  lemma ApiErrorNamesStatus(status: int, text: string)
    ensures var e := ApiError(status, text);
      StartsWith(e, "API Error ") && e[10..10 + |IntToString(status)|] == IntToString(status)
  {
    var e := ApiError(status, text);
    assert e == "API Error " + (IntToString(status) + ": " + text);
  }

  /** `get`, `post`, `put` and `delete`: `fetchAPI` with their method; only `post` and `put` carry a body. */
  function HttpGet(configured: string, accessToken: Option<string>, endpoint: string, options: Option<FetchOptions>,
                   response: Response): (r: (Request, Result<Json>))
    ensures r.0.verb == GET && r.0.body.None?
  {
    FetchApi(configured, accessToken, endpoint, GET, None, options.GetOr(NoOptions), response)
  }

  function HttpPost(configured: string, accessToken: Option<string>, endpoint: string, body: string,
                    options: Option<FetchOptions>, response: Response): (r: (Request, Result<Json>))
    ensures r.0.verb == POST && r.0.body == Some(body)
  {
    FetchApi(configured, accessToken, endpoint, POST, Some(body), options.GetOr(NoOptions), response)
  }

  function HttpPut(configured: string, accessToken: Option<string>, endpoint: string, body: string,
                   options: Option<FetchOptions>, response: Response): (r: (Request, Result<Json>))
    ensures r.0.verb == PUT && r.0.body == Some(body)
  {
    FetchApi(configured, accessToken, endpoint, PUT, Some(body), options.GetOr(NoOptions), response)
  }

  function HttpDelete(configured: string, accessToken: Option<string>, endpoint: string, options: Option<FetchOptions>,
                      response: Response): (r: (Request, Result<Json>))
    ensures r.0.verb == DELETE && r.0.body.None?
  {
    FetchApi(configured, accessToken, endpoint, DELETE, None, options.GetOr(NoOptions), response)
  }

  /** Without caller headers, every request carries the bearer header and JSON content type. */
  lemma DefaultRequestHeaders(configured: string, accessToken: Option<string>, endpoint: string, response: Response)
    ensures var h := HttpGet(configured, accessToken, endpoint, None, response).0.headers;
      h == map["Authorization" := Authorization(accessToken), "Content-Type" := "application/json"]
  {
  }
}
