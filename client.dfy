/**
 * The API client: a base URL and an API key, and one request rule shared by
 * every operation. The HTTP exchange itself is a parameter, a function from
 * the request the client builds to what came back.
 */
module Client {
  import opened Wrappers
  import opened Text
  import opened Json
  import opened Errors
  import Config

  datatype Method = GET | POST

  /** An outgoing request; header names are held in Go's canonical form. */
  datatype Request = Request(verb: Method, url: string, headers: map<string, string>, body: Option<Json>)

  /** What one round trip produced. */
  datatype Exchange =
    | Unbuildable(cause: string)      // `http.NewRequest` refused the method or URL
    | SendFailed(cause: string)       // `http.Client.Do` failed
    | BodyUnreadable(cause: string)   // reading the response body failed
    | Received(status: int, body: Bytes)

  type Transport = Request -> Exchange

  datatype Client = Client(baseURL: string, apiKey: string)

  /** `api.NewClient`: fails exactly when no API key can be resolved. */
  function NewClient(env: Config.Env, fs: Config.FileSystem, s: Config.Settings): (r: Result<Client, Error>)
    ensures r.Failure? <==> Config.GetAPIKey(env, fs, s).Failure?
    ensures r.Failure? ==> r.error == Config.GetAPIKey(env, fs, s).error
    ensures r.Success? ==> r.value.apiKey == Config.GetAPIKey(env, fs, s).value
    ensures r.Success? ==> r.value.baseURL == Config.GetBaseURL(env, s)
  {
    match Config.GetAPIKey(env, fs, s)
    case Failure(e) => Failure(e)
    case Success(key) => Success(Client(Config.GetBaseURL(env, s), key))
  }

  /** The base URL plays no part in whether a client can be built. */
  lemma BaseURLNeverFails(env: Config.Env, fs: Config.FileSystem, s: Config.Settings, url: string)
    ensures NewClient(env, fs, s).Success? == NewClient(env.(baseURL := url), fs, s).Success?
  {
  }

  const JsonMediaType := "application/json"

  /** The three headers every request carries. */
  function Headers(apiKey: string): (h: map<string, string>)
    ensures h.Keys == {"X-Api-Key", "Content-Type", "Accept"}
    ensures h["X-Api-Key"] == apiKey
    ensures h["Content-Type"] == JsonMediaType && h["Accept"] == JsonMediaType
  {
    map["X-Api-Key" := apiKey, "Content-Type" := JsonMediaType, "Accept" := JsonMediaType]
  }

  /** The request `doRequest` hands to the HTTP client. */
  function Outgoing(c: Client, m: Method, path: string, body: Option<Json>): Request {
    Request(m, c.baseURL + path, Headers(c.apiKey), body)
  }

  /** The URL is the base URL followed directly by the path, with nothing between them. */
  lemma UrlJoinsDirectly(c: Client, m: Method, path: string, body: Option<Json>)
    ensures HasPrefix(Outgoing(c, m, path, body).url, c.baseURL)
    ensures Outgoing(c, m, path, body).url[|c.baseURL|..] == path
  {
  }

  /** The key header of every request is the key the client was built with, byte for byte. */
  lemma KeyHeaderIsResolvedKey(env: Config.Env, fs: Config.FileSystem, s: Config.Settings,
                               m: Method, path: string, body: Option<Json>)
    requires NewClient(env, fs, s).Success?
    ensures var h := Outgoing(NewClient(env, fs, s).value, m, path, body).headers;
      "X-Api-Key" in h && Utf8(h["X-Api-Key"]) == Utf8(Config.GetAPIKey(env, fs, s).value)
  {
  }

  /**
   * The rule `doRequest` applies to what came back: the body of a 2xx reply
   * unchanged, every other status as an error carrying it and the body, and
   * each failure along the way as its own error.
   */
  predicate Reports(r: Result<Bytes, Error>, x: Exchange) {
    (r.Success? <==> x.Received? && 200 <= x.status < 300)
    && (r.Success? ==> r.value == x.body)
    && (x.Received? && !(200 <= x.status < 300) ==> r == Failure(ApiError(x.status, x.body)))
    && (x.Unbuildable? ==> r == Failure(RequestNotCreated(x.cause)))
    && (x.SendFailed? ==> r == Failure(RequestFailed(x.cause)))
    && (x.BodyUnreadable? ==> r == Failure(ResponseUnreadable(x.cause)))
  }

  /** The rule leaves no choice: one exchange has one result. */
  lemma ReportsDetermines(r1: Result<Bytes, Error>, r2: Result<Bytes, Error>, x: Exchange)
    requires Reports(r1, x) && Reports(r2, x)
    ensures r1 == r2
  {
  }

  function Classify(x: Exchange): (r: Result<Bytes, Error>)
    ensures Reports(r, x)
  {
    match x
    case Unbuildable(cause) => Failure(RequestNotCreated(cause))
    case SendFailed(cause) => Failure(RequestFailed(cause))
    case BodyUnreadable(cause) => Failure(ResponseUnreadable(cause))
    case Received(status, body) =>
      if status < 200 || status >= 300 then Failure(ApiError(status, body)) else Success(body)
  }

  /** `Client.doRequest`. */
  function DoRequest(c: Client, t: Transport, m: Method, path: string, body: Option<Json>): (r: Result<Bytes, Error>)
    ensures Reports(r, t(Outgoing(c, m, path, body)))
  {
    Classify(t(Outgoing(c, m, path, body)))
  }

  /** `Client.Get`: a GET that never carries a body. */
  function Get(c: Client, t: Transport, path: string): (r: Result<Bytes, Error>)
    ensures Reports(r, t(Request(GET, c.baseURL + path, Headers(c.apiKey), None)))
  {
    DoRequest(c, t, GET, path, None)
  }

  /** `Client.Post`: a POST carrying the body exactly when one is given. */
  function Post(c: Client, t: Transport, path: string, body: Option<Json>): (r: Result<Bytes, Error>)
    ensures Reports(r, t(Request(POST, c.baseURL + path, Headers(c.apiKey), body)))
  {
    DoRequest(c, t, POST, path, body)
  }

  /** An error status yields no bytes, and an error whose text shows the status and ends with the body. */
  lemma ErrorStatusReported(c: Client, t: Transport, m: Method, path: string, body: Option<Json>)
    requires t(Outgoing(c, m, path, body)).Received?
    requires var st := t(Outgoing(c, m, path, body)).status; st < 200 || st >= 300
    ensures var x := t(Outgoing(c, m, path, body));
      var r := DoRequest(c, t, m, path, body);
      r.Failure? && r.error == ApiError(x.status, x.body)
      && IsInfix(Utf8(Decimal(x.status)), Message(r.error))
      && Message(r.error)[|Message(r.error)| - |x.body|..] == x.body
  {
    var x := t(Outgoing(c, m, path, body));
    ApiErrorShows(x.status, x.body);
  }
}
