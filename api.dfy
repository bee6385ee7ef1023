/** The client's API helpers: the base URL chosen from the host name, the URL,
    headers and credentials `fetchApi` sends, and the message `apiRequest`
    throws when the server answers with an error. The network call itself is
    not modelled; a response is the value it resolves to. */
module Api {
  import opened Base
  import opened Text
  import opened Decimal
  import Replies

  const NetlifyBase: string := "/.netlify/functions/api"
  const DefaultBase: string := "/api"

  /** `API_BASE_URL`: the Netlify Functions path on a host whose name contains
      "netlify.app"; "/api" otherwise, in production and development builds alike. */
  function ApiBaseUrl(hostname: string, isProd: bool): (base: string)
    ensures base == NetlifyBase <==> Contains(hostname, "netlify.app")
    ensures base == DefaultBase <==> !Contains(hostname, "netlify.app")
  {
    if Contains(hostname, "netlify.app") then NetlifyBase
    else if isProd then DefaultBase
    else DefaultBase
  }

  /** The build kind never changes the base URL. */
  lemma BaseIgnoresBuild(hostname: string)
    ensures ApiBaseUrl(hostname, true) == ApiBaseUrl(hostname, false)
  {
  }

  /** Both base URLs are absolute paths without a trailing slash. */
  lemma BaseShape(hostname: string, isProd: bool)
    ensures var base := ApiBaseUrl(hostname, isProd);
            |base| > 1 && base[0] == '/' && base[|base| - 1] != '/'
  {
  }

  /** The base, then the endpoint with a "/" put in front when it has none. */
  function JoinPath(base: string, endpoint: string): (url: string)
    ensures StartsWith(url, base + "/")
    ensures StartsWith(endpoint, "/") ==> url[|base|..] == endpoint
    ensures !StartsWith(endpoint, "/") ==> url[|base|..] == "/" + endpoint
  {
    if StartsWith(endpoint, "/") then base + endpoint else base + "/" + endpoint
  }

  /** A leading slash on the endpoint makes no difference to the URL. */
  lemma {:induction false} LeadingSlashOptional(base: string, endpoint: string)
    requires !StartsWith(endpoint, "/")
    ensures JoinPath(base, "/" + endpoint) == JoinPath(base, endpoint)
  {
    assert StartsWith("/" + endpoint, "/");
    assert base + ("/" + endpoint) == base + "/" + endpoint;
  }

  /** The init object of a `fetch` call (`verb` is its `method`); the body is
      the value it carries. */
  datatype RequestInit = RequestInit(
    verb: Option<string>,
    headers: map<string, string>,
    body: Option<Json>,
    credentials: Option<string>)

  /** A `fetch` call: where it goes and with what. */
  datatype Request = Request(url: string, init: RequestInit)

  /** `{ 'Content-Type': 'application/json', ...options.headers }`: the caller's
      headers over the JSON content type. */
  function MergeHeaders(callerHeaders: map<string, string>): (headers: map<string, string>)
    ensures headers.Keys == callerHeaders.Keys + {"Content-Type"}
    ensures forall name :: name in callerHeaders ==> headers[name] == callerHeaders[name]
    ensures "Content-Type" !in callerHeaders ==> headers["Content-Type"] == "application/json"
  {
    map["Content-Type" := "application/json"] + callerHeaders
  }

  /** `fetchApi(endpoint, options)`: the joined URL, and the caller's options
      with the merged headers and with credentials forced to "include". */
  function FetchApi(base: string, endpoint: string, options: RequestInit): (r: Request)
    ensures r.url == JoinPath(base, endpoint)
    ensures r.init.credentials == Some("include")
    ensures r.init.verb == options.verb && r.init.body == options.body
    ensures r.init.headers == MergeHeaders(options.headers)
  {
    Request(JoinPath(base, endpoint), options.(headers := MergeHeaders(options.headers), credentials := Some("include")))
  }

  /** Whatever credentials mode the caller asks for, the request includes them. */
  lemma CredentialsAlwaysIncluded(base: string, endpoint: string, options: RequestInit, mode: Option<string>)
    ensures FetchApi(base, endpoint, options.(credentials := mode)) == FetchApi(base, endpoint, options)
  {
  }

  /** What a `fetch` call resolves to: the status, its status text and the body
      text. */
  datatype Response = Response(status: int, statusText: string, text: string)

  /** `response.ok`: a status in 200-299. */
  predicate Ok(res: Response)
  {
    200 <= res.status <= 299
  }

  const FailurePrefix: string := "API request failed with status "

  /** The message `apiRequest` throws for an error response, given the JSON
      object its body parses to (`{}` when it does not parse to an object): a
      truthy `message` field as text, or the status fallback. */
  function ErrorMessage(status: int, errorData: map<string, Json>): (m: string)
    ensures Truthy(Lookup(errorData, "message")) ==> m == Rendered(Lookup(errorData, "message"))
    ensures !Truthy(Lookup(errorData, "message")) ==> m == FailurePrefix + IntToString(status)
  {
    var message := Lookup(errorData, "message");
    if Truthy(message) then Rendered(message) else FailurePrefix + IntToString(status)
  }

  /** A server refusal with a non-empty message reaches the caller as that
      message. */
  lemma RefusalMessageShown(code: int, message: string)
    requires message != ""
    ensures ErrorMessage(code, Replies.Fail(code, message).body) == message
  {
  }

  /** The fallback message names the status: reading the number after the
      prefix gives the status back. */
  lemma FallbackNamesStatus(status: nat, errorData: map<string, Json>)
    requires !Truthy(Lookup(errorData, "message"))
    ensures var m := ErrorMessage(status, errorData);
            StartsWith(m, FailurePrefix) && ParseInt(m[|FailurePrefix|..]) == Some(status)
  {
    var m := ErrorMessage(status, errorData);
    assert m[|FailurePrefix|..] == NatToString(status) + "";
    ParseIntOfLeadingNumber(status, "");
  }

  /** What `response.json()` settles to: a rejection for text that is not JSON,
      the fields of an object, or any other value (`Value(JObject)` is an array,
      which has no `message` field). */
  datatype Body = NotJson | Fields(fields: map<string, Json>) | Value(v: Json)

  /** The object `apiRequest` reads `message` from: a body that is not JSON
      falls back to `{}`, and a value that is not an object has no fields.
      `null` has no `errorData` at all: reading its `message` throws. */
  function ErrorData(body: Body): (errorData: Option<map<string, Json>>)
    ensures errorData.None? <==> body == Value(JNull)
    ensures body.Fields? ==> errorData == Some(body.fields)
    ensures !body.Fields? && body != Value(JNull) ==> errorData == Some(map[])
  {
    match body
    case NotJson => Some(map[])
    case Fields(fields) => Some(fields)
    case Value(JNull) => None
    case Value(_) => Some(map[])
  }

  /** What `apiRequest` ends with: the parsed body of an ok response (its text
      here), the message it throws, or an engine error it rethrows (a
      `SyntaxError` from parsing, a `TypeError` from reading a field of `null`),
      whose text is not modelled. */
  datatype Outcome = Parsed(body: string) | Failed(message: string) | Crashed

  /** `apiRequest` after the response has arrived, given what its body parses to. */
  function ApiRequest(res: Response, body: Body): (r: Outcome)
    ensures r.Parsed? <==> Ok(res) && !body.NotJson?
    ensures r.Parsed? ==> r.body == res.text
    ensures r.Crashed? <==> (Ok(res) && body.NotJson?) || (!Ok(res) && body == Value(JNull))
    ensures r.Failed? ==> ErrorData(body).Some? && r.message == ErrorMessage(res.status, ErrorData(body).value)
  {
    if Ok(res) then
      if body.NotJson? then Crashed else Parsed(res.text)
    else
      match ErrorData(body)
      case None => Crashed
      case Some(errorData) => Failed(ErrorMessage(res.status, errorData))
  }

  /** A non-ok status never yields data: it throws a message, unless the body
      is `null`. */
  lemma NotOkNeverParsed(res: Response, body: Body)
    requires !Ok(res)
    ensures ApiRequest(res, body).Failed? <==> body != Value(JNull)
    ensures ApiRequest(res, body).Crashed? <==> body == Value(JNull)
  {
  }

  /** An error status whose body is not JSON, or is JSON without a truthy
      `message`, throws the status fallback. */
  lemma NotOkFallback(res: Response, body: Body)
    requires !Ok(res) && body != Value(JNull)
    requires body.Fields? ==> !Truthy(Lookup(body.fields, "message"))
    ensures ApiRequest(res, body) == Failed(FailurePrefix + IntToString(res.status))
  {
  }

  /** A server refusal `{ message }` with a non-empty message and an error
      status reaches the caller as exactly that message. */
  lemma RefusalThrown(res: Response, message: string)
    requires !Ok(res) && message != ""
    ensures ApiRequest(res, Fields(Replies.Fail(res.status, message).body)) == Failed(message)
  {
    RefusalMessageShown(res.status, message);
  }
}
