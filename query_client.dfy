/** The data-fetching helpers of the client: how `apiRequest` and the default
    query function resolve a URL against the API base, what they send, and
    what an error response becomes. The network call itself is not modelled. */
module QueryClient {
  import opened Base
  import opened Text
  import opened Decimal
  import opened Api

  /** A URL that starts with "http://" or "https://" is used as it is. */
  predicate IsAbsolute(url: string)
  {
    StartsWith(url, "http://") || StartsWith(url, "https://")
  }

  /** The URL a request goes to: an absolute URL unchanged, anything else joined
      to the API base. */
  function ResolveUrl(base: string, url: string): (full: string)
    ensures IsAbsolute(url) ==> full == url
    ensures !IsAbsolute(url) ==> full == JoinPath(base, url)
  {
    if IsAbsolute(url) then url else JoinPath(base, url)
  }

  /** The three cases of resolution: absolute, rooted and bare. */
  lemma ResolveUrlCases(base: string, url: string)
    ensures IsAbsolute(url) ==> ResolveUrl(base, url) == url
    ensures !IsAbsolute(url) && StartsWith(url, "/") ==> ResolveUrl(base, url) == base + url
    ensures !IsAbsolute(url) && !StartsWith(url, "/") ==> ResolveUrl(base, url) == base + "/" + url
  {
  }

  /** A relative URL resolves to the base, exactly one "/" and the URL without
      its own leading "/"; no "/" is doubled when the URL does not start with two. */
  lemma {:induction false} OneSlashJoins(base: string, url: string)
    requires !IsAbsolute(url) && !StartsWith(url, "//")
    ensures var full := ResolveUrl(base, url);
            StartsWith(full, base + "/") && (|full| == |base| + 1 || full[|base| + 1] != '/')
  {
    var full := ResolveUrl(base, url);
    if StartsWith(url, "/") {
      assert full == base + url;
      if |full| > |base| + 1 {
        assert full[|base| + 1] == url[1];
      }
    } else {
      assert full == base + "/" + url;
      if |full| > |base| + 1 {
        assert full[|base| + 1] == url[0];
      }
    }
  }

  /** `fetchApi` agrees with `apiRequest` on relative URLs but, unlike it, also
      prefixes an absolute one. */
  lemma FetchApiPrefixesAbsolute(base: string, url: string)
    ensures !IsAbsolute(url) ==> FetchApi(base, url, RequestInit(None, map[], None, None)).url == ResolveUrl(base, url)
    ensures IsAbsolute(url) ==> FetchApi(base, url, RequestInit(None, map[], None, None)).url != ResolveUrl(base, url)
  {
    if IsAbsolute(url) {
      assert url[0] == 'h' && !StartsWith(url, "/");
      assert |JoinPath(base, url)| > |url|;
    }
  }

  /** The init of `apiRequest(method, url, data)`: a JSON content type and the
      data as body only when the data is truthy; credentials always included. */
  function ApiRequestInit(verb: string, data: Option<Json>): (init: RequestInit)
    ensures init.verb == Some(verb) && init.credentials == Some("include")
    ensures "Content-Type" in init.headers <==> Truthy(data)
    ensures init.body.Some? <==> Truthy(data)
    ensures Truthy(data) ==> init.headers == map["Content-Type" := "application/json"] && init.body == data
    ensures !Truthy(data) ==> init.headers == map[]
  {
    if Truthy(data) then RequestInit(Some(verb), map["Content-Type" := "application/json"], data, Some("include"))
    else RequestInit(Some(verb), map[], None, Some("include"))
  }

  /** The `fetch` call of `apiRequest`. */
  function ApiRequestCall(base: string, verb: string, url: string, data: Option<Json>): (r: Request)
    ensures r.url == ResolveUrl(base, url) && r.init == ApiRequestInit(verb, data)
  {
    Request(ResolveUrl(base, url), ApiRequestInit(verb, data))
  }

  /** The `fetch` call of the query function for the query key's first element:
      only credentials are set. */
  function QueryCall(base: string, urlKey: string): (r: Request)
    ensures r.url == ResolveUrl(base, urlKey)
    ensures r.init == RequestInit(None, map[], None, Some("include"))
  {
    Request(ResolveUrl(base, urlKey), RequestInit(None, map[], None, Some("include")))
  }

  /** The query function resolves its key with the same rule as `apiRequest`. */
  lemma SameUrlRule(base: string, urlKey: string, verb: string, data: Option<Json>)
    ensures QueryCall(base, urlKey).url == ApiRequestCall(base, verb, urlKey, data).url
  {
  }

  /** `throwIfResNotOk`: nothing for an ok response, otherwise the message
      "<status>: <text>", where an empty body falls back to the status text. */
  function NotOkMessage(res: Response): (m: Option<string>)
    ensures m.None? <==> Ok(res)
    ensures m.Some? && res.text != "" ==> m.value == IntToString(res.status) + ": " + res.text
    ensures m.Some? && res.text == "" ==> m.value == IntToString(res.status) + ": " + res.statusText
  {
    if Ok(res) then None
    else
      var text := if res.text != "" then res.text else res.statusText;
      Some(IntToString(res.status) + ": " + text)
  }

  /** The status can be read back from the front of the thrown message. */
  lemma NotOkMessageNamesStatus(res: Response)
    requires !Ok(res) && res.status >= 0
    ensures NotOkMessage(res).Some? && ParseInt(NotOkMessage(res).value) == Some(res.status)
  {
    var text := if res.text != "" then res.text else res.statusText;
    assert NotOkMessage(res).value == NatToString(res.status) + (": " + text);
    ParseIntOfLeadingNumber(res.status, ": " + text);
  }

  /** What to do on a 401: answer null, or throw like any other error. */
  datatype UnauthorizedBehavior = ReturnNull | Throw

  /** What the query function ends with: null, a thrown message, the parsed
      body (its text here), or the `SyntaxError` of `res.json()` on an ok body
      that is not JSON, whose text is not modelled. */
  datatype QueryResult = Null | Thrown(message: string) | Data(body: string) | Unreadable

  /** The query function after the response has arrived; `isJson` says whether
      the body parses as JSON. */
  function QueryOutcome(on401: UnauthorizedBehavior, res: Response, isJson: bool): (r: QueryResult)
    ensures r.Null? <==> on401 == ReturnNull && res.status == 401
    ensures r.Thrown? <==> !Ok(res) && !(on401 == ReturnNull && res.status == 401)
    ensures r.Thrown? ==> NotOkMessage(res) == Some(r.message)
    ensures r.Unreadable? <==> Ok(res) && !isJson
    ensures r.Data? <==> Ok(res) && isJson
    ensures r.Data? ==> r.body == res.text
  {
    if on401 == ReturnNull && res.status == 401 then Null
    else
      match NotOkMessage(res)
      case Some(message) => Thrown(message)
      case None => if isJson then Data(res.text) else Unreadable
  }

  /** The default query function throws on a 401 like on any other error status. */
  lemma DefaultQueryThrowsOn401(res: Response, isJson: bool)
    requires res.status == 401
    ensures QueryOutcome(Throw, res, isJson).Thrown?
    ensures StartsWith(QueryOutcome(Throw, res, isJson).message, "401: ")
  {
    assert IntToString(401) == "401" by {
      assert NatToString(401) == NatToString(40) + [DigitChar(1)];
      assert NatToString(40) == NatToString(4) + [DigitChar(0)];
    }
  }
}
