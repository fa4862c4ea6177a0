/**
 * The HTTP client wrapper of src/lib/queryClient.js: URL normalisation against
 * the fixed backend origin, the bearer header taken from `localStorage`, the
 * JSON body, the response gate, and the 401 policy of query reads.
 * `fetch` itself is not modelled: the response it settles with is a parameter.
 */
module QueryClient {
  import opened Wrappers
  import opened Strings
  import opened JsValues

  /** `API_BASE`. */
  const ApiBase: string := "http://localhost:3000"

  /** The `localStorage` slot under the key "token". */
  class TokenStore {
    var token: Option<string>

    constructor (initial: Option<string>)
      ensures token == initial
    {
      token := initial;
    }

    /** `localStorage.getItem("token")`. */
    method GetItem() returns (t: Option<string>)
      ensures t == token
    {
      t := token;
    }

    /** `localStorage.setItem("token", value)`. */
    method SetItem(value: string)
      modifies this
      ensures token == Some(value)
    {
      token := Some(value);
    }

    /** `localStorage.removeItem("token")`. */
    method RemoveItem()
      modifies this
      ensures token == None
    {
      token := None;
    }
  }

  /** `if (token)`: a stored empty string is as good as no token. */
  predicate HasToken(t: Option<string>) {
    t.Some? && t.value != ""
  }

  /** A received HTTP response: status, body text, and the body parsed as JSON when it parses. */
  datatype Response = Response(status: int, text: string, json: Option<JsValue>) {
    /** `res.ok`. */
    predicate Ok() {
      200 <= status <= 299
    }
  }

  /** What `fetch` settles with: a response, or a rejection when none arrives. */
  datatype Fetched = Received(res: Response) | NetworkFailure

  /** The message of the TypeError `fetch` rejects with when no response arrives. */
  const NetworkFailureMessage: string := "Failed to fetch"

  /** The message of the SyntaxError `res.json()` rejects with on a body that is not JSON. */
  const InvalidJsonMessage: string := "Unexpected token in JSON"

  /** A settled promise: resolved with a value, or rejected with an Error's message. */
  datatype Settled<T> = Resolved(value: T) | Rejected(message: string)

  /** The `fetch` call a request function makes: URL and options. */
  datatype Request = Request(
    verb: Option<string>,          // the `method` option; None: absent, so fetch uses GET
    url: string,
    contentType: string,
    authorization: Option<string>,
    credentials: string,
    body: Option<string>)

  /** `throwIfResNotOk`: passes a 2xx response through, otherwise throws its body text. */
  function ThrowIfResNotOk(res: Response): (r: Settled<Response>)
    ensures r.Resolved? <==> res.Ok()
    ensures r.Resolved? ==> r.value == res
    ensures r.Rejected? ==> r.message == res.text
  {
    if !res.Ok() then Rejected(res.text) else Resolved(res)
  }

  /** The path under the backend origin that a url is sent to. */
  function ApiPath(url: string): (path: string)
    ensures StartsWith(path, "/api")
  {
    if StartsWith(url, "/api") then url
    else "/api" + (if StartsWith(url, "/") then "" else "/") + url
  }

  /** The URL every request goes to: the backend origin followed by the API path. */
  function BackendUrl(url: string): string {
    ApiBase + ApiPath(url)
  }

  /** Every URL the wrapper builds starts with `http://localhost:3000/api`. */
  lemma BackendUrlPrefix(url: string)
    ensures StartsWith(BackendUrl(url), ApiBase + "/api")
  {
    var path := ApiPath(url);
    assert (ApiBase + path)[..|ApiBase + "/api"|] == ApiBase + path[..4];
  }

  /** Once under `/api`, a path is left alone: normalising twice is normalising once. */
  lemma ApiPathIdempotent(url: string)
    ensures ApiPath(ApiPath(url)) == ApiPath(url)
  {
  }

  /** A url is sent unchanged exactly when it already begins with `/api`; any other gains a prefix. */
  lemma ApiPathKeepsApiPaths(url: string)
    ensures ApiPath(url) == url <==> StartsWith(url, "/api")
    ensures !StartsWith(url, "/api") ==> |ApiPath(url)| > |url|
  {
  }

  /**
   * A url spelled `api/...`, without the leading slash, is not recognised as
   * an API path: it gains a second `/api/` in front.
   */
  lemma BareApiSpellingIsDoubled(url: string)
    requires StartsWith(url, "api")
    ensures ApiPath(url) == "/api/" + url
    ensures ApiPath("api/orders") == "/api/api/orders"
  {
    NotStartsWith(url, "/api", 0);
    NotStartsWith(url, "/", 0);
    NotStartsWith("api/orders", "/api", 0);
    NotStartsWith("api/orders", "/", 0);
  }

  /** A leading `/` is optional, as long as the url does not itself begin with `api`. */
  lemma LeadingSlashOptional(url: string)
    requires !StartsWith(url, "/") && !StartsWith(url, "api")
    ensures ApiPath(url) == ApiPath("/" + url) == "/api/" + url
  {
    var u := "/" + url;
    if |url| >= 3 {
      assert u[..4] == "/" + url[..3];
    }
  }

  /** The three spellings of the orders path meet at one URL. */
  lemma OrdersPathSpellings()
    ensures BackendUrl("orders") == BackendUrl("/orders") == BackendUrl("/api/orders")
                                 == "http://localhost:3000/api/orders"
  {
    NotStartsWith("orders", "/api", 0);
    NotStartsWith("orders", "/", 0);
    NotStartsWith("/orders", "/api", 1);
    assert StartsWith("/orders", "/");
    assert StartsWith("/api/orders", "/api");
  }

  /** An already absolute URL is not kept: it is appended under the backend's `/api/`. */
  lemma AbsoluteUrlIsNested(url: string)
    requires StartsWith(url, "http")
    ensures BackendUrl(url) == ApiBase + "/api/" + url
  {
    assert url[0] == 'h';
    NotStartsWith(url, "/api", 0);
    NotStartsWith(url, "/", 0);
  }

  /** A url that merely begins with the letters `/api` is taken to be an API path already. */
  lemma ApiPrefixIsTextual()
    ensures BackendUrl("/apiary") == "http://localhost:3000/apiary"
  {
    assert StartsWith("/apiary", "/api");
  }

  /** The settlement of `apiRequest(...)` followed by `response.json()`. */
  function ReadJson(fetched: Fetched): (r: Settled<JsValue>)
    ensures r.Resolved? <==> fetched.Received? && fetched.res.Ok() && fetched.res.json.Some?
    ensures r.Resolved? ==> r.value == fetched.res.json.value
    ensures fetched.NetworkFailure? ==> r == Rejected(NetworkFailureMessage)
    ensures fetched.Received? && !fetched.res.Ok() ==> r == Rejected(fetched.res.text)
  {
    match fetched
    case NetworkFailure => Rejected(NetworkFailureMessage)
    case Received(res) =>
      if !res.Ok() then Rejected(res.text)
      else if res.json.None? then Rejected(InvalidJsonMessage)
      else Resolved(res.json.value)
  }

  /**
   * `apiRequest(method, url, data)`, with `verb` for `method`: builds the options, adds the bearer header
   * and the body in place, resolves the URL and gates the response. It reads
   * the token slot and never writes it.
   */
  method ApiRequest(store: TokenStore, verb: string, url: string, data: JsValue, fetched: Fetched)
    returns (req: Request, outcome: Settled<Response>)
    ensures req.verb == Some(verb) && req.url == BackendUrl(url)
    ensures req.contentType == "application/json" && req.credentials == "include"
    ensures req.authorization.Some? <==> HasToken(store.token)
    ensures req.authorization.Some? ==> req.authorization.value == "Bearer " + store.token.value
    ensures req.body.Some? <==> Truthy(data)
    ensures req.body.Some? ==> req.body.value == Json(data)
    ensures fetched.NetworkFailure? ==> outcome == Rejected(NetworkFailureMessage)
    ensures fetched.Received? ==> outcome == ThrowIfResNotOk(fetched.res)
  {
    var token := store.GetItem();
    var options := Request(Some(verb), "", "application/json", None, "include", None);
    if HasToken(token) {
      options := options.(authorization := Some("Bearer " + token.value));
    }
    if Truthy(data) {
      options := options.(body := Some(Json(data)));
    }
    var path := ApiPath(url);
    var fullUrl := if StartsWith(path, "http") then path else ApiBase + path;
    req := options.(url := fullUrl);
    match fetched {
      case NetworkFailure =>
        outcome := Rejected(NetworkFailureMessage);
      case Received(res) =>
        outcome := ThrowIfResNotOk(res);
    }
  }

  /** The error `getQueryFn` throws on a 401 unless told to return null. */
  const UnauthorizedMessage: string := "Unauthorized"

  /**
   * The query function `getQueryFn({ on401 })` returns, applied to a query key
   * whose first element is `key`. A 401 clears the token slot; then the result
   * is `null` when `on401` is "returnNull", an "Unauthorized" error otherwise.
   */
  method GetQueryFn(store: TokenStore, on401: string, key: string, fetched: Fetched)
    returns (req: Request, outcome: Settled<JsValue>)
    modifies store
    ensures req.verb.None? && req.body.None? && req.url == BackendUrl(key)
    ensures req.contentType == "application/json" && req.credentials == "include"
    ensures req.authorization.Some? <==> HasToken(old(store.token))
    ensures req.authorization.Some? ==> req.authorization.value == "Bearer " + old(store.token).value
    ensures store.token == if fetched.Received? && fetched.res.status == 401 then None else old(store.token)
    ensures fetched.Received? && fetched.res.status == 401 ==>
              outcome == if on401 == "returnNull" then Resolved(Null) else Rejected(UnauthorizedMessage)
    ensures fetched.Received? && fetched.res.status != 401 ==> outcome == ReadJson(fetched)
    ensures fetched.NetworkFailure? ==> outcome == Rejected(NetworkFailureMessage)
  {
    var token := store.GetItem();
    var path := ApiPath(key);
    var fullUrl := if StartsWith(path, "http") then path else ApiBase + path;
    var headers := Request(None, fullUrl, "application/json", None, "include", None);
    if HasToken(token) {
      headers := headers.(authorization := Some("Bearer " + token.value));
    }
    req := headers;
    if fetched.NetworkFailure? {
      outcome := Rejected(NetworkFailureMessage);
      return;
    }
    var res := fetched.res;
    if res.status == 401 {
      store.RemoveItem();
      if on401 == "returnNull" {
        outcome := Resolved(Null);
        return;
      }
      outcome := Rejected(UnauthorizedMessage);
      return;
    }
    match ThrowIfResNotOk(res) {
      case Rejected(m) =>
        outcome := Rejected(m);
      case Resolved(r) =>
        outcome := if r.json.Some? then Resolved(r.json.value) else Rejected(InvalidJsonMessage);
    }
  }
}
