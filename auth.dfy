/**
 * The session state of `AuthProvider` (src/hooks/use-auth.jsx): the current
 * user, the initial-check flag, the last auth error, the token slot, and the
 * two query-cache effects the handlers trigger. Each mutation is its
 * `mutationFn` followed by its `onSuccess` or `onError` handler, run as one step.
 */
module Auth {
  import opened Wrappers
  import opened Strings
  import opened JsValues
  import opened QueryClient

  /** The query key login invalidates. */
  const UserQueryKey: string := "/api/users/get"

  /**
   * How `mutateAsync` settles when the request settles as `fetched` and the
   * `onSuccess` handler first reads `key` from the parsed body: a nullish body
   * makes that read throw, and TanStack then rejects with the TypeError.
   */
  function HandlerSettlement(fetched: Fetched, key: string): (r: Settled<JsValue>)
    ensures r.Resolved? <==> ReadJson(fetched).Resolved? && !IsNullish(ReadJson(fetched).value)
    ensures r.Resolved? ==> r == ReadJson(fetched)
    ensures ReadJson(fetched).Rejected? ==> r == ReadJson(fetched)
    ensures ReadJson(fetched).Resolved? && IsNullish(ReadJson(fetched).value) ==>
              r == Rejected(ReadPropertyError(ReadJson(fetched).value, key))
  {
    var settled := ReadJson(fetched);
    if settled.Resolved? && IsNullish(settled.value) then Rejected(ReadPropertyError(settled.value, key))
    else settled
  }

  class AuthProvider {
    var user: JsValue
    var isLoading: bool
    var error: Option<string>
    const store: TokenStore
    /** `queryClient.clear()` has run. */
    var cacheCleared: bool
    /** The query keys passed to `invalidateQueries`, in order. */
    var invalidated: seq<string>

    constructor (store: TokenStore)
      ensures this.store == store
      ensures user == Null && isLoading && error == None
      ensures !cacheCleared && invalidated == []
    {
      this.store := store;
      user := Null;
      isLoading := true;
      error := None;
      cacheCleared := false;
      invalidated := [];
    }

    /**
     * `checkAuth`: with no token it settles at once; with one it asks the
     * server who the user is, and on any failure drops the token.
     */
    method CheckAuth(fetched: Fetched) returns (req: Option<Request>)
      modifies this, store
      ensures !isLoading
      ensures error == old(error) && cacheCleared == old(cacheCleared) && invalidated == old(invalidated)
      ensures !HasToken(old(store.token)) ==>
                req.None? && user == Null && store.token == old(store.token)
      ensures HasToken(old(store.token)) ==>
                req.Some? && req.value.url == BackendUrl(UserQueryKey)
                && req.value.authorization == Some("Bearer " + old(store.token).value)
      ensures HasToken(old(store.token)) && ReadJson(fetched).Resolved? ==>
                user == ReadJson(fetched).value && store.token == old(store.token)
      ensures HasToken(old(store.token)) && ReadJson(fetched).Rejected? ==>
                user == Null && store.token == None
    {
      var token := store.GetItem();
      if !HasToken(token) {
        user := Null;
        isLoading := false;
        req := None;
        return;
      }
      var r, outcome := ApiRequest(store, "GET", UserQueryKey, Undefined, fetched);
      req := Some(r);
      var failed := true;
      if outcome.Resolved? && outcome.value.json.Some? {
        user := outcome.value.json.value;
        failed := false;
      }
      if failed {
        store.RemoveItem();
        user := Null;
      }
      isLoading := false;
    }

    /**
     * Login `onSuccess`: the response is `{ message, data, token }`. Its first
     * statement reads `response.data`, so a nullish response throws before
     * anything is set; `thrown` is that TypeError's message.
     */
    method OnLoginSuccess(response: JsValue) returns (thrown: Option<string>)
      modifies this, store
      ensures thrown.Some? <==> IsNullish(response)
      ensures IsNullish(response) ==> thrown == Some(ReadPropertyError(response, "data"))
      ensures IsNullish(response) ==>
                user == old(user) && error == old(error) && store.token == old(store.token)
                && invalidated == old(invalidated)
      ensures !IsNullish(response) ==> user == Prop(response, "data") && error == None
      ensures !IsNullish(response) ==>
                store.token == if Truthy(Prop(response, "token"))
                               then Some(ToJsString(Prop(response, "token"))) else old(store.token)
      ensures !IsNullish(response) ==> invalidated == old(invalidated) + [UserQueryKey]
      ensures isLoading == old(isLoading) && cacheCleared == old(cacheCleared)
    {
      if IsNullish(response) {
        thrown := Some(ReadPropertyError(response, "data"));
        return;
      }
      thrown := None;
      user := Prop(response, "data");
      error := None;
      var token := Prop(response, "token");
      if Truthy(token) {
        store.SetItem(ToJsString(token));
      }
      invalidated := invalidated + [UserQueryKey];
    }

    /** Login `onError`: records the error and drops any token; the user is left as it was. */
    method OnLoginError(message: string)
      modifies this, store
      ensures error == Some(message) && store.token == None
      ensures user == old(user) && isLoading == old(isLoading)
      ensures cacheCleared == old(cacheCleared) && invalidated == old(invalidated)
    {
      error := Some(message);
      store.RemoveItem();
    }

    /**
     * `loginMutation.mutateAsync(loginData)`: the promise settles as the request
     * does, except that a nullish body makes `onSuccess` throw, which runs
     * `onError` and rejects.
     */
    method Login(loginData: JsValue, fetched: Fetched) returns (req: Request, outcome: Settled<JsValue>)
      modifies this, store
      ensures outcome == HandlerSettlement(fetched, "data")
      ensures req.url == BackendUrl("/api/users/login") && req.verb == Some("POST")
      ensures req.body == if Truthy(loginData) then Some(Json(loginData)) else None
      ensures outcome.Resolved? ==> user == Prop(outcome.value, "data") && error == None
      ensures outcome.Resolved? ==>
                store.token == if Truthy(Prop(outcome.value, "token"))
                               then Some(ToJsString(Prop(outcome.value, "token"))) else old(store.token)
      ensures outcome.Resolved? ==> invalidated == old(invalidated) + [UserQueryKey]
      ensures outcome.Rejected? ==>
                error == Some(outcome.message) && store.token == None && user == old(user)
                && invalidated == old(invalidated)
      ensures isLoading == old(isLoading) && cacheCleared == old(cacheCleared)
    {
      var response;
      req, response := ApiRequest(store, "POST", "/api/users/login", loginData, fetched);
      match response {
        case Rejected(m) =>
          outcome := Rejected(m);
        case Resolved(res) =>
          outcome := if res.json.Some? then Resolved(res.json.value) else Rejected(InvalidJsonMessage);
      }
      if outcome.Resolved? {
        var thrown := OnLoginSuccess(outcome.value);
        if thrown.Some? {
          outcome := Rejected(thrown.value);
          OnLoginError(thrown.value);
        }
      } else {
        OnLoginError(outcome.message);
      }
    }

    /** Logout `onSuccess`: clears user, token and the whole query cache. */
    method OnLogoutSuccess()
      modifies this, store
      ensures user == Null && store.token == None && cacheCleared
      ensures error == old(error) && isLoading == old(isLoading) && invalidated == old(invalidated)
    {
      user := Null;
      store.RemoveItem();
      cacheCleared := true;
    }

    /** Logout `onError`: the same clearing as on success. */
    method OnLogoutError()
      modifies this, store
      ensures user == Null && store.token == None && cacheCleared
      ensures error == old(error) && isLoading == old(isLoading) && invalidated == old(invalidated)
    {
      user := Null;
      store.RemoveItem();
      cacheCleared := true;
    }

    /**
     * `logoutMutation.mutate()`: the `mutationFn` swallows the server's answer,
     * so whatever the server does the success handler runs.
     */
    method Logout(fetched: Fetched) returns (req: Request)
      modifies this, store
      ensures req.url == BackendUrl("/api/users/logout") && req.verb == Some("POST") && req.body.None?
      ensures user == Null && store.token == None && cacheCleared
      ensures error == old(error) && isLoading == old(isLoading) && invalidated == old(invalidated)
    {
      var ignored;
      req, ignored := ApiRequest(store, "POST", "/api/users/logout", Undefined, fetched);
      OnLogoutSuccess();
    }

    /**
     * Register `onSuccess`: sets the user, and stores a token only if the
     * response has one. The user and the error are set before `userData.token`
     * is read, so a nullish body throws after those two updates.
     */
    method OnRegisterSuccess(userData: JsValue) returns (thrown: Option<string>)
      modifies this, store
      ensures user == userData && error == None
      ensures thrown.Some? <==> IsNullish(userData)
      ensures IsNullish(userData) ==>
                thrown == Some(ReadPropertyError(userData, "token")) && store.token == old(store.token)
      ensures !IsNullish(userData) ==>
                store.token == if Truthy(Prop(userData, "token"))
                               then Some(ToJsString(Prop(userData, "token"))) else old(store.token)
      ensures isLoading == old(isLoading) && cacheCleared == old(cacheCleared) && invalidated == old(invalidated)
    {
      user := userData;
      error := None;
      if IsNullish(userData) {
        thrown := Some(ReadPropertyError(userData, "token"));
        return;
      }
      thrown := None;
      var token := Prop(userData, "token");
      if Truthy(token) {
        store.SetItem(ToJsString(token));
      }
    }

    /** Register `onError`: records the error; unlike login failure it keeps the token. */
    method OnRegisterError(message: string)
      modifies this
      ensures error == Some(message) && user == old(user)
      ensures isLoading == old(isLoading) && cacheCleared == old(cacheCleared) && invalidated == old(invalidated)
    {
      error := Some(message);
    }

    /**
     * `registerMutation.mutateAsync(userData)`. A nullish body makes `onSuccess`
     * throw once it has set the user, so `onError` records the TypeError and
     * the promise rejects with it.
     */
    method Register(userData: JsValue, fetched: Fetched) returns (req: Request, outcome: Settled<JsValue>)
      modifies this, store
      ensures outcome == HandlerSettlement(fetched, "token")
      ensures req.url == BackendUrl("/api/users/register") && req.verb == Some("POST")
      ensures outcome.Resolved? ==> user == outcome.value && error == None
      ensures outcome.Resolved? ==>
                store.token == if Truthy(Prop(outcome.value, "token"))
                               then Some(ToJsString(Prop(outcome.value, "token"))) else old(store.token)
      ensures outcome.Rejected? ==> error == Some(outcome.message) && store.token == old(store.token)
      ensures outcome.Rejected? ==>
                user == if ReadJson(fetched).Resolved? then ReadJson(fetched).value else old(user)
      ensures isLoading == old(isLoading) && cacheCleared == old(cacheCleared) && invalidated == old(invalidated)
    {
      var response;
      req, response := ApiRequest(store, "POST", "/api/users/register", userData, fetched);
      match response {
        case Rejected(m) =>
          outcome := Rejected(m);
        case Resolved(res) =>
          outcome := if res.json.Some? then Resolved(res.json.value) else Rejected(InvalidJsonMessage);
      }
      if outcome.Resolved? {
        var thrown := OnRegisterSuccess(outcome.value);
        if thrown.Some? {
          outcome := Rejected(thrown.value);
          OnRegisterError(thrown.value);
        }
      } else {
        OnRegisterError(outcome.message);
      }
    }
  }

  /** A login response `{ data, token }`. */
  function LoginResponse(data: JsValue, token: string): JsValue {
    Obj([Field("data", data), Field("token", Str(token))])
  }

  lemma LoginResponseFields(data: JsValue, token: string)
    ensures Prop(LoginResponse(data, token), "data") == data
    ensures Prop(LoginResponse(data, token), "token") == Str(token)
    ensures Prop(Obj([Field("data", data)]), "data") == data
    ensures Prop(Obj([Field("data", data)]), "token") == Undefined
  {
    var fs := LoginResponse(data, token).fields;
    var one := [Field("data", data)];
    assert "token" != "data" by { assert |"token"| != |"data"|; }
    assert fs[..|fs| - 1] == one;
    assert one[..|one| - 1] == [];
    assert Lookup(one, "token") == Lookup([], "token");
    assert Lookup(fs, "data") == Lookup(one, "data");
  }

  /**
   * A login answered with a token stores it, and the next request the
   * application makes, such as the products list, carries it as a bearer
   * credential.
   */
  method LoginThenRequest(credentials: JsValue, data: JsValue, token: string, productsFetched: Fetched)
    returns (user: JsValue, stored: Option<string>, next: Request)
    requires token != ""
    ensures user == data && stored == Some(token)
    ensures next.url == BackendUrl("/api/products/get")
    ensures next.authorization == Some("Bearer " + token)
  {
    var store := new TokenStore(None);
    var auth := new AuthProvider(store);
    var response := Received(Response(200, "", Some(LoginResponse(data, token))));
    LoginResponseFields(data, token);
    var req, outcome := auth.Login(credentials, response);
    ToJsStringOfString(token);
    user := auth.user;
    stored := store.token;
    var ignored;
    next, ignored := ApiRequest(store, "GET", "/api/products/get", Undefined, productsFetched);
  }

  /**
   * A login answered without a token still signs the user in, and leaves
   * whatever token was stored before: with none stored, there is a user and
   * no token; with an old one, the old token is sent on the new user's behalf.
   */
  method LoginWithoutToken(previous: Option<string>, data: JsValue)
    returns (user: JsValue, stored: Option<string>)
    ensures user == data && stored == previous
  {
    var store := new TokenStore(previous);
    var auth := new AuthProvider(store);
    var body := Obj([Field("data", data)]);
    LoginResponseFields(data, "");
    var req, outcome := auth.Login(Undefined, Received(Response(200, "", Some(body))));
    user := auth.user;
    stored := store.token;
  }
}
