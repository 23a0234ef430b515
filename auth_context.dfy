/** The session context: whether the user is logged in, whether the loading
    screen is up, whether the start-up check has finished, and the current
    user.  At start-up a stored token means "logged in" (and the user is
    looked up); without one the router is sent to the login page.  The
    loading screen clears once the start-up check has finished and the
    router is on the login page or the user is logged in. */
module AuthContext {
  import opened Js
  import opened Browser
  import opened Http

  const LoginPath := "/login"
  const HomePath := "/"

  /** The loading-clear condition of the effect over the pathname, the
      loading flag and the session flag. */
  predicate ShouldClearLoading(pathname: string, isLoading: bool, isLogged: bool) {
    (pathname == LoginPath && isLoading) || (pathname != LoginPath && isLogged && isLoading)
  }

  /** The screen clears exactly while it is up and the router is on the
      login page or the user is logged in: a visitor who is not logged in
      never sees another page's content. */
  lemma ShouldClearLoadingMeans(pathname: string, isLoading: bool, isLogged: bool)
    ensures ShouldClearLoading(pathname, isLoading, isLogged) <==> isLoading && (pathname == LoginPath || isLogged)
  {
  }

  /** `JSON.stringify({email, password})`. */
  function Credentials(email: string, password: string): Json {
    JObj(map["email" := JStr(email), "password" := JStr(password)])
  }

  /** The login request as the helper sends it. */
  function LoginRequest(email: string, password: string, stored: Option<string>): (r: Request)
    ensures r.path == "/api/auth/login" && r.verb == Some("POST") && r.body == JsonText(Credentials(email, password))
    ensures r.headers == ComposeHeaders(map[], stored, false)
  {
    Request("/api/auth/login", Some("POST"), ComposeHeaders(map[], stored, false), JsonText(Credentials(email, password)))
  }

  /** The current-user request as the helper sends it. */
  function MeRequest(stored: Option<string>): (r: Request)
    ensures r.path == "/api/auth/me" && r.verb.None? && r.body == NoBody
    ensures "Authorization" in r.headers && r.headers["Authorization"] == AuthorizationValue(stored)
  {
    Request("/api/auth/me", None, ComposeHeaders(map[], stored, false), NoBody)
  }

  /** What `localStorage.setItem("token", response.access_token)` stores:
      the field's string form, "undefined" when there is no such field, and
      nothing at all when the body is `null` (reading a field of `null`
      throws). */
  function AccessToken(body: Json): (t: Option<string>)
    ensures t.None? <==> body == JNull
    ensures body.JObj? && "access_token" in body.fields ==> t == Some(JsString(body.fields["access_token"]))
    ensures body != JNull && !(body.JObj? && "access_token" in body.fields) ==> t == Some("undefined")
  {
    if body == JNull then None
    else if body.JObj? && "access_token" in body.fields then Some(JsString(body.fields["access_token"]))
    else Some("undefined")
  }

  class AuthProvider {
    var isLogged: bool
    var isLoading: bool
    var initialLoadFinished: bool
    /** `user`; `None` is `null`. */
    var user: Option<Json>
    const api: ApiClient

    constructor(api: ApiClient)
      ensures this.api == api
      ensures !isLogged && isLoading && !initialLoadFinished && user.None?
    {
      this.api := api;
      isLogged := false;
      isLoading := true;
      initialLoadFinished := false;
      user := None;
    }

    /** Every render installs the hook that sends an expired session to the
        login page. */
    method Render()
      modifies api
      ensures api.updateToken == RedirectToLogin
    {
      api.updateToken := RedirectToLogin;
    }

    /** `_getUser`: look up the current user; a failed lookup throws, which
        `ok` reports, and leaves `user` alone. */
    method GetUser(response: Response) returns (ok: bool)
      modifies this, api.window
      ensures ok <==> Classify(response, AsJson).Returned?
      ensures ok ==> user == Some(Classify(response, AsJson).value.json)
      ensures !ok ==> user == old(user)
      ensures SentOne(api.window, MeRequest(old(api.window.storedToken)))
      ensures ExpiryHandled(api.window, api.updateToken, response)
      ensures isLogged == old(isLogged) && isLoading == old(isLoading) && initialLoadFinished == old(initialLoadFinished)
    {
      var options := new RequestOptions(None, map[], NoBody);
      assert "/api/" + "auth/me" == "/api/auth/me";
      var outcome := api.Fetch("auth/me", options, false, response, AsJson);
      ok := outcome.Returned?;
      if ok {
        user := Some(outcome.value.json);
      }
    }

    /** `_handleInitialLoad`.  With a stored (non-empty) token: logged in,
        look the user up, and leave the login page for home; a failed
        lookup throws before the load is marked finished.  Without one: go
        to the login page and stay logged out. */
    method HandleInitialLoad(meResponse: Response)
      modifies this, api.window
      ensures isLoading == old(isLoading)
      ensures !TruthyOpt(old(api.window.storedToken)) ==>
        && !isLogged && initialLoadFinished && user == old(user)
        && Navigated(api.window, LoginPath)
        && api.window.sent == old(api.window.sent) && api.window.storedToken == old(api.window.storedToken)
      ensures TruthyOpt(old(api.window.storedToken)) ==>
        && isLogged
        && SentOne(api.window, MeRequest(old(api.window.storedToken)))
        && (Classify(meResponse, AsJson).Returned? ==>
             && initialLoadFinished
             && user == Some(Classify(meResponse, AsJson).value.json)
             && api.window.storedToken == old(api.window.storedToken)
             && Navigated(api.window, if old(api.window.pathname) == LoginPath then HomePath else old(api.window.pathname)))
        && (Classify(meResponse, AsJson).Threw? ==>
             && initialLoadFinished == old(initialLoadFinished) && user == old(user)
             && ExpiryHandled(api.window, api.updateToken, meResponse))
    {
      var token := api.window.storedToken;
      if TruthyOpt(token) {
        isLogged := true;
        var ok := GetUser(meResponse);
        if !ok {
          return;
        }
        if api.window.pathname == LoginPath {
          api.window.GoTo(HomePath);
        }
      } else {
        api.window.GoTo(LoginPath);
        isLogged := false;
      }
      initialLoadFinished := true;
    }

    /** The loading-clear effect: nothing before the start-up check has
        finished; afterwards the screen clears under `ShouldClearLoading`.
        It never raises the flag. */
    method LoadingEffect()
      modifies this
      ensures isLoading <==> old(isLoading) && !(initialLoadFinished && ShouldClearLoading(api.window.pathname, old(isLoading), isLogged))
      ensures isLogged == old(isLogged) && initialLoadFinished == old(initialLoadFinished) && user == old(user)
    {
      if !initialLoadFinished {
        return;
      }
      if ShouldClearLoading(api.window.pathname, isLoading, isLogged) {
        isLoading := false;
      }
    }

    /** `_login`: post the credentials and store the returned token.  A
        rejected request throws (`ok` false) before anything is stored. */
    method StoreLogin(email: string, password: string, response: Response) returns (ok: bool)
      modifies api.window
      ensures ok <==> Classify(response, AsJson).Returned? && AccessToken(Classify(response, AsJson).value.json).Some?
      ensures api.window.sent == old(api.window.sent) + [LoginRequest(email, password, old(api.window.storedToken))]
      ensures ok ==>
        api.window.storedToken == AccessToken(Classify(response, AsJson).value.json) && StayedPut(api.window)
      ensures !ok ==> ExpiryHandled(api.window, api.updateToken, response)
    {
      var options := new RequestOptions(Some("POST"), map[], JsonText(Credentials(email, password)));
      assert "/api/" + "auth/login" == "/api/auth/login";
      var outcome := api.Fetch("auth/login", options, false, response, AsJson);
      ok := outcome.Returned? && AccessToken(outcome.value.json).Some?;
      if ok {
        api.window.storedToken := AccessToken(outcome.value.json);
      }
    }

    /** `login`: store the token, look the user up, then mark the session
        logged in and go home.  If either request fails the login promise
        never settles, so neither of the last two steps happens. */
    method Login(email: string, password: string, loginResponse: Response, meResponse: Response)
      modifies this, api.window
      ensures isLoading == old(isLoading) && initialLoadFinished == old(initialLoadFinished)
      ensures |api.window.sent| >= |old(api.window.sent)| + 1
      ensures api.window.sent[|old(api.window.sent)|] == LoginRequest(email, password, old(api.window.storedToken))
      ensures Classify(loginResponse, AsJson).Returned? ==>
        var stored := AccessToken(Classify(loginResponse, AsJson).value.json);
        stored.Some? ==>
          && api.window.sent == old(api.window.sent) + [LoginRequest(email, password, old(api.window.storedToken)), MeRequest(stored)]
          && (Classify(meResponse, AsJson).Returned? ==>
               isLogged && user == Some(Classify(meResponse, AsJson).value.json)
               && api.window.storedToken == stored && Navigated(api.window, HomePath))
          && (Classify(meResponse, AsJson).Threw? ==> isLogged == old(isLogged) && user == old(user))
      ensures !(Classify(loginResponse, AsJson).Returned? && AccessToken(Classify(loginResponse, AsJson).value.json).Some?) ==>
        isLogged == old(isLogged) && user == old(user)
        && api.window.sent == old(api.window.sent) + [LoginRequest(email, password, old(api.window.storedToken))]
    {
      var stored := StoreLogin(email, password, loginResponse);
      if !stored {
        return;
      }
      var found := GetUser(meResponse);
      if !found {
        return;
      }
      isLogged := true;
      api.window.GoTo(HomePath);
    }

    /** `logout`: logged out, and on the login page. */
    method Logout()
      modifies this, api.window
      ensures !isLogged && Navigated(api.window, LoginPath)
      ensures isLoading == old(isLoading) && initialLoadFinished == old(initialLoadFinished) && user == old(user)
      ensures api.window.storedToken == old(api.window.storedToken) && api.window.sent == old(api.window.sent)
    {
      isLogged := false;
      api.window.GoTo(LoginPath);
    }
  }
}
