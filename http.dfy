/** The request helper every component uses: it stamps the bearer header
    and a content type onto the caller's options, sends the request under
    `/api/`, decodes the reply, and on a "token expired" error clears the
    stored token and fires the `updateToken` hook. */
module Http {
  import opened Js
  import opened ApiTypes
  import opened Browser

  /** The `api.updateToken` hook: a no-op until the session context
      replaces it with a redirect to the login page. */
  datatype TokenHook = DoNothing | RedirectToLogin

  /** The caller's `RequestInit` object, which the helper mutates. */
  class RequestOptions {
    var verb: Option<string>
    var headers: Headers
    var body: RequestBody

    constructor(verb: Option<string>, headers: Headers, body: RequestBody)
      ensures this.verb == verb && this.headers == headers && this.body == body
    {
      this.verb := verb;
      this.headers := headers;
      this.body := body;
    }
  }

  /** What the network hands back: nothing (the fetch promise rejects), or
      a reply with its status flag, its text and, when the text is JSON,
      the decoded value. */
  datatype Response = NetworkFailure | Reply(ok: bool, text: string, json: Option<Json>)

  /** `fetch` decodes a success as JSON, `fetchPlain` as text. */
  datatype Decoding = AsJson | AsText

  datatype Value = JsonValue(json: Json) | TextValue(text: string)

  /** Why the helper rejects: the value it wraps as `{error}` (the fetch
      rejection, or the parse error of a success body that is not JSON),
      the decoded error body it rethrows, the parse error of an error body
      that is not JSON, or the TypeError of reading `.error` off `null`. */
  datatype Failure =
    | Wrapped(cause: Cause)
    | ErrorBody(body: Json)
    | UnreadableErrorBody
    | NullErrorBody

  datatype Cause = NoResponse | InvalidJson

  datatype Outcome = Returned(value: Value) | Threw(failure: Failure)

  const TokenExpiredMessage := "Error: Token expired"

  /** `body.error` when it is a string. */
  function ErrorMessage(body: Json): (m: Option<string>)
    ensures forall t :: m == Some(t) <==> body.JObj? && "error" in body.fields && body.fields["error"] == JStr(t)
  {
    if body.JObj? && "error" in body.fields && body.fields["error"].JStr? then
      Some(body.fields["error"].s)
    else
      None
  }

  /** An error reply whose JSON body says the token expired. */
  predicate ExpiresToken(r: Response) {
    r.Reply? && !r.ok && r.json.Some? && ErrorMessage(r.json.value) == Some(TokenExpiredMessage)
  }

  /** `"Bearer " + x` for `x: string | null`: JavaScript renders null as "null". */
  function StringOrNull(o: Option<string>): string {
    if o.Some? then o.value else "null"
  }

  /** The Authorization value.  The source's `?? ""` applies to the already
      concatenated string, which is never nullish, so it never takes effect. */
  function AuthorizationValue(stored: Option<string>): (v: string)
    ensures v == "Bearer " + StringOrNull(stored)
    ensures stored.None? ==> v == "Bearer null"
  {
    "Bearer " + StringOrNull(stored)
  }

  /** The headers the helper leaves on the options object. */
  function ComposeHeaders(caller: Headers, stored: Option<string>, noContentType: bool): (h: Headers)
    ensures "Authorization" in h && h["Authorization"] == AuthorizationValue(stored)
    ensures noContentType ==> h.Keys == caller.Keys + {"Authorization"}
    ensures !noContentType ==> h.Keys == caller.Keys + {"Authorization", "Content-Type"}
    ensures !noContentType ==>
      h["Content-Type"] == (if "Content-Type" in caller then caller["Content-Type"] else "application/json")
    ensures forall k :: k in caller && k != "Authorization" ==> h[k] == caller[k]
  {
    var withAuth := caller["Authorization" := AuthorizationValue(stored)];
    if noContentType then withAuth
    else withAuth["Content-Type" := if "Content-Type" in withAuth then withAuth["Content-Type"] else "application/json"]
  }

  /** How a reply is reported to the caller. */
  function Classify(r: Response, d: Decoding): (o: Outcome)
    ensures o.Returned? <==> r.Reply? && r.ok && (d == AsText || r.json.Some?)
    ensures r.NetworkFailure? ==> o == Threw(Wrapped(NoResponse))
    ensures r.Reply? && r.ok && d == AsJson && r.json.None? ==> o == Threw(Wrapped(InvalidJson))
    ensures r.Reply? && !r.ok && r.json.None? ==> o == Threw(UnreadableErrorBody)
    ensures r.Reply? && !r.ok && r.json == Some(JNull) ==> o == Threw(NullErrorBody)
    ensures r.Reply? && !r.ok && r.json.Some? && r.json.value != JNull ==> o == Threw(ErrorBody(r.json.value))
    ensures ExpiresToken(r) ==> o == Threw(ErrorBody(r.json.value))
    ensures d == AsText && o.Returned? ==> o.value == TextValue(r.text)
    ensures d == AsJson && o.Returned? ==> o.value == JsonValue(r.json.value)
  {
    match r
    case NetworkFailure => Threw(Wrapped(NoResponse))
    case Reply(ok, text, json) =>
      if ok then
        if d == AsText then Returned(TextValue(text))
        else if json.Some? then Returned(JsonValue(json.value))
        else Threw(Wrapped(InvalidJson))
      else if json.None? then Threw(UnreadableErrorBody)
      else if json.value == JNull then Threw(NullErrorBody)
      else Threw(ErrorBody(json.value))
  }

  /** `fetch` and `fetchPlain` agree on every reply except a successful one. */
  lemma DecodingOnlyAffectsSuccess(r: Response)
    ensures !(r.Reply? && r.ok) ==> Classify(r, AsJson) == Classify(r, AsText)
    ensures r.Reply? && r.ok && r.json.None? ==>
      Classify(r, AsJson) == Threw(Wrapped(InvalidJson)) && Classify(r, AsText) == Returned(TextValue(r.text))
  {
  }

  /** Clearing the token and firing the hook happen exactly on a "token
      expired" error reply; the hook navigates only once installed. */
  twostate predicate ExpiryHandled(w: Window, hook: TokenHook, r: Response)
    reads w
  {
    if ExpiresToken(r) then
      w.storedToken == None && (if hook == RedirectToLogin then Navigated(w, "/login") else StayedPut(w))
    else
      w.storedToken == old(w.storedToken) && StayedPut(w)
  }

  class ApiClient {
    var updateToken: TokenHook
    const window: Window

    constructor(window: Window)
      ensures this.window == window && updateToken == DoNothing
    {
      this.window := window;
      updateToken := DoNothing;
    }

    /** `api.fetch` (decoding `AsJson`) and `api.fetchPlain` (`AsText`). */
    method Fetch(url: string, options: RequestOptions, noContentType: bool, response: Response, decoding: Decoding)
      returns (outcome: Outcome)
      modifies options, window
      ensures options.headers == ComposeHeaders(old(options.headers), old(window.storedToken), noContentType)
      ensures options.verb == old(options.verb) && options.body == old(options.body)
      ensures SentOne(window, Request("/api/" + url, options.verb, options.headers, options.body))
      ensures outcome == Classify(response, decoding)
      ensures ExpiryHandled(window, updateToken, response)
    {
      options.headers := options.headers["Authorization" := "Bearer " + StringOrNull(window.storedToken)];
      if !noContentType {
        options.headers := options.headers["Content-Type" :=
          if "Content-Type" in options.headers then options.headers["Content-Type"] else "application/json"];
      }
      window.sent := window.sent + [Request("/api/" + url, options.verb, options.headers, options.body)];
      match response {
        case NetworkFailure =>
          outcome := Threw(Wrapped(NoResponse));
        case Reply(ok, text, json) =>
          if ok && decoding == AsText {
            outcome := Returned(TextValue(text));
          } else if ok && json.Some? {
            outcome := Returned(JsonValue(json.value));
          } else if ok {
            outcome := Threw(Wrapped(InvalidJson));
          } else if json.None? {
            outcome := Threw(UnreadableErrorBody);
          } else if json.value == JNull {
            outcome := Threw(NullErrorBody);
          } else {
            if ErrorMessage(json.value) == Some(TokenExpiredMessage) {
              window.storedToken := None;
              if updateToken == RedirectToLogin {
                window.GoTo("/login");
              }
            }
            outcome := Threw(ErrorBody(json.value));
          }
      }
    }
  }
}
