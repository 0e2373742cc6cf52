/** The route handler of the newer tree: `GET` and `POST` on
    `/api/auth/[action]/[provider]`, the provider check, the mapping of each
    action to a service call, and the error envelope. A request is one
    transition of the cookies. */
module Handlers {
  import opened Types
  import opened Text
  import opened Encoding
  import opened Urls
  import opened Lib
  import opened SessionManager
  import opened Auth

  /** What a request depends on besides the cookies: Parse, the challenge
      endpoint, SHA-256 and the two random UUIDs the authorize step draws. */
  datatype Env = Env(
    idp: IdentityProvider,
    challenge: Json -> Result<Json, Thrown>,
    sha256: seq<byte> -> Digest,
    stateUuid: string,
    verifierUuid: string)

  type Providers = Option<map<string, OAuthConfig>>

  /** `provider ? Object.keys(OAuthConfig ?? {}).includes(provider) : false`. */
  predicate ValidProvider(configs: Providers, provider: Option<string>)
  {
    Present(provider) && configs.Some? && provider.value in configs.value
  }

  const InvalidProvider := AuthServiceError("Invalid provider", 400)
  const UnknownAction := AuthServiceError("Unknown action", 400)
  const UnsupportedMethod := AuthServiceError("Unsupported method", 405)

  /** `const [action, provider] = params["psnjs-auth"]`. */
  function SplitSegments(segments: seq<string>): (ap: (Option<string>, Option<string>))
    ensures |segments| >= 1 ==> ap.0 == Some(segments[0])
    ensures |segments| >= 2 ==> ap.1 == Some(segments[1])
    ensures |segments| == 0 ==> ap.0.None?
    ensures |segments| <= 1 ==> ap.1.None?
  {
    (if |segments| >= 1 then Some(segments[0]) else None, if |segments| >= 2 then Some(segments[1]) else None)
  }

  /** The redirect after a callback: to the login page with the error's message
      and code when it threw an `AuthServiceError`; otherwise, success or any other
      error, to `afterLoginRedirect ?? "/"`. The target the service returned is
      not used. */
  function CallbackRedirect(requestUrl: Url, config: OAuthConfig, r: Result<string, Thrown>): (resp: Response)
    ensures resp.Redirect? && resp.url.origin == requestUrl.origin
    ensures r.Failure? && r.error.AuthServiceError? ==>
              resp.url == Url(requestUrl.origin, Coalesce(config.loginPage, DefaultLoginPage),
                              [Param("message", r.error.message), Param("code", IntToString(r.error.code))])
    ensures !(r.Failure? && r.error.AuthServiceError?) ==>
              resp.url == Url(requestUrl.origin, Coalesce(config.afterLoginRedirect, DefaultAfterOAuthLoginRedirect), [])
  {
    if r.Failure? && r.error.AuthServiceError? then
      ErrorRedirectQuery(requestUrl, Coalesce(config.loginPage, DefaultLoginPage), r.error.message, IntToString(r.error.code));
      Redirect(AuthHandlerUrl(requestUrl, Coalesce(config.loginPage, DefaultLoginPage),
                              Some([Field("message", Some(r.error.message)), Field("code", Some(IntToString(r.error.code)))])))
    else
      Redirect(AuthHandlerUrl(requestUrl, Coalesce(config.afterLoginRedirect, DefaultAfterOAuthLoginRedirect), None))
  }

  /** `handleGet(request, action, provider, OAuthConfig)`. */
  function GetOutcome(st: Cookies, env: Env, configs: Providers, requestUrl: Url, action: Option<string>,
                      provider: Option<string>): (out: (Result<Response, Thrown>, Cookies))
    ensures (action == Some("oauth") || action == Some("callback")) && !ValidProvider(configs, provider) ==>
              out == (Failure(InvalidProvider), st)
    ensures action == Some("session") ==> out == (Success(JsonResponse(200, SessionBody(SessionOf(st.session)))), st)
    ensures action != Some("session") && action != Some("oauth") && action != Some("callback") ==>
              out == (Failure(UnknownAction), st)
    ensures action == Some("oauth") && ValidProvider(configs, provider) ==>
              var (url, st1) := AuthorizeOutcome(st, configs.value[provider.value], None, env.stateUuid, env.verifierUuid, env.sha256);
              out == (Success(Redirect(url)), st1)
    ensures action == Some("callback") && ValidProvider(configs, provider) ==>
              var config := configs.value[provider.value];
              var (r, st1) := CallbackOutcome(st, provider.value, config, requestUrl.query, env.idp);
              out == (Success(CallbackRedirect(requestUrl, config, r)), st1)
    ensures out.1.session != st.session ==> action == Some("callback")
  {
    if (action == Some("oauth") || action == Some("callback")) && !ValidProvider(configs, provider) then
      (Failure(InvalidProvider), st)
    else if action == Some("session") then
      (Success(JsonResponse(200, SessionBody(SessionOf(st.session)))), st)
    else if action == Some("oauth") then
      var config := configs.value[provider.value];
      var (url, st1) := AuthorizeOutcome(st, config, None, env.stateUuid, env.verifierUuid, env.sha256);
      (Success(Redirect(url)), st1)
    else if action == Some("callback") then
      var config := configs.value[provider.value];
      var (r, st1) := CallbackOutcome(st, provider.value, config, requestUrl.query, env.idp);
      (Success(CallbackRedirect(requestUrl, config, r)), st1)
    else (Failure(UnknownAction), st)
  }

  /** `handlePost(action, authType, data)`. */
  function PostOutcome(st: Cookies, env: Env, action: Option<string>, authType: Json, data: Json)
    : (out: (Result<Response, Thrown>, Cookies))
    ensures action == Some("challenge") ==>
              var c := ChallengeResult(env.challenge, data);
              out == (if c.Success? then Success(JsonResponse(200, ChallengeBody(c.value))) else Failure(c.error), st)
    ensures action == Some("signup") ==> out.1 == AuthOutcome(st, SignUpOp, authType, data, env.idp).1
    ensures action == Some("signup") ==>
              var r := AuthResult(SignUpOp, authType, data, env.idp);
              out.0 == if r.Success? then Success(JsonResponse(200, AuthBody(Some(r.value)))) else Failure(r.error)
    ensures action == Some("signin") ==> out.1 == AuthOutcome(st, SignInOp, authType, data, env.idp).1
    ensures action == Some("signin") ==>
              var r := AuthResult(SignInOp, authType, data, env.idp);
              out.0 == if r.Success? then Success(JsonResponse(200, AuthBody(Some(r.value)))) else Failure(r.error)
    ensures action == Some("logout") ==> out.1 == SignoutOutcome(st, env.idp).1
    ensures action == Some("logout") ==>
              var r := SignoutOutcome(st, env.idp).0;
              out.0 == if r.Success? then Success(JsonResponse(200, AuthBody(None))) else Failure(r.error)
    ensures action != Some("signup") && action != Some("signin") && action != Some("logout") ==> out.1 == st
    ensures action != Some("challenge") && action != Some("signup") && action != Some("signin") && action != Some("logout") ==>
              out.0 == Failure(UnknownAction)
    ensures out.1.oauth == st.oauth
  {
    if action == Some("challenge") then
      match ChallengeResult(env.challenge, data)
      case Failure(e) => (Failure(e), st)
      case Success(d) => (Success(JsonResponse(200, ChallengeBody(d))), st)
    else if action == Some("signup") || action == Some("signin") then
      var op := if action == Some("signup") then SignUpOp else SignInOp;
      var (r, st1) := AuthOutcome(st, op, authType, data, env.idp);
      if r.Failure? then (Failure(r.error), st1) else (Success(JsonResponse(200, AuthBody(Some(r.value)))), st1)
    else if action == Some("logout") then
      var (r, st1) := SignoutOutcome(st, env.idp);
      if r.Failure? then (Failure(r.error), st1) else (Success(JsonResponse(200, AuthBody(None))), st1)
    else (Failure(UnknownAction), st)
  }

  /** The `catch` of `handleAuthRoute`: an `AuthServiceError` becomes 422 with its
      message and code; anything else becomes 500 with no detail. */
  function Envelope(e: Thrown): (resp: Response)
    ensures e.AuthServiceError? ==> resp == JsonResponse(422, ErrorBody(e.message, e.code))
    ensures !e.AuthServiceError? ==> resp == JsonResponse(500, UnknownErrorBody)
  {
    match e
    case AuthServiceError(message, code) => JsonResponse(422, ErrorBody(message, code))
    case _ => JsonResponse(500, UnknownErrorBody)
  }

  /** `handleAuthRoute(request, action, provider)`. */
  function RouteOutcome(st: Cookies, env: Env, configs: Providers, request: Request, action: Option<string>,
                        provider: Option<string>): (out: (Response, Cookies))
    ensures request.verb != "GET" && request.verb != "POST" ==> out == (Envelope(UnsupportedMethod), st)
    ensures request.verb == "POST" && request.body == Some(JNull) ==> out == (JsonResponse(500, UnknownErrorBody), st)
  {
    var (r, st1) :=
      if request.verb == "GET" then GetOutcome(st, env, configs, request.url, action, provider)
      else if request.verb == "POST" then
        match ParseAuthRequest(request.body)
        case Failure(e) => (Failure(e), st)
        case Success(d) => PostOutcome(st, env, action, d.authType, d.data)
      else (Failure(UnsupportedMethod), st);
    (if r.Success? then r.value else Envelope(r.error), st1)
  }

  // ----- properties of the dispatcher -----

  /** "oauth" and "callback" with a missing or unknown provider answer 422
      "Invalid provider"/400 and change nothing. */
  lemma InvalidProviderRejected(st: Cookies, env: Env, configs: Providers, request: Request, action: Option<string>,
                                provider: Option<string>)
    requires request.verb == "GET" && (action == Some("oauth") || action == Some("callback"))
    requires !ValidProvider(configs, provider)
    ensures RouteOutcome(st, env, configs, request, action, provider)
         == (JsonResponse(422, ErrorBody("Invalid provider", 400)), st)
  {
  }

  /** A method other than GET and POST answers 422 with code 405. */
  lemma UnsupportedMethodRejected(st: Cookies, env: Env, configs: Providers, request: Request, action: Option<string>,
                                  provider: Option<string>)
    requires request.verb != "GET" && request.verb != "POST"
    ensures RouteOutcome(st, env, configs, request, action, provider)
         == (JsonResponse(422, ErrorBody("Unsupported method", 405)), st)
  {
  }

  /** GET "session" returns the filtered session, `null` included, and ignores
      the provider segment. */
  lemma SessionRoute(st: Cookies, env: Env, configs: Providers, request: Request, provider: Option<string>)
    requires request.verb == "GET"
    ensures RouteOutcome(st, env, configs, request, Some("session"), provider)
         == (JsonResponse(200, SessionBody(SessionOf(st.session))), st)
  {
  }

  /** Any other GET action answers 422 "Unknown action"/400. */
  lemma UnknownGetAction(st: Cookies, env: Env, configs: Providers, request: Request, action: Option<string>,
                         provider: Option<string>)
    requires request.verb == "GET"
    requires action != Some("session") && action != Some("oauth") && action != Some("callback")
    ensures RouteOutcome(st, env, configs, request, action, provider)
         == (JsonResponse(422, ErrorBody("Unknown action", 400)), st)
  {
  }

  /** An unknown POST action answers 422 "Unknown action"/400 (once the body has
      been read) and changes nothing. */
  lemma UnknownPostAction(st: Cookies, env: Env, configs: Providers, request: Request, action: Option<string>,
                          provider: Option<string>)
    requires request.verb == "POST" && request.body != Some(JNull)
    requires action !in {Some("challenge"), Some("signup"), Some("signin"), Some("logout")}
    ensures RouteOutcome(st, env, configs, request, action, provider)
         == (JsonResponse(422, ErrorBody("Unknown action", 400)), st)
  {
  }

  /** The "oauth" route never passes an origin path, so it never writes the
      handshake's `from`; it answers with a redirect to the provider's authorize
      URL carrying the state it stored. */
  lemma OAuthRouteKeepsFrom(st: Cookies, env: Env, configs: Providers, request: Request, provider: Option<string>)
    requires request.verb == "GET" && ValidProvider(configs, provider)
    ensures var config := configs.value[provider.value];
            var (resp, st1) := RouteOutcome(st, env, configs, request, Some("oauth"), provider);
            resp == Redirect(AuthorizeUrl(config.authorizeUrl, env.stateUuid, config.pkce, Verifier(env.verifierUuid), env.sha256))
            && st1.oauth.from == st.oauth.from && st1.session == st.session
            && st1.oauth.authState == Some(env.stateUuid)
  {
  }

  /** Every callback answers with a redirect: to the login page carrying the
      error when the service threw an `AuthServiceError`, else to
      `afterLoginRedirect ?? "/"`, never to the stored `from`. */
  lemma CallbackAlwaysRedirects(st: Cookies, env: Env, configs: Providers, request: Request, provider: Option<string>)
    requires request.verb == "GET" && ValidProvider(configs, provider)
    ensures var config := configs.value[provider.value];
            var (r, st1) := CallbackOutcome(st, provider.value, config, request.url.query, env.idp);
            RouteOutcome(st, env, configs, request, Some("callback"), provider) == (CallbackRedirect(request.url, config, r), st1)
  {
  }

  /** A state mismatch on the callback lands on the login page with
      `message=Invalid state&code=400` and leaves both cookies as they were. */
  lemma CallbackMismatchRedirect(st: Cookies, env: Env, configs: Providers, request: Request, provider: Option<string>)
    requires request.verb == "GET" && ValidProvider(configs, provider)
    requires LastValue(request.url.query, "state") != st.oauth.authState
    ensures var config := configs.value[provider.value];
            RouteOutcome(st, env, configs, request, Some("callback"), provider)
            == (Redirect(Url(request.url.origin, Coalesce(config.loginPage, DefaultLoginPage),
                             [Param("message", "Invalid state"), Param("code", "400")])), st)
  {
    var config := configs.value[provider.value];
    MismatchKeepsHandshake(st, provider.value, config, request.url.query, env.idp);
    assert IntToString(400) == "400";
  }

  /** POST "signup" that succeeds answers the new session and a following GET
      "session" returns it when its fields are non-empty. */
  lemma SignupThenSession(st: Cookies, env: Env, configs: Providers, post: Request, get: Request,
                          provider: Option<string>, provider': Option<string>)
    requires post.verb == "POST" && get.verb == "GET"
    requires ParseAuthRequest(post.body).Success?
    requires var d := ParseAuthRequest(post.body).value; AuthResult(SignUpOp, d.authType, d.data, env.idp).Success?
    requires var d := ParseAuthRequest(post.body).value; var s := AuthResult(SignUpOp, d.authType, d.data, env.idp).value;
             s.userId != "" && s.sessionToken != ""
    ensures var d := ParseAuthRequest(post.body).value;
            var s := AuthResult(SignUpOp, d.authType, d.data, env.idp).value;
            var (resp, st1) := RouteOutcome(st, env, configs, post, Some("signup"), provider);
            resp == JsonResponse(200, AuthBody(Some(s)))
            && RouteOutcome(st1, env, configs, get, Some("session"), provider') == (JsonResponse(200, SessionBody(Some(s))), st1)
  {
  }

  /** POST "logout" that succeeds answers `session: null`, and a following GET
      "session" returns `null`. */
  lemma LogoutThenSession(st: Cookies, env: Env, configs: Providers, post: Request, get: Request,
                          provider: Option<string>, provider': Option<string>)
    requires post.verb == "POST" && get.verb == "GET" && post.body != Some(JNull)
    requires SignoutOutcome(st, env.idp).0.Success?
    ensures var (resp, st1) := RouteOutcome(st, env, configs, post, Some("logout"), provider);
            resp == JsonResponse(200, AuthBody(None))
            && RouteOutcome(st1, env, configs, get, Some("session"), provider').0 == JsonResponse(200, SessionBody(None))
  {
  }

  /** Errors that are not the layer's own reach the client only as 500 "Unknown
      auth error": a `Parse.Error` is never passed through unwrapped. */
  lemma NonServiceErrorsHidden(message: string, code: int)
    ensures Envelope(ParseError(message, code)) == JsonResponse(500, UnknownErrorBody)
    ensures Envelope(OtherError) == JsonResponse(500, UnknownErrorBody)
  {
  }

  // ----- the handlers over the cookie store -----

  /** `handleGet`. */
  method HandleGet(store: SessionService, env: Env, configs: Providers, requestUrl: Url, action: Option<string>,
                   provider: Option<string>) returns (r: Result<Response, Thrown>)
    modifies store
    ensures (r, store.Contents()) == GetOutcome(old(store.Contents()), env, configs, requestUrl, action, provider)
  {
    var isValidProvider := ValidProvider(configs, provider);
    if (action == Some("oauth") || action == Some("callback")) && !isValidProvider {
      return Failure(InvalidProvider);
    }
    if action == Some("session") {
      var session := GetSession(store);
      return Success(JsonResponse(200, SessionBody(session)));
    } else if action == Some("oauth") {
      var url := RedirectToOAuth(store, configs.value[provider.value], None, env.stateUuid, env.verifierUuid, env.sha256);
      return Success(Redirect(url));
    } else if action == Some("callback") {
      var config := configs.value[provider.value];
      var outcome := HandleOAuthCallback(store, provider.value, config, requestUrl.query, env.idp);
      var response := CallbackRedirectResponse(requestUrl, config, outcome);
      return Success(response);
    }
    r := Failure(UnknownAction);
  }

  /** The two `redirectFromAuthHandler` calls of the callback branch. */
  method CallbackRedirectResponse(requestUrl: Url, config: OAuthConfig, outcome: Result<string, Thrown>)
    returns (resp: Response)
    ensures resp == CallbackRedirect(requestUrl, config, outcome)
  {
    if outcome.Failure? && outcome.error.AuthServiceError? {
      resp := RedirectFromAuthHandler(requestUrl, Coalesce(config.loginPage, DefaultLoginPage),
                                      Some([Field("message", Some(outcome.error.message)),
                                            Field("code", Some(IntToString(outcome.error.code)))]));
    } else {
      resp := RedirectFromAuthHandler(requestUrl, Coalesce(config.afterLoginRedirect, DefaultAfterOAuthLoginRedirect), None);
    }
  }

  /** `handlePost`. */
  method HandlePost(store: SessionService, env: Env, action: Option<string>, authType: Json, data: Json)
    returns (r: Result<Response, Thrown>)
    modifies store
    ensures (r, store.Contents()) == PostOutcome(old(store.Contents()), env, action, authType, data)
  {
    if action == Some("challenge") {
      var challengeData := ChallengeResult(env.challenge, data);
      if challengeData.Failure? {
        return Failure(challengeData.error);
      }
      return Success(JsonResponse(200, ChallengeBody(challengeData.value)));
    } else if action == Some("signup") {
      var session := Signup(store, authType, data, env.idp);
      if session.Failure? {
        return Failure(session.error);
      }
      return Success(JsonResponse(200, AuthBody(Some(session.value))));
    } else if action == Some("signin") {
      var session := Signin(store, authType, data, env.idp);
      if session.Failure? {
        return Failure(session.error);
      }
      return Success(JsonResponse(200, AuthBody(Some(session.value))));
    } else if action == Some("logout") {
      var done := Signout(store, env.idp);
      if done.Failure? {
        return Failure(done.error);
      }
      return Success(JsonResponse(200, AuthBody(None)));
    }
    r := Failure(UnknownAction);
  }

  /** `handleAuthRoute(request, action, provider)`. */
  method HandleAuthRoute(store: SessionService, env: Env, configs: Providers, request: Request, action: Option<string>,
                         provider: Option<string>) returns (resp: Response)
    modifies store
    ensures (resp, store.Contents()) == RouteOutcome(old(store.Contents()), env, configs, request, action, provider)
  {
    var r: Result<Response, Thrown>;
    if request.verb == "GET" {
      r := HandleGet(store, env, configs, request.url, action, provider);
    } else if request.verb == "POST" {
      var parsed := ParseAuthRequest(request.body);
      if parsed.Failure? {
        r := Failure(parsed.error);
      } else {
        r := HandlePost(store, env, action, parsed.value.authType, parsed.value.data);
      }
    } else {
      r := Failure(UnsupportedMethod);
    }
    if r.Success? {
      resp := r.value;
    } else {
      resp := Envelope(r.error);
    }
  }

  /** The `GET`/`POST` export of `createAuth`: splits the catch-all segments. */
  method HttpHandler(store: SessionService, env: Env, configs: Providers, request: Request, segments: seq<string>)
    returns (resp: Response)
    modifies store
    ensures (resp, store.Contents())
         == RouteOutcome(old(store.Contents()), env, configs, request, SplitSegments(segments).0, SplitSegments(segments).1)
  {
    var (action, provider) := SplitSegments(segments);
    resp := HandleAuthRoute(store, env, configs, request, action, provider);
  }
}
