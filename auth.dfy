/** The newer `AuthService`: sign-up and sign-in dispatched on `authType` and
    the payload's shape, sign-out through the `logout` cloud function, and the
    OAuth authorization-code handshake (state parameter of section 4.1.1 of
    RFC 6749, PKCE with S256 of section 4.2 of RFC 7636). Each operation that
    touches the cookies is a pure `...Outcome` function from the cookies
    before to the result and the cookies after, and a method that performs the
    same steps in the source's order through `SessionService`. */
module Auth {
  import opened Types
  import opened Text
  import opened Encoding
  import opened Urls
  import opened Lib
  import opened SessionManager

  /** The private helper a dispatch selects, with the payload fields it reads. */
  datatype Route =
    | CredentialsRoute(email: Json, password: Json)
    | ThirdPartyRoute(providerName: Json, authData: Json, linkEmail: Option<Json>, linkUsername: Option<Json>)

  datatype Operation = SignUpOp | SignInOp

  const InvalidAuthType := AuthServiceError("Invalid auth type", 400)

  function Lookup(fields: map<string, Json>, k: string): Option<Json>
  {
    if k in fields then Some(fields[k]) else None
  }

  /** The two `if`s of `signup`/`signin`: the credentials helper when `authType`
      is `"credentials"` and the payload passes `isCredentialsAuth`, the
      third-party helper when it is `"third-party"` and the payload passes
      `isThirdPartyAuth`; otherwise "Invalid auth type"/400. A guard that throws
      propagates its error. */
  function Dispatch(authType: Json, data: Json): (r: Result<Route, Thrown>)
    ensures (r.Success? && r.value.CredentialsRoute?) <==> authType == Credentials && IsCredentialsAuth(data) == Success(true)
    ensures (r.Success? && r.value.ThirdPartyRoute?) <==> authType == ThirdParty && IsThirdPartyAuth(data) == Success(true)
    ensures r.Success? && r.value.CredentialsRoute? ==>
              r.value == CredentialsRoute(data.fields["email"], data.fields["password"])
    ensures r.Success? && r.value.ThirdPartyRoute? ==>
              r.value == ThirdPartyRoute(data.fields["providerName"], data.fields["authData"],
                                         Lookup(data.fields, "email"), Lookup(data.fields, "username"))
    ensures r.Failure? ==> r.error == InvalidAuthType || r.error == OtherError
    ensures authType != Credentials && authType != ThirdParty ==> r == Failure(InvalidAuthType)
  {
    if authType == Credentials then
      match IsCredentialsAuth(data)
      case Failure(e) => Failure(e)
      case Success(ok) =>
        if ok then Success(CredentialsRoute(data.fields["email"], data.fields["password"]))
        else Failure(InvalidAuthType)
    else if authType == ThirdParty then
      match IsThirdPartyAuth(data)
      case Failure(e) => Failure(e)
      case Success(ok) =>
        if ok then
          Success(ThirdPartyRoute(data.fields["providerName"], data.fields["authData"],
                                  Lookup(data.fields, "email"), Lookup(data.fields, "username")))
        else Failure(InvalidAuthType)
    else Failure(InvalidAuthType)
  }

  /** The `catch` of every operation: a `Parse.Error` keeps its message and code;
      anything else, the layer's own "Invalid auth type"/400 included, becomes
      the operation's fallback message with code 500. */
  function Rewrap(e: Thrown, fallback: string): (r: Thrown)
    ensures r.AuthServiceError?
    ensures e.ParseError? ==> r.message == e.message && r.code == e.code
    ensures !e.ParseError? ==> r == AuthServiceError(fallback, 500)
  {
    match e
    case ParseError(message, code) => AuthServiceError(message, code)
    case _ => AuthServiceError(fallback, 500)
  }

  function Fallback(op: Operation): string
  {
    match op
    case SignUpOp => "Unknown signup error"
    case SignInOp => "Unknown login error"
  }

  /** The Parse call each helper makes: sign-up with the email as username,
      log-in, or log-in with the provider's auth data (third-party sign-up is
      third-party sign-in). */
  function LoginCall(route: Route, op: Operation): ParseCall
  {
    match route
    case CredentialsRoute(email, password) =>
      if op == SignUpOp then SignUp(email, email, password) else LogIn(email, password)
    case ThirdPartyRoute(providerName, authData, _, _) => LogInWith(providerName, authData)
  }

  /** `createSessionFromUser`. */
  function SessionFromUser(u: User): (s: Session)
    ensures s.userId == u.id && s.sessionToken == u.sessionToken
  {
    Session(u.id, u.sessionToken)
  }

  /** The value `signup`/`signin` resolves with or the error it throws. */
  function AuthResult(op: Operation, authType: Json, data: Json, idp: IdentityProvider): (r: Result<Session, Thrown>)
    ensures r.Failure? ==> r.error.AuthServiceError?
    ensures r.Success? ==> (Dispatch(authType, data).Success?
                        && idp(LoginCall(Dispatch(authType, data).value, op)) == Success(User(r.value.userId, r.value.sessionToken)))
    ensures Dispatch(authType, data).Failure? ==> r == Failure(Rewrap(Dispatch(authType, data).error, Fallback(op)))
    ensures Dispatch(authType, data).Success? && idp(LoginCall(Dispatch(authType, data).value, op)).Failure? ==>
              r == Failure(Rewrap(idp(LoginCall(Dispatch(authType, data).value, op)).error, Fallback(op)))
    ensures Dispatch(authType, data).Success? && idp(LoginCall(Dispatch(authType, data).value, op)).Success? ==>
              r == Success(SessionFromUser(idp(LoginCall(Dispatch(authType, data).value, op)).value))
  {
    match Dispatch(authType, data)
    case Failure(e) => Failure(Rewrap(e, Fallback(op)))
    case Success(route) =>
      match idp(LoginCall(route, op))
      case Failure(e) => Failure(Rewrap(e, Fallback(op)))
      case Success(u) => Success(SessionFromUser(u))
  }

  /** `signup`/`signin` on the cookies: only a success writes the primary cookie,
      with exactly the session returned; the handshake cookie is never touched. */
  function AuthOutcome(st: Cookies, op: Operation, authType: Json, data: Json, idp: IdentityProvider): (out: (Result<Session, Thrown>, Cookies))
    ensures out.0 == AuthResult(op, authType, data, idp)
    ensures out.0.Success? ==> out.1 == st.(session := Stored(out.0.value))
    ensures out.0.Failure? ==> out.1 == st
  {
    var r := AuthResult(op, authType, data, idp);
    (r, if r.Success? then st.(session := Stored(r.value)) else st)
  }

  /** An `authType`/payload mismatch never succeeds and never reaches Parse: it
      ends as the fallback message with code 500, whatever the provider would do. */
  lemma MismatchNeverSucceeds(op: Operation, authType: Json, data: Json, idp: IdentityProvider, idp': IdentityProvider)
    requires !(authType == Credentials && IsCredentialsAuth(data) == Success(true))
    requires !(authType == ThirdParty && IsThirdPartyAuth(data) == Success(true))
    ensures AuthResult(op, authType, data, idp) == Failure(AuthServiceError(Fallback(op), 500))
    ensures AuthResult(op, authType, data, idp) == AuthResult(op, authType, data, idp')
  {
  }

  /** Third-party sign-up behaves as third-party sign-in: the same call, the
      same session, the same cookies; only the fallback message differs. */
  lemma ThirdPartySignupIsSignin(st: Cookies, data: Json, idp: IdentityProvider)
    ensures AuthOutcome(st, SignUpOp, ThirdParty, data, idp).0.Success?
        <==> AuthOutcome(st, SignInOp, ThirdParty, data, idp).0.Success?
    ensures AuthOutcome(st, SignUpOp, ThirdParty, data, idp).1 == AuthOutcome(st, SignInOp, ThirdParty, data, idp).1
    ensures AuthOutcome(st, SignUpOp, ThirdParty, data, idp).0.Success? ==>
              AuthOutcome(st, SignUpOp, ThirdParty, data, idp).0 == AuthOutcome(st, SignInOp, ThirdParty, data, idp).0
    ensures AuthOutcome(st, SignUpOp, ThirdParty, data, idp).0.Failure? ==>
              var up, inn := AuthOutcome(st, SignUpOp, ThirdParty, data, idp).0.error, AuthOutcome(st, SignInOp, ThirdParty, data, idp).0.error;
              up == inn || (up == AuthServiceError("Unknown signup error", 500) && inn == AuthServiceError("Unknown login error", 500))
  {
    match Dispatch(ThirdParty, data)
    case Failure(e) =>
    case Success(route) =>
      assert LoginCall(route, SignUpOp) == LoginCall(route, SignInOp);
  }

  /** A successful sign-in followed by `getSession` returns the same session
      whenever Parse gave a non-empty id and token. */
  lemma SigninThenGetSession(st: Cookies, op: Operation, authType: Json, data: Json, idp: IdentityProvider)
    requires AuthOutcome(st, op, authType, data, idp).0.Success?
    requires var s := AuthOutcome(st, op, authType, data, idp).0.value; s.userId != "" && s.sessionToken != ""
    ensures SessionOf(AuthOutcome(st, op, authType, data, idp).1.session) == Some(AuthOutcome(st, op, authType, data, idp).0.value)
  {
  }

  // ----- sign-out -----

  const NoSessionFound := AuthServiceError("No session found", 400)

  /** `signout`: with no session, "No session found"/400 before any call; else
      the logout cloud function runs with the stored token, and only its success
      destroys the primary cookie. */
  function SignoutOutcome(st: Cookies, idp: IdentityProvider): (out: (Result<(), Thrown>, Cookies))
    ensures SessionOf(st.session).None? ==> out == (Failure(NoSessionFound), st)
    ensures out.0.Success? <==> (SessionOf(st.session).Some?
                              && idp(CloudRun(LogoutFunctionName, st.session.sessionToken)).Success?)
    ensures out.0.Success? ==> out.1 == st.(session := NoSessionRecord)
    ensures out.0.Failure? ==> out.1 == st && out.0.error.AuthServiceError?
  {
    match SessionOf(st.session)
    case None => (Failure(NoSessionFound), st)
    case Some(s) =>
      match idp(CloudRun(LogoutFunctionName, Some(s.sessionToken)))
      case Failure(e) => (Failure(Rewrap(e, "Unknown logout error")), st)
      case Success(_) => (Success(()), st.(session := NoSessionRecord))
  }

  /** With no session, sign-out fails the same way whatever the provider does:
      no call is made and nothing changes. */
  lemma SignoutWithoutSession(st: Cookies, idp: IdentityProvider, idp': IdentityProvider)
    requires SessionOf(st.session).None?
    ensures SignoutOutcome(st, idp) == SignoutOutcome(st, idp') == (Failure(NoSessionFound), st)
  {
  }

  /** After a successful sign-out, `getSession` returns `null`. */
  lemma SignoutThenGetSession(st: Cookies, idp: IdentityProvider)
    requires SignoutOutcome(st, idp).0.Success?
    ensures SessionOf(SignoutOutcome(st, idp).1.session).None?
  {
  }

  // ----- OAuth authorize -----

  /** The two PKCE parameters: the challenge, then the method `S256`. */
  function AppendPkce(q: seq<Param>, challenge: string): (r: seq<Param>)
    ensures ValuesOf(r, "code_challenge") == ValuesOf(q, "code_challenge") + [challenge]
    ensures ValuesOf(r, "code_challenge_method") == ValuesOf(q, "code_challenge_method") + ["S256"]
    ensures forall k :: k != "code_challenge" && k != "code_challenge_method" ==> ValuesOf(r, k) == ValuesOf(q, k)
  {
    Append(Append(q, "code_challenge", challenge), "code_challenge_method", "S256")
  }

  /** The authorize query: the configured query with `state` appended; with
      PKCE, then `code_challenge` and `code_challenge_method=S256`. Every other
      parameter keeps its values. */
  function AuthorizeQuery(q: seq<Param>, state: string, pkce: bool, challenge: string): (r: seq<Param>)
    ensures ValuesOf(r, "state") == ValuesOf(q, "state") + [state]
    ensures !pkce ==> r == q + [Param("state", state)]
    ensures pkce ==> ValuesOf(r, "code_challenge") == ValuesOf(q, "code_challenge") + [challenge]
    ensures pkce ==> ValuesOf(r, "code_challenge_method") == ValuesOf(q, "code_challenge_method") + ["S256"]
    ensures forall k :: k != "state" && k != "code_challenge" && k != "code_challenge_method" ==>
              ValuesOf(r, k) == ValuesOf(q, k)
  {
    var q1 := Append(q, "state", state);
    if pkce then AppendPkce(q1, challenge) else q1
  }

  /** The authorize URL of `redirectToOAuth`: the configured URL with the
      authorize query, whose challenge is that of the verifier. */
  function AuthorizeUrl(base: Url, state: string, pkce: bool, verifier: string, sha256: seq<byte> -> Digest): (u: Url)
    ensures u.origin == base.origin && u.pathname == base.pathname
    ensures u.query == AuthorizeQuery(base.query, state, pkce, CodeChallenge(verifier, sha256))
    ensures ValuesOf(u.query, "state") == ValuesOf(base.query, "state") + [state]
    ensures pkce ==> ValuesOf(u.query, "code_challenge") == ValuesOf(base.query, "code_challenge") + [CodeChallenge(verifier, sha256)]
  {
    base.(query := AuthorizeQuery(base.query, state, pkce, CodeChallenge(verifier, sha256)))
  }

  /** `redirectToOAuth(config, from)` with the random state and verifier UUIDs as
      inputs: the state is stored and sent; with PKCE the verifier is stored and
      its challenge sent; without it, no verifier is written. */
  function AuthorizeOutcome(st: Cookies, config: OAuthConfig, from: Option<string>, stateUuid: string, verifierUuid: string,
                            sha256: seq<byte> -> Digest): (out: (Url, Cookies))
    ensures out.0 == AuthorizeUrl(config.authorizeUrl, stateUuid, config.pkce, Verifier(verifierUuid), sha256)
    ensures out.1.session == st.session
    ensures out.1.oauth.authState == Some(stateUuid)
    ensures config.pkce && Present(Some(Verifier(verifierUuid))) ==> out.1.oauth.codeVerifier == Some(Verifier(verifierUuid))
    ensures !config.pkce ==> out.1.oauth.codeVerifier == st.oauth.codeVerifier
    ensures Present(from) ==> out.1.oauth.from == from
    ensures !Present(from) ==> out.1.oauth.from == st.oauth.from
  {
    var codeVerifier := if config.pkce then Some(Verifier(verifierUuid)) else None;
    var url := AuthorizeUrl(config.authorizeUrl, stateUuid, config.pkce, Verifier(verifierUuid), sha256);
    (url, st.(oauth := WithOAuth(st.oauth, stateUuid, codeVerifier, from)))
  }

  /** A UUID from `crypto.randomUUID()` always gives a non-empty verifier, so
      with PKCE the stored verifier is exactly the one whose challenge was sent. */
  lemma AuthorizeStoresVerifier(st: Cookies, config: OAuthConfig, from: Option<string>, stateUuid: string,
                                verifierUuid: string, sha256: seq<byte> -> Digest)
    requires config.pkce && IsUuid(verifierUuid)
    ensures AuthorizeOutcome(st, config, from, stateUuid, verifierUuid, sha256).1.oauth.codeVerifier == Some(Verifier(verifierUuid))
    ensures |Verifier(verifierUuid)| == 32
  {
    VerifierShape(verifierUuid);
  }

  // ----- OAuth callback -----

  /** `state` of `{ state, ...rest } = searchParamsToObject(params)`. */
  function StateParam(obj: map<string, string>): Option<string>
  {
    if "state" in obj then Some(obj["state"]) else None
  }

  /** `state !== authState` negated: strict equality, under which two absent
      values are equal. */
  predicate StateAccepted(received: Option<string>, stored: Option<string>)
  {
    received == stored
  }

  /** The check as evidently intended by section 10.12 of RFC 6749: a handshake
      must exist and the received state must equal its state. */
  predicate StateAcceptedStrict(received: Option<string>, stored: Option<string>)
  {
    Present(stored) && received == stored
  }

  /** `{ ...rest, codeVerifier }`: every query value except `state`, plus the
      stored verifier under `codeVerifier` (overriding a query value of that name). */
  function CallbackArgs(obj: map<string, string>, codeVerifier: Option<string>): (args: map<string, Option<string>>)
    ensures "state" !in args
    ensures "codeVerifier" in args && args["codeVerifier"] == codeVerifier
    ensures forall k :: k in obj && k != "state" && k != "codeVerifier" ==> k in args && args[k] == Some(obj[k])
    ensures forall k :: k in args ==> k == "codeVerifier" || (k in obj && k != "state")
  {
    (map k | k in obj && k != "state" :: Some(obj[k]))["codeVerifier" := codeVerifier]
  }

  /** The redirect target after a successful callback: `from || afterLoginRedirect || "/"`. */
  function PostLoginTarget(from: Option<string>, afterLoginRedirect: Option<string>): (t: string)
    ensures Present(from) ==> t == from.value
    ensures !Present(from) && Present(afterLoginRedirect) ==> t == afterLoginRedirect.value
    ensures !Present(from) && !Present(afterLoginRedirect) ==> t == DefaultAfterOAuthLoginRedirect
    ensures t != ""
  {
    if Present(from) then from.value
    else if Present(afterLoginRedirect) then afterLoginRedirect.value
    else DefaultAfterOAuthLoginRedirect
  }

  const InvalidState := AuthServiceError("Invalid state", 400)

  /** What happens once the state has been accepted: the handshake is destroyed,
      the provider's transform runs on the query and the stored verifier, and its
      payload is signed in as a third party. */
  function AcceptedCallback(st: Cookies, providerName: string, config: OAuthConfig, obj: map<string, string>,
                            idp: IdentityProvider): (out: (Result<string, Thrown>, Cookies))
    ensures out.1.oauth == NoOAuthRecord
    ensures var data := config.callBackFunction(providerName, CallbackArgs(obj, st.oauth.codeVerifier));
            data.Failure? ==> out == (Failure(data.error), st.(oauth := NoOAuthRecord))
    ensures var data := config.callBackFunction(providerName, CallbackArgs(obj, st.oauth.codeVerifier));
            data.Success? && AuthResult(SignInOp, ThirdParty, data.value, idp).Failure? ==>
              out == (Failure(AuthResult(SignInOp, ThirdParty, data.value, idp).error), st.(oauth := NoOAuthRecord))
    ensures var data := config.callBackFunction(providerName, CallbackArgs(obj, st.oauth.codeVerifier));
            data.Success? && AuthResult(SignInOp, ThirdParty, data.value, idp).Success? ==>
              out == (Success(PostLoginTarget(st.oauth.from, config.afterLoginRedirect)),
                      Cookies(Stored(AuthResult(SignInOp, ThirdParty, data.value, idp).value), NoOAuthRecord))
  {
    var st1 := st.(oauth := NoOAuthRecord);
    match config.callBackFunction(providerName, CallbackArgs(obj, st.oauth.codeVerifier))
    case Failure(e) => (Failure(e), st1)
    case Success(data) =>
      var (r, st2) := AuthOutcome(st1, SignInOp, ThirdParty, data, idp);
      if r.Failure? then (Failure(r.error), st2)
      else (Success(PostLoginTarget(st.oauth.from, config.afterLoginRedirect)), st2)
  }

  /** `handleOAuthCallback(providerName, config, params)`. */
  function CallbackOutcome(st: Cookies, providerName: string, config: OAuthConfig, params: seq<Param>,
                           idp: IdentityProvider): (out: (Result<string, Thrown>, Cookies))
    ensures !StateAccepted(StateParam(ParamsObject(params)), st.oauth.authState) ==> out == (Failure(InvalidState), st)
    ensures StateAccepted(StateParam(ParamsObject(params)), st.oauth.authState) ==>
              out == AcceptedCallback(st, providerName, config, ParamsObject(params), idp) && out.1.oauth == NoOAuthRecord
    ensures out.0.Success? ==> out.0.value == PostLoginTarget(st.oauth.from, config.afterLoginRedirect)
    ensures out.0.Success? ==>
              var data := config.callBackFunction(providerName, CallbackArgs(ParamsObject(params), st.oauth.codeVerifier));
              data.Success? && AuthResult(SignInOp, ThirdParty, data.value, idp).Success?
              && out.1 == Cookies(Stored(AuthResult(SignInOp, ThirdParty, data.value, idp).value), NoOAuthRecord)
  {
    var obj := ParamsObject(params);
    if !StateAccepted(StateParam(obj), st.oauth.authState) then (Failure(InvalidState), st)
    else AcceptedCallback(st, providerName, config, obj, idp)
  }

  /** The handshake is consumed: once a callback has passed the check, replaying
      any callback that carries a `state` is rejected and changes nothing. */
  lemma ReplayRejected(st: Cookies, providerName: string, config: OAuthConfig, params: seq<Param>,
                       params': seq<Param>, idp: IdentityProvider)
    requires StateAccepted(StateParam(ParamsObject(params)), st.oauth.authState)
    requires HasKey(params', "state")
    ensures var st1 := CallbackOutcome(st, providerName, config, params, idp).1;
            CallbackOutcome(st1, providerName, config, params', idp) == (Failure(InvalidState), st1)
  {
    ParamsObjectLastWins(params', "state");
  }

  /** A callback whose `state` differs from the stored one fails before anything
      is deleted or called. */
  lemma MismatchKeepsHandshake(st: Cookies, providerName: string, config: OAuthConfig, params: seq<Param>,
                               idp: IdentityProvider)
    requires LastValue(params, "state") != st.oauth.authState
    ensures CallbackOutcome(st, providerName, config, params, idp) == (Failure(InvalidState), st)
  {
    ParamsObjectLastWins(params, "state");
  }

  /** The `state` the callback compares is the last one in its query. */
  lemma StateParamIsLast(params: seq<Param>)
    ensures StateParam(ParamsObject(params)) == LastValue(params, "state")
  {
    ParamsObjectLastWins(params, "state");
  }

  /** Authorize then callback with the state sent back: the check passes, and
      with PKCE the provider's transform receives the very verifier whose
      challenge was put in the authorize URL. */
  lemma HandshakeBindsVerifier(st: Cookies, config: OAuthConfig, from: Option<string>, stateUuid: string,
                               verifierUuid: string, sha256: seq<byte> -> Digest, params: seq<Param>)
    requires config.pkce && IsUuid(verifierUuid)
    requires LastValue(params, "state") == Some(stateUuid)
    requires !HasKey(config.authorizeUrl.query, "code_challenge")
    ensures var (url, st1) := AuthorizeOutcome(st, config, from, stateUuid, verifierUuid, sha256);
            StateAccepted(StateParam(ParamsObject(params)), st1.oauth.authState)
            && CallbackArgs(ParamsObject(params), st1.oauth.codeVerifier)["codeVerifier"] == Some(Verifier(verifierUuid))
            && ValuesOf(url.query, "code_challenge") == [CodeChallenge(Verifier(verifierUuid), sha256)]
  {
    AuthorizeStoresVerifier(st, config, from, stateUuid, verifierUuid, sha256);
    StateParamIsLast(params);
    ValuesOfEmpty(config.authorizeUrl.query, "code_challenge");
  }

  /** The handshake completes: after authorize, a callback that sends the state
      back, whose transform and third-party sign-in succeed, returns the
      post-login target, stores the session and consumes the handshake. */
  lemma HandshakeCompletes(st: Cookies, providerName: string, config: OAuthConfig, from: Option<string>,
                           stateUuid: string, verifierUuid: string, sha256: seq<byte> -> Digest,
                           params: seq<Param>, idp: IdentityProvider)
    requires LastValue(params, "state") == Some(stateUuid)
    requires var st1 := AuthorizeOutcome(st, config, from, stateUuid, verifierUuid, sha256).1;
             var data := config.callBackFunction(providerName, CallbackArgs(ParamsObject(params), st1.oauth.codeVerifier));
             data.Success? && AuthResult(SignInOp, ThirdParty, data.value, idp).Success?
    ensures var st1 := AuthorizeOutcome(st, config, from, stateUuid, verifierUuid, sha256).1;
            var data := config.callBackFunction(providerName, CallbackArgs(ParamsObject(params), st1.oauth.codeVerifier));
            CallbackOutcome(st1, providerName, config, params, idp)
            == (Success(PostLoginTarget(st1.oauth.from, config.afterLoginRedirect)),
                Cookies(Stored(AuthResult(SignInOp, ThirdParty, data.value, idp).value), NoOAuthRecord))
  {
    StateParamIsLast(params);
  }

  /** As written, a callback with no `state` is accepted when no handshake
      exists at all: the provider's transform and the sign-in run. */
  lemma AbsentStateAccepted(st: Cookies, providerName: string, config: OAuthConfig, params: seq<Param>,
                            idp: IdentityProvider)
    requires st.oauth == NoOAuthRecord && !HasKey(params, "state")
    ensures StateAccepted(StateParam(ParamsObject(params)), st.oauth.authState)
    ensures CallbackOutcome(st, providerName, config, params, idp)
         == AcceptedCallback(st, providerName, config, ParamsObject(params), idp)
  {
    ParamsObjectLastWins(params, "state");
  }

  /** The intended check rejects every callback when no handshake exists, and
      agrees with the written one whenever a state is stored. */
  lemma StrictStateCheck(received: Option<string>, stored: Option<string>)
    ensures !StateAcceptedStrict(received, None)
    ensures StateAcceptedStrict(received, stored) ==> StateAccepted(received, stored)
    ensures Present(stored) ==> (StateAcceptedStrict(received, stored) <==> StateAccepted(received, stored))
  {
  }

  /** `handleOAuthCallback` with the intended check: without a stored state
      every callback fails and changes nothing; with one it behaves as written. */
  function StrictCallbackOutcome(st: Cookies, providerName: string, config: OAuthConfig, params: seq<Param>,
                                 idp: IdentityProvider): (out: (Result<string, Thrown>, Cookies))
    ensures !Present(st.oauth.authState) ==> out == (Failure(InvalidState), st)
    ensures Present(st.oauth.authState) ==> out == CallbackOutcome(st, providerName, config, params, idp)
  {
    var obj := ParamsObject(params);
    if !StateAcceptedStrict(StateParam(obj), st.oauth.authState) then (Failure(InvalidState), st)
    else AcceptedCallback(st, providerName, config, obj, idp)
  }

  /** Under the intended check a consumed handshake rejects every later
      callback, whether or not it carries a `state`. */
  lemma StrictReplayRejected(st: Cookies, providerName: string, config: OAuthConfig, params: seq<Param>,
                             params': seq<Param>, idp: IdentityProvider)
    requires StateAcceptedStrict(StateParam(ParamsObject(params)), st.oauth.authState)
    ensures var st1 := StrictCallbackOutcome(st, providerName, config, params, idp).1;
            StrictCallbackOutcome(st1, providerName, config, params', idp) == (Failure(InvalidState), st1)
  {
  }

  /** `challenge(data)` with the request to the Parse server as a parameter:
      its error is re-wrapped with the fallback "Unknown challenge error". */
  function ChallengeResult(challenge: Json -> Result<Json, Thrown>, data: Json): (r: Result<Json, Thrown>)
    ensures r.Failure? ==> (challenge(data).Failure? && r.error == Rewrap(challenge(data).error, "Unknown challenge error"))
    ensures r.Success? ==> challenge(data) == r
  {
    match challenge(data)
    case Failure(e) => Failure(Rewrap(e, "Unknown challenge error"))
    case Success(d) => Success(d)
  }

  // ----- the service over the cookie store -----

  /** `searchParamsToObject(params)`: `forEach` writing `params[key] = value`. */
  method SearchParamsToObject(params: seq<Param>) returns (obj: map<string, string>)
    ensures obj == ParamsObject(params)
    ensures forall k :: k in obj <==> HasKey(params, k)
  {
    obj := map[];
    var i := 0;
    while i < |params|
      invariant 0 <= i <= |params|
      invariant obj == ParamsObject(params[..i])
    {
      assert params[..i + 1][..i] == params[..i];
      obj := obj[params[i].key := params[i].value];
      i := i + 1;
    }
    assert params[..|params|] == params;
    forall k
      ensures k in obj <==> HasKey(params, k)
    {
      ParamsObjectLastWins(params, k);
    }
  }

  method Authenticate(store: SessionService, op: Operation, authType: Json, data: Json, idp: IdentityProvider)
    returns (r: Result<Session, Thrown>)
    modifies store
    ensures (r, store.Contents()) == AuthOutcome(old(store.Contents()), op, authType, data, idp)
  {
    var route := Dispatch(authType, data);
    if route.Failure? {
      return Failure(Rewrap(route.error, Fallback(op)));
    }
    var user := idp(LoginCall(route.value, op));
    if user.Failure? {
      return Failure(Rewrap(user.error, Fallback(op)));
    }
    var session := SessionFromUser(user.value);
    store.SetSession(session);
    r := Success(session);
  }

  /** `signup(authType, data)`. */
  method Signup(store: SessionService, authType: Json, data: Json, idp: IdentityProvider) returns (r: Result<Session, Thrown>)
    modifies store
    ensures (r, store.Contents()) == AuthOutcome(old(store.Contents()), SignUpOp, authType, data, idp)
  {
    r := Authenticate(store, SignUpOp, authType, data, idp);
  }

  /** `signin(authType, data)`. */
  method Signin(store: SessionService, authType: Json, data: Json, idp: IdentityProvider) returns (r: Result<Session, Thrown>)
    modifies store
    ensures (r, store.Contents()) == AuthOutcome(old(store.Contents()), SignInOp, authType, data, idp)
  {
    r := Authenticate(store, SignInOp, authType, data, idp);
  }

  /** `signout()`. */
  method Signout(store: SessionService, idp: IdentityProvider) returns (r: Result<(), Thrown>)
    modifies store
    ensures (r, store.Contents()) == SignoutOutcome(old(store.Contents()), idp)
  {
    var session := store.GetSession();
    if session.None? {
      return Failure(NoSessionFound);
    }
    var called := idp(CloudRun(LogoutFunctionName, Some(session.value.sessionToken)));
    if called.Failure? {
      return Failure(Rewrap(called.error, "Unknown logout error"));
    }
    store.DeleteSession();
    r := Success(());
  }

  /** `redirectToOAuth(config, from)`. */
  method RedirectToOAuth(store: SessionService, config: OAuthConfig, from: Option<string>, stateUuid: string,
                         verifierUuid: string, sha256: seq<byte> -> Digest) returns (url: Url)
    modifies store
    ensures (url, store.Contents()) == AuthorizeOutcome(old(store.Contents()), config, from, stateUuid, verifierUuid, sha256)
  {
    var state := stateUuid;
    var codeVerifier: Option<string> := None;
    url := config.authorizeUrl;
    url := url.(query := Append(url.query, "state", state));
    if config.pkce {
      codeVerifier := Some(Verifier(verifierUuid));
      var codeChallenge := CodeChallenge(codeVerifier.value, sha256);
      url := url.(query := Append(url.query, "code_challenge", codeChallenge));
      url := url.(query := Append(url.query, "code_challenge_method", "S256"));
    }
    store.SetOAuthSession(state, codeVerifier, from);
  }

  /** `handleOAuthCallback(providerName, config, params)`. */
  method HandleOAuthCallback(store: SessionService, providerName: string, config: OAuthConfig, params: seq<Param>,
                             idp: IdentityProvider) returns (r: Result<string, Thrown>)
    modifies store
    ensures (r, store.Contents()) == CallbackOutcome(old(store.Contents()), providerName, config, params, idp)
  {
    var handshake := store.GetOAuthSession();
    var obj := SearchParamsToObject(params);
    var state := if "state" in obj then Some(obj["state"]) else None;
    if state != handshake.authState {
      return Failure(InvalidState);
    }
    store.DeleteOAuthSession();
    var data := config.callBackFunction(providerName, CallbackArgs(obj, handshake.codeVerifier));
    if data.Failure? {
      return Failure(data.error);
    }
    var signedIn := Signin(store, ThirdParty, data.value, idp);
    if signedIn.Failure? {
      return Failure(signedIn.error);
    }
    r := Success(PostLoginTarget(handshake.from, config.afterLoginRedirect));
  }

  /** `getSession()`. */
  method GetSession(store: SessionService) returns (r: Option<Session>)
    ensures r == SessionOf(store.session)
  {
    r := store.GetSession();
  }
}
