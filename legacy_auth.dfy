/** The older `AuthService`: the same dispatch and error re-wrapping as the
    newer one, a third-party sign-in that links the provider to a new user
    carrying the payload's `email` and `username`, an OAuth handshake with the
    state alone (no PKCE) whose callback returns the session, and guards on
    `getSession` and `signout` that test the session object itself. */
module LegacyAuth {
  import opened Types
  import opened Urls
  import opened LegacySessionManager
  import SessionManager
  import Lib
  import Auth

  /** `if (value) parseUser.set(key, value)`: a field is sent only when truthy. */
  function TruthyOnly(v: Option<Json>): (r: Option<Json>)
    ensures r.Some? <==> v.Some? && Truthy(v.value)
    ensures r.Some? ==> r == v
  {
    if v.Some? && Truthy(v.value) then v else None
  }

  /** The Parse call of each helper: credentials as in the newer tree; the
      third-party helper calls `linkWith` on a new user. */
  function LoginCall(route: Auth.Route, op: Auth.Operation): ParseCall
  {
    match route
    case CredentialsRoute(_, _) => Auth.LoginCall(route, op)
    case ThirdPartyRoute(providerName, authData, email, username) =>
      LinkWith(providerName, authData, TruthyOnly(email), TruthyOnly(username))
  }

  /** The value `signup`/`signin` resolves with or the error it throws. */
  function AuthResult(op: Auth.Operation, authType: Json, data: Json, idp: IdentityProvider): (r: Result<Session, Thrown>)
    ensures r.Failure? ==> r.error.AuthServiceError?
    ensures r.Success? ==> (Auth.Dispatch(authType, data).Success?
                        && idp(LoginCall(Auth.Dispatch(authType, data).value, op)) == Success(User(r.value.userId, r.value.sessionToken)))
    ensures Auth.Dispatch(authType, data).Failure? ==>
              r == Failure(Auth.Rewrap(Auth.Dispatch(authType, data).error, Auth.Fallback(op)))
    ensures Auth.Dispatch(authType, data).Success? && idp(LoginCall(Auth.Dispatch(authType, data).value, op)).Failure? ==>
              r == Failure(Auth.Rewrap(idp(LoginCall(Auth.Dispatch(authType, data).value, op)).error, Auth.Fallback(op)))
    ensures Auth.Dispatch(authType, data).Success? && idp(LoginCall(Auth.Dispatch(authType, data).value, op)).Success? ==>
              r == Success(Auth.SessionFromUser(idp(LoginCall(Auth.Dispatch(authType, data).value, op)).value))
  {
    match Auth.Dispatch(authType, data)
    case Failure(e) => Failure(Auth.Rewrap(e, Auth.Fallback(op)))
    case Success(route) =>
      match idp(LoginCall(route, op))
      case Failure(e) => Failure(Auth.Rewrap(e, Auth.Fallback(op)))
      case Success(u) => Success(Auth.SessionFromUser(u))
  }

  function AuthOutcome(st: LegacyCookies, op: Auth.Operation, authType: Json, data: Json, idp: IdentityProvider)
    : (out: (Result<Session, Thrown>, LegacyCookies))
    ensures out.0 == AuthResult(op, authType, data, idp)
    ensures out.0.Success? ==> out.1 == st.(session := SessionManager.Stored(out.0.value))
    ensures out.0.Failure? ==> out.1 == st
  {
    var r := AuthResult(op, authType, data, idp);
    (r, if r.Success? then st.(session := SessionManager.Stored(r.value)) else st)
  }

  /** On the credentials path the two trees agree exactly. */
  lemma CredentialsAgree(op: Auth.Operation, data: Json, idp: IdentityProvider)
    ensures AuthResult(op, Credentials, data, idp) == Auth.AuthResult(op, Credentials, data, idp)
  {
  }

  /** A mismatch is re-wrapped into the fallback message with code 500 here too,
      with no call to Parse. */
  lemma MismatchNeverSucceeds(op: Auth.Operation, authType: Json, data: Json, idp: IdentityProvider)
    requires !(authType == Credentials && Lib.IsCredentialsAuth(data) == Success(true))
    requires !(authType == ThirdParty && Lib.IsThirdPartyAuth(data) == Success(true))
    ensures AuthResult(op, authType, data, idp) == Failure(AuthServiceError(Auth.Fallback(op), 500))
  {
  }

  /** The third-party call carries `email` and `username` exactly when they are
      truthy in the payload. */
  lemma ThirdPartyLinksTruthyFields(op: Auth.Operation, fields: map<string, Json>)
    requires "providerName" in fields && "authData" in fields
    ensures var call := LoginCall(Auth.Dispatch(ThirdParty, JObj(fields)).value, op);
            call.LinkWith?
            && call.provider == fields["providerName"] && call.authData == fields["authData"]
            && (call.linkEmail.Some? <==> "email" in fields && Truthy(fields["email"]))
            && (call.linkUsername.Some? <==> "username" in fields && Truthy(fields["username"]))
  {
  }

  // ----- getSession and signout -----

  /** `getSession()` as written: `SessionService.getSession()` returns the session
      object whether or not the cookie holds anything, so `!session` never holds
      and the contents come back as they are. */
  function GetSessionResult(rec: SessionRecord): (r: Result<SessionRecord, Thrown>)
    ensures r.Success? && r.value == rec
  {
    Success(rec)
  }

  /** With no cookie at all, the written guard lets the empty record through
      instead of throwing "No session found". */
  lemma GetSessionNeverThrows()
    ensures GetSessionResult(NoSessionRecord) == Success(NoSessionRecord)
    ensures SessionManager.SessionOf(NoSessionRecord).None?
  {
  }

  /** `getSession()` as evidently intended: "No session found"/400 exactly when
      the cookie does not hold a user id and a token. */
  function GuardedGetSessionResult(rec: SessionRecord): (r: Result<Session, Thrown>)
    ensures r.Failure? <==> SessionManager.SessionOf(rec).None?
    ensures r.Failure? ==> r.error == Auth.NoSessionFound
    ensures r.Success? ==> SessionManager.Stored(r.value) == rec
  {
    match SessionManager.SessionOf(rec)
    case None => Failure(Auth.NoSessionFound)
    case Some(s) => Success(s)
  }

  /** `signout()` as written: the guard never fires, so the logout function is
      called with whatever token is stored, possibly none. */
  function SignoutOutcome(st: LegacyCookies, idp: IdentityProvider): (out: (Result<(), Thrown>, LegacyCookies))
    ensures out.0.Success? <==> idp(CloudRun(LogoutFunctionName, st.session.sessionToken)).Success?
    ensures out.0.Success? ==> out.1 == st.(session := NoSessionRecord)
    ensures out.0.Failure? ==> out.1 == st && out.0.error.AuthServiceError?
  {
    match idp(CloudRun(LogoutFunctionName, st.session.sessionToken))
    case Failure(e) => (Failure(Auth.Rewrap(e, "Unknown logout error")), st)
    case Success(_) => (Success(()), st.(session := NoSessionRecord))
  }

  /** With no session, the written sign-out still calls Parse (with no token) and
      reports success when that call succeeds: "No session found" is never thrown. */
  lemma SignoutWithoutSessionCallsLogout(st: LegacyCookies, idp: IdentityProvider, u: User)
    requires st.session == NoSessionRecord
    requires idp(CloudRun(LogoutFunctionName, None)) == Success(u)
    ensures SignoutOutcome(st, idp) == (Success(()), st)
  {
  }

  // ----- OAuth -----

  /** `redirectToOAuth(config)`: a fresh state stored, then sent as the one
      `state` parameter appended to the authorize URL. */
  function AuthorizeOutcome(st: LegacyCookies, config: OAuthConfig, stateUuid: string): (out: (Url, LegacyCookies))
    ensures out.0 == config.authorizeUrl.(query := config.authorizeUrl.query + [Param("state", stateUuid)])
    ensures ValuesOf(out.0.query, "state") == ValuesOf(config.authorizeUrl.query, "state") + [stateUuid]
    ensures out.1 == st.(oauth := LegacyOAuthRecord(Some(stateUuid)))
  {
    (config.authorizeUrl.(query := Append(config.authorizeUrl.query, "state", stateUuid)),
     st.(oauth := LegacyOAuthRecord(Some(stateUuid))))
  }

  /** `rest` of `{ state, ...rest }`, as the provider's transform receives it. */
  function CallbackArgs(obj: map<string, string>): (args: map<string, Option<string>>)
    ensures "state" !in args
    ensures forall k :: k in args <==> k in obj && k != "state"
    ensures forall k :: k in args ==> args[k] == Some(obj[k])
  {
    map k | k in obj && k != "state" :: Some(obj[k])
  }

  /** `handleOAuthCallback(providerName, config, params)`: a state mismatch
      throws "Invalid state"/400 before the handshake is deleted; on a match the
      handshake is deleted, the transform runs and its payload is signed in, and
      the session is returned. */
  function CallbackOutcome(st: LegacyCookies, providerName: string, config: OAuthConfig, params: seq<Param>,
                           idp: IdentityProvider): (out: (Result<Session, Thrown>, LegacyCookies))
    ensures !Auth.StateAccepted(Auth.StateParam(ParamsObject(params)), st.oauth.authState) ==>
              out == (Failure(Auth.InvalidState), st)
    ensures Auth.StateAccepted(Auth.StateParam(ParamsObject(params)), st.oauth.authState) ==>
              out.1.oauth == NoLegacyOAuthRecord
    ensures var data := config.callBackFunction(providerName, CallbackArgs(ParamsObject(params)));
            Auth.StateAccepted(Auth.StateParam(ParamsObject(params)), st.oauth.authState) && data.Failure? ==>
              out == (Failure(data.error), st.(oauth := NoLegacyOAuthRecord))
    ensures var data := config.callBackFunction(providerName, CallbackArgs(ParamsObject(params)));
            Auth.StateAccepted(Auth.StateParam(ParamsObject(params)), st.oauth.authState) && data.Success? ==>
              out == AuthOutcome(st.(oauth := NoLegacyOAuthRecord), Auth.SignInOp, ThirdParty, data.value, idp)
    ensures out.0.Success? ==>
              var data := config.callBackFunction(providerName, CallbackArgs(ParamsObject(params)));
              data.Success? && out.0 == AuthResult(Auth.SignInOp, ThirdParty, data.value, idp)
              && out.1 == LegacyCookies(SessionManager.Stored(out.0.value), NoLegacyOAuthRecord)
  {
    var obj := ParamsObject(params);
    if !Auth.StateAccepted(Auth.StateParam(obj), st.oauth.authState) then (Failure(Auth.InvalidState), st)
    else
      var st1 := st.(oauth := NoLegacyOAuthRecord);
      match config.callBackFunction(providerName, CallbackArgs(obj))
      case Failure(e) => (Failure(e), st1)
      case Success(data) => AuthOutcome(st1, Auth.SignInOp, ThirdParty, data, idp)
  }

  /** The older handshake is consumed as well: after an accepted callback, any
      callback carrying a `state` is rejected and changes nothing. */
  lemma ReplayRejected(st: LegacyCookies, providerName: string, config: OAuthConfig, params: seq<Param>,
                       params': seq<Param>, idp: IdentityProvider)
    requires Auth.StateAccepted(Auth.StateParam(ParamsObject(params)), st.oauth.authState)
    requires HasKey(params', "state")
    ensures var st1 := CallbackOutcome(st, providerName, config, params, idp).1;
            CallbackOutcome(st1, providerName, config, params', idp) == (Failure(Auth.InvalidState), st1)
  {
    ParamsObjectLastWins(params', "state");
  }

  /** The older handshake completes: after authorize, a callback that sends the
      state back and whose transform succeeds signs the payload in as a third
      party, with the handshake consumed. */
  lemma HandshakeCompletes(st: LegacyCookies, providerName: string, config: OAuthConfig, stateUuid: string,
                           params: seq<Param>, idp: IdentityProvider)
    requires LastValue(params, "state") == Some(stateUuid)
    requires config.callBackFunction(providerName, CallbackArgs(ParamsObject(params))).Success?
    ensures var st1 := AuthorizeOutcome(st, config, stateUuid).1;
            var data := config.callBackFunction(providerName, CallbackArgs(ParamsObject(params))).value;
            CallbackOutcome(st1, providerName, config, params, idp)
            == AuthOutcome(st.(oauth := NoLegacyOAuthRecord), Auth.SignInOp, ThirdParty, data, idp)
  {
    Auth.StateParamIsLast(params);
  }

  /** Authorize then a callback that sends the state back passes the check. */
  lemma AuthorizeThenCallback(st: LegacyCookies, config: OAuthConfig, stateUuid: string, params: seq<Param>)
    requires LastValue(params, "state") == Some(stateUuid)
    ensures Auth.StateAccepted(Auth.StateParam(ParamsObject(params)), AuthorizeOutcome(st, config, stateUuid).1.oauth.authState)
  {
    Auth.StateParamIsLast(params);
  }

  // ----- the service over the cookie store -----

  method Authenticate(store: LegacySessionService, op: Auth.Operation, authType: Json, data: Json, idp: IdentityProvider)
    returns (r: Result<Session, Thrown>)
    modifies store
    ensures (r, store.Contents()) == AuthOutcome(old(store.Contents()), op, authType, data, idp)
  {
    var route := Auth.Dispatch(authType, data);
    if route.Failure? {
      return Failure(Auth.Rewrap(route.error, Auth.Fallback(op)));
    }
    var user := idp(LoginCall(route.value, op));
    if user.Failure? {
      return Failure(Auth.Rewrap(user.error, Auth.Fallback(op)));
    }
    var session := Auth.SessionFromUser(user.value);
    store.SetSession(session);
    r := Success(session);
  }

  /** `signup(authType, data)`. */
  method Signup(store: LegacySessionService, authType: Json, data: Json, idp: IdentityProvider) returns (r: Result<Session, Thrown>)
    modifies store
    ensures (r, store.Contents()) == AuthOutcome(old(store.Contents()), Auth.SignUpOp, authType, data, idp)
  {
    r := Authenticate(store, Auth.SignUpOp, authType, data, idp);
  }

  /** `signin(authType, data)`. */
  method Signin(store: LegacySessionService, authType: Json, data: Json, idp: IdentityProvider) returns (r: Result<Session, Thrown>)
    modifies store
    ensures (r, store.Contents()) == AuthOutcome(old(store.Contents()), Auth.SignInOp, authType, data, idp)
  {
    r := Authenticate(store, Auth.SignInOp, authType, data, idp);
  }

  /** `signout()`. */
  method Signout(store: LegacySessionService, idp: IdentityProvider) returns (r: Result<(), Thrown>)
    modifies store
    ensures (r, store.Contents()) == SignoutOutcome(old(store.Contents()), idp)
  {
    var session := store.GetSession();
    var called := idp(CloudRun(LogoutFunctionName, session.sessionToken));
    if called.Failure? {
      return Failure(Auth.Rewrap(called.error, "Unknown logout error"));
    }
    store.DeleteSession();
    r := Success(());
  }

  /** `redirectToOAuth(config)`. */
  method RedirectToOAuth(store: LegacySessionService, config: OAuthConfig, stateUuid: string) returns (url: Url)
    modifies store
    ensures (url, store.Contents()) == AuthorizeOutcome(old(store.Contents()), config, stateUuid)
  {
    var state := stateUuid;
    store.SetOAuthSession(state);
    url := config.authorizeUrl;
    url := url.(query := Append(url.query, "state", state));
  }

  /** `handleOAuthCallback(providerName, config, params)`. */
  method HandleOAuthCallback(store: LegacySessionService, providerName: string, config: OAuthConfig, params: seq<Param>,
                             idp: IdentityProvider) returns (r: Result<Session, Thrown>)
    modifies store
    ensures (r, store.Contents()) == CallbackOutcome(old(store.Contents()), providerName, config, params, idp)
  {
    var handshake := store.GetOAuthSession();
    var obj := Auth.SearchParamsToObject(params);
    var state := if "state" in obj then Some(obj["state"]) else None;
    if state != handshake.authState {
      return Failure(Auth.InvalidState);
    }
    store.DeleteOAuthSession();
    var data := config.callBackFunction(providerName, CallbackArgs(obj));
    if data.Failure? {
      return Failure(data.error);
    }
    r := Signin(store, ThirdParty, data.value, idp);
  }

  /** `getSession()`. */
  method GetSession(store: LegacySessionService) returns (r: Result<SessionRecord, Thrown>)
    ensures r == GetSessionResult(store.session)
  {
    var session := store.GetSession();
    r := Success(session);
  }
}
