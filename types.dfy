/** Values shared by the whole authentication layer: JSON payloads, thrown
    errors, the contents of the two session cookies, URLs, HTTP responses,
    the OAuth provider configuration and the calls made to the identity
    provider (Parse). */
module Types {

  datatype Option<+T> = None | Some(value: T)

  datatype Result<+T, +E> = Success(value: T) | Failure(error: E)

  /** JavaScript truthiness of a `string | undefined`: `undefined` and `""` are falsy. */
  predicate Present(s: Option<string>)
  {
    s.Some? && s.value != ""
  }

  /** `a ?? b`: the default replaces only `undefined`, not `""`. */
  function Coalesce<T>(a: Option<T>, b: T): T
  {
    if a.Some? then a.value else b
  }

  /** A JSON value as `request.json()` produces it (numbers are integers here). */
  datatype Json =
    | JNull
    | JBool(b: bool)
    | JNum(n: int)
    | JStr(s: string)
    | JArr(items: seq<Json>)
    | JObj(fields: map<string, Json>)

  /** JavaScript truthiness of a JSON value. */
  predicate Truthy(j: Json)
  {
    match j
    case JNull => false
    case JBool(b) => b
    case JNum(n) => n != 0
    case JStr(s) => s != ""
    case _ => true
  }

  /** What a call can throw: the layer's own `AuthServiceError`, a `Parse.Error`
      from the identity provider, or anything else (a `TypeError`, a network failure). */
  datatype Thrown =
    | AuthServiceError(message: string, code: int)
    | ParseError(message: string, code: int)
    | OtherError

  /** A signed-in user as the handlers and the client see it. */
  datatype Session = Session(userId: string, sessionToken: string)

  /** The contents of the primary session cookie; a field that was never
      written (or was destroyed) is `None`. */
  datatype SessionRecord = SessionRecord(userId: Option<string>, sessionToken: Option<string>)

  /** The contents of the OAuth handshake cookie. */
  datatype OAuthRecord = OAuthRecord(authState: Option<string>, codeVerifier: Option<string>, from: Option<string>)

  const NoSessionRecord := SessionRecord(None, None)
  const NoOAuthRecord := OAuthRecord(None, None, None)

  /** A Parse user after a successful sign-up or log-in: its object id and session token. */
  datatype User = User(id: string, sessionToken: string)

  /** The calls the layer makes into the Parse SDK. */
  datatype ParseCall =
    | SignUp(username: Json, email: Json, password: Json)
    | LogIn(username: Json, password: Json)
    | LogInWith(provider: Json, authData: Json)
    | LinkWith(provider: Json, authData: Json, linkEmail: Option<Json>, linkUsername: Option<Json>)
    | CloudRun(name: string, sessionToken: Option<string>)

  /** The identity provider as an oracle: each call resolves with a user (ignored
      for `CloudRun`) or throws. */
  type IdentityProvider = ParseCall -> Result<User, Thrown>

  /** One `name=value` pair of a URL query, in order. */
  datatype Param = Param(key: string, value: string)

  /** A parsed absolute URL. */
  datatype Url = Url(origin: string, pathname: string, query: seq<Param>)

  /** A relative reference (a path with an optional query) resolved against a request URL. */
  datatype Location = Location(path: string, query: seq<Param>)

  /** An incoming request: its method (`verb`), its parsed URL, the raw query string
      (`search`, `""` or starting with `?`) and its body (`None` when it is not valid JSON). */
  datatype Request = Request(verb: string, url: Url, search: string, body: Option<Json>)

  /** JSON bodies the route handlers send. */
  datatype Body =
    | SessionBody(session: Option<Session>)          // { success: true, session }
    | AuthBody(session: Option<Session>)             // AuthResponse(true, session, null)
    | ChallengeBody(challengeData: Json)             // ChallengeResponse(true, data, null)
    | ErrorBody(message: string, code: int)          // { success: false, error: { message, code } }
    | UnknownErrorBody                               // { success: false, error: "Unknown auth error" }

  datatype Response =
    | JsonResponse(status: int, body: Body)
    | Redirect(url: Url)
    | Next

  /** One configured OAuth provider. `callBackFunction` turns the callback's
      query (plus the stored code verifier) into a third-party payload, or throws. */
  datatype OAuthConfig = OAuthConfig(
    authorizeUrl: Url,
    callBackFunction: (string, map<string, Option<string>>) -> Result<Json, Thrown>,
    loginPage: Option<string>,
    afterLoginRedirect: Option<string>,
    pkce: bool)

  const DefaultLoginPage := "/login"
  const DefaultAfterOAuthLoginRedirect := "/"

  /** Cookie lifetimes in seconds: the primary session's default and the handshake's. */
  const SessionTtlSeconds := 60 * 60 * 24 * 365
  const OAuthSessionTtlSeconds := 60 * 2

  /** The two `authType` values. */
  const Credentials := JStr("credentials")
  const ThirdParty := JStr("third-party")

  /** Name of the cloud function that invalidates a session token. */
  const LogoutFunctionName := "logout"

  /** `Parse.Error.OBJECT_NOT_FOUND`. */
  const ObjectNotFound := 101
}
