/** Request helpers of the newer tree: reading the POST body with its
    defaults, and the two structural guards on the auth payload. */
module Lib {
  import opened Types

  /** What `parseAuthRequest` hands to the POST handler. */
  datatype AuthRequestData = AuthRequestData(action: Json, authType: Json, data: Json)

  /** `j.k` on a parsed JSON value: a member of an object; `undefined` on any
      other non-null value (strings, numbers, booleans and arrays have no such
      own property). `null.k` throws a `TypeError`. */
  function Member(j: Json, k: string): (r: Result<Option<Json>, Thrown>)
    ensures r.Failure? <==> j == JNull
    ensures j.JObj? ==> r == Success(if k in j.fields then Some(j.fields[k]) else None)
  {
    match j
    case JNull => Failure(OtherError)
    case JObj(fields) => Success(if k in fields then Some(fields[k]) else None)
    case _ => Success(None)
  }

  /** `value || fallback`. */
  function OrElse(v: Option<Json>, fallback: Json): (r: Json)
    ensures v.Some? && Truthy(v.value) ==> r == v.value
    ensures !(v.Some? && Truthy(v.value)) ==> r == fallback
  {
    if v.Some? && Truthy(v.value) then v.value else fallback
  }

  /** The members `parseAuthRequest` can read: an object body's own members;
      none for an unparsable body or any other value. */
  function Members(body: Option<Json>): map<string, Json>
  {
    if body.Some? && body.value.JObj? then body.value.fields else map[]
  }

  /** The member `k` is given and truthy. */
  predicate Given(body: Option<Json>, k: string)
  {
    k in Members(body) && Truthy(Members(body)[k])
  }

  /** `parseAuthRequest`: a body that is not valid JSON (`None`) is read as `{}`;
      a falsy or missing `action`, `authType` or `data` gets `""`,
      `"credentials"` or `{}`. A body that is JSON `null` makes the property
      read throw. */
  function ParseAuthRequest(body: Option<Json>): (r: Result<AuthRequestData, Thrown>)
    ensures r.Failure? <==> body == Some(JNull)
    ensures r.Success? ==> Truthy(r.value.authType) && Truthy(r.value.data)
    ensures r.Success? ==> (Truthy(r.value.action) || r.value.action == JStr(""))
    ensures r.Success? && Given(body, "action") ==> r.value.action == Members(body)["action"]
    ensures r.Success? && !Given(body, "action") ==> r.value.action == JStr("")
    ensures r.Success? && Given(body, "authType") ==> r.value.authType == Members(body)["authType"]
    ensures r.Success? && !Given(body, "authType") ==> r.value.authType == Credentials
    ensures r.Success? && Given(body, "data") ==> r.value.data == Members(body)["data"]
    ensures r.Success? && !Given(body, "data") ==> r.value.data == JObj(map[])
  {
    var j := if body.Some? then body.value else JObj(map[]);
    match (Member(j, "action"), Member(j, "authType"), Member(j, "data"))
    case (Success(a), Success(t), Success(d)) =>
      Success(AuthRequestData(OrElse(a, JStr("")), OrElse(t, Credentials), OrElse(d, JObj(map[]))))
    case _ => Failure(OtherError)
  }

  /** An unparsable body is handled exactly as the body `{}`. */
  lemma UnparsableBodyIsEmptyObject()
    ensures ParseAuthRequest(None) == ParseAuthRequest(Some(JObj(map[])))
    ensures ParseAuthRequest(None) == Success(AuthRequestData(JStr(""), Credentials, JObj(map[])))
  {
  }

  /** Truthy members are passed on unchanged. */
  lemma ParseAuthRequestKeepsTruthy(fields: map<string, Json>)
    requires "authType" in fields && Truthy(fields["authType"])
    requires "data" in fields && Truthy(fields["data"])
    ensures ParseAuthRequest(Some(JObj(fields))).Success?
    ensures ParseAuthRequest(Some(JObj(fields))).value.authType == fields["authType"]
    ensures ParseAuthRequest(Some(JObj(fields))).value.data == fields["data"]
  {
  }

  /** `data && k1 in data && k2 in data` used as a condition: falsy data gives
      false; on an object, the keys decide whatever their values; an array has
      neither key; `in` on any other truthy value throws a `TypeError`. */
  function HasBothKeys(data: Json, k1: string, k2: string): (r: Result<bool, Thrown>)
    ensures r == Success(true) <==> data.JObj? && k1 in data.fields && k2 in data.fields
    ensures r.Failure? <==> Truthy(data) && !data.JObj? && !data.JArr?
  {
    if !Truthy(data) then Success(false)
    else match data
      case JObj(fields) => Success(k1 in fields && k2 in fields)
      case JArr(_) => Success(false)
      case _ => Failure(OtherError)
  }

  /** `isCredentialsAuth`. */
  function IsCredentialsAuth(data: Json): (r: Result<bool, Thrown>)
    ensures r == Success(true) <==> data.JObj? && "email" in data.fields && "password" in data.fields
  {
    HasBothKeys(data, "email", "password")
  }

  /** `isThirdPartyAuth`. */
  function IsThirdPartyAuth(data: Json): (r: Result<bool, Thrown>)
    ensures r == Success(true) <==> data.JObj? && "providerName" in data.fields && "authData" in data.fields
  {
    HasBothKeys(data, "providerName", "authData")
  }

  /** The guards look only at keys: a payload with all four keys passes both,
      and `{}` passes neither. */
  lemma GuardsOverlap(fields: map<string, Json>)
    requires "email" in fields && "password" in fields
    requires "providerName" in fields && "authData" in fields
    ensures IsCredentialsAuth(JObj(fields)) == Success(true)
    ensures IsThirdPartyAuth(JObj(fields)) == Success(true)
    ensures IsCredentialsAuth(JObj(map[])) == Success(false)
    ensures IsThirdPartyAuth(JObj(map[])) == Success(false)
  {
  }

  /** The defaulted `data` never makes a guard throw when the body had no `data`. */
  lemma DefaultDataPassesNoGuard(body: Option<Json>)
    requires body.None? || (body.value.JObj? && "data" !in body.value.fields)
    ensures ParseAuthRequest(body).Success?
    ensures IsCredentialsAuth(ParseAuthRequest(body).value.data) == Success(false)
    ensures IsThirdPartyAuth(ParseAuthRequest(body).value.data) == Success(false)
  {
  }
}
