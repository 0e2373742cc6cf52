/** The newer `SessionService`: two encrypted cookies, the primary session
    `{userId, sessionToken}` and the OAuth handshake `{authState, codeVerifier,
    from}`. Each operation loads a cookie's contents, assigns fields and saves
    them, or destroys them; the store object holds the current contents. */
module SessionManager {
  import opened Types

  /** Both cookies together. */
  datatype Cookies = Cookies(session: SessionRecord, oauth: OAuthRecord)

  /** The primary cookie after `setSession(s)`. */
  function Stored(s: Session): (rec: SessionRecord)
    ensures rec.userId == Some(s.userId) && rec.sessionToken == Some(s.sessionToken)
  {
    SessionRecord(Some(s.userId), Some(s.sessionToken))
  }

  /** What `getSession` returns for the primary cookie: the stored pair when both
      fields are non-empty, `null` otherwise. */
  function SessionOf(rec: SessionRecord): (r: Option<Session>)
    ensures r.Some? <==> Present(rec.userId) && Present(rec.sessionToken)
    ensures r.Some? ==> Stored(r.value) == rec
  {
    if Present(rec.userId) && Present(rec.sessionToken)
    then Some(Session(rec.userId.value, rec.sessionToken.value))
    else None
  }

  /** The handshake cookie after `setOAuthSession(authState, codeVerifier, from)`:
      the state is always written; the verifier and the origin only when truthy. */
  function WithOAuth(rec: OAuthRecord, authState: string, codeVerifier: Option<string>, from: Option<string>): (r: OAuthRecord)
    ensures r.authState == Some(authState)
    ensures Present(codeVerifier) ==> r.codeVerifier == codeVerifier
    ensures !Present(codeVerifier) ==> r.codeVerifier == rec.codeVerifier
    ensures Present(from) ==> r.from == from
    ensures !Present(from) ==> r.from == rec.from
  {
    var r := rec.(authState := Some(authState));
    var r := if Present(codeVerifier) then r.(codeVerifier := codeVerifier) else r;
    if Present(from) then r.(from := from) else r
  }

  /** Storing a session with both fields non-empty and reading it back gives it. */
  lemma SetThenGet(s: Session)
    requires s.userId != "" && s.sessionToken != ""
    ensures SessionOf(Stored(s)) == Some(s)
  {
  }

  /** A session with an empty field is stored but reads back as `null`. */
  lemma HalfFilledReadsAsNull(s: Session)
    requires s.userId == "" || s.sessionToken == ""
    ensures SessionOf(Stored(s)) == None
  {
  }

  /** The cookie store. */
  class SessionService {
    var session: SessionRecord
    var oauth: OAuthRecord

    constructor(session: SessionRecord, oauth: OAuthRecord)
      ensures this.session == session && this.oauth == oauth
    {
      this.session := session;
      this.oauth := oauth;
    }

    function Contents(): Cookies
      reads this
    {
      Cookies(session, oauth)
    }

    /** `setSession(data)`. */
    method SetSession(data: Session)
      modifies this
      ensures session == Stored(data)
      ensures oauth == old(oauth)
    {
      var s := session;
      s := s.(userId := Some(data.userId));
      s := s.(sessionToken := Some(data.sessionToken));
      session := s;
    }

    /** `getSession()`. */
    method GetSession() returns (r: Option<Session>)
      ensures r == SessionOf(session)
    {
      var s := session;
      if !Present(s.userId) || !Present(s.sessionToken) {
        return None;
      }
      r := Some(Session(s.userId.value, s.sessionToken.value));
    }

    /** `deleteSession()`: the primary cookie is destroyed. */
    method DeleteSession()
      modifies this
      ensures session == NoSessionRecord
      ensures oauth == old(oauth)
    {
      session := NoSessionRecord;
    }

    /** `getSessionMiddleware(request, response)`: the raw contents, unfiltered. */
    method GetSessionMiddleware() returns (r: SessionRecord)
      ensures r == session
    {
      r := session;
    }

    /** `getOAuthSession()`: the raw handshake contents. */
    method GetOAuthSession() returns (r: OAuthRecord)
      ensures r == oauth
    {
      r := oauth;
    }

    /** `setOAuthSession(authState, codeVerifier, from)`. */
    method SetOAuthSession(authState: string, codeVerifier: Option<string>, from: Option<string>)
      modifies this
      ensures oauth == WithOAuth(old(oauth), authState, codeVerifier, from)
      ensures session == old(session)
    {
      var s := oauth;
      s := s.(authState := Some(authState));
      if Present(codeVerifier) {
        s := s.(codeVerifier := codeVerifier);
      }
      if Present(from) {
        s := s.(from := from);
      }
      oauth := s;
    }

    /** `deleteOAuthSession()`: the handshake cookie is destroyed. */
    method DeleteOAuthSession()
      modifies this
      ensures oauth == NoOAuthRecord
      ensures session == old(session)
    {
      oauth := NoOAuthRecord;
    }
  }
}
