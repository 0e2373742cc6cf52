/** The older `SessionService`: the same two cookies, but `getSession` returns
    the cookie's contents as they are and the handshake holds the state alone. */
module LegacySessionManager {
  import opened Types

  datatype LegacyOAuthRecord = LegacyOAuthRecord(authState: Option<string>)

  const NoLegacyOAuthRecord := LegacyOAuthRecord(None)

  datatype LegacyCookies = LegacyCookies(session: SessionRecord, oauth: LegacyOAuthRecord)

  class LegacySessionService {
    var session: SessionRecord
    var oauth: LegacyOAuthRecord

    constructor(session: SessionRecord, oauth: LegacyOAuthRecord)
      ensures this.session == session && this.oauth == oauth
    {
      this.session := session;
      this.oauth := oauth;
    }

    function Contents(): LegacyCookies
      reads this
    {
      LegacyCookies(session, oauth)
    }

    /** `setSession(data)`: both fields written, then saved. */
    method SetSession(data: Session)
      modifies this
      ensures session == SessionRecord(Some(data.userId), Some(data.sessionToken))
      ensures oauth == old(oauth)
    {
      var s := session;
      s := s.(userId := Some(data.userId));
      s := s.(sessionToken := Some(data.sessionToken));
      session := s;
    }

    /** `getSession()`: the cookie's contents with no presence check; the
        session object exists even when the cookie is empty. */
    method GetSession() returns (r: SessionRecord)
      ensures r == session
    {
      r := session;
    }

    /** `deleteSession()`. */
    method DeleteSession()
      modifies this
      ensures session == NoSessionRecord
      ensures oauth == old(oauth)
    {
      session := NoSessionRecord;
    }

    /** `getSessionMiddleware(request, response)`. */
    method GetSessionMiddleware() returns (r: SessionRecord)
      ensures r == session
    {
      r := session;
    }

    /** `getOAuthSession()`. */
    method GetOAuthSession() returns (r: LegacyOAuthRecord)
      ensures r == oauth
    {
      r := oauth;
    }

    /** `setOAuthSession(authState)`: only the state is written. */
    method SetOAuthSession(authState: string)
      modifies this
      ensures oauth == LegacyOAuthRecord(Some(authState))
      ensures session == old(session)
    {
      var s := oauth;
      s := s.(authState := Some(authState));
      oauth := s;
    }

    /** `deleteOAuthSession()`. */
    method DeleteOAuthSession()
      modifies this
      ensures oauth == NoLegacyOAuthRecord
      ensures session == old(session)
    {
      oauth := NoLegacyOAuthRecord;
    }
  }
}
