/** The `logout` cloud function on the Parse server: it finds the session row
    holding the caller's own token and destroys it, but only when the row
    belongs to the caller. */
module CloudCode {
  import opened Types

  /** A row of Parse's `_Session` class: its id, its token and its owner's id. */
  datatype SessionRow = SessionRow(objectId: string, sessionToken: string, owner: Option<string>)

  const SessionNotFound := ParseError("Session not found", ObjectNotFound)

  /** `new Parse.Query(Parse.Session).equalTo("sessionToken", token).first()`:
      the first row holding the token, if any. */
  function FirstWithToken(rows: seq<SessionRow>, token: string): (r: Option<nat>)
    ensures r.Some? ==> r.value < |rows| && rows[r.value].sessionToken == token
    ensures r.Some? ==> forall j :: 0 <= j < r.value ==> rows[j].sessionToken != token
    ensures r.None? <==> forall j :: 0 <= j < |rows| ==> rows[j].sessionToken != token
    decreases |rows|
  {
    if rows == [] then None
    else if rows[0].sessionToken == token then Some(0)
    else
      match FirstWithToken(rows[1..], token)
      case None => None
      case Some(i) => Some(i + 1)
  }

  /** `parseAuthLogout(request)` on the table: with no caller the property read
      throws; a missing row and a row owned by someone else fail alike with
      `OBJECT_NOT_FOUND` "Session not found"; otherwise that one row is removed. */
  function LogoutOutcome(rows: seq<SessionRow>, caller: Option<User>): (out: (Result<(), Thrown>, seq<SessionRow>))
    ensures out.0.Failure? ==> out.1 == rows
    ensures caller.None? ==> out.0 == Failure(OtherError)
    ensures caller.Some? && FirstWithToken(rows, caller.value.sessionToken).None? ==> out.0 == Failure(SessionNotFound)
    ensures caller.Some? && FirstWithToken(rows, caller.value.sessionToken).Some? ==>
              var i := FirstWithToken(rows, caller.value.sessionToken).value;
              (rows[i].owner != Some(caller.value.id) ==> out.0 == Failure(SessionNotFound))
              && (rows[i].owner == Some(caller.value.id) ==> out == (Success(()), rows[..i] + rows[i + 1..]))
  {
    match caller
    case None => (Failure(OtherError), rows)
    case Some(user) =>
      match FirstWithToken(rows, user.sessionToken)
      case None => (Failure(SessionNotFound), rows)
      case Some(i) =>
        if rows[i].owner != Some(user.id) then (Failure(SessionNotFound), rows)
        else (Success(()), rows[..i] + rows[i + 1..])
  }

  /** Removing the row at `k` keeps every other row, in order. */
  lemma RemovedAt(rows: seq<SessionRow>, k: nat)
    requires k < |rows|
    ensures var rows' := rows[..k] + rows[k + 1..];
            |rows'| == |rows| - 1
            && multiset(rows') + multiset{rows[k]} == multiset(rows)
            && (forall j :: 0 <= j < k ==> rows'[j] == rows[j])
            && (forall j :: k < j < |rows| ==> rows'[j - 1] == rows[j])
  {
    assert rows == rows[..k] + [rows[k]] + rows[k + 1..];
  }

  /** Logout succeeds exactly when the caller's token is found on a row the
      caller owns; it then removes that row and nothing else. */
  lemma LogoutRemovesOnlyOwnSession(rows: seq<SessionRow>, caller: User)
    ensures var (r, rows') := LogoutOutcome(rows, Some(caller));
            var i := FirstWithToken(rows, caller.sessionToken);
            (r.Success? <==> i.Some? && rows[i.value].owner == Some(caller.id))
            && (r.Success? ==> |rows'| == |rows| - 1
                               && multiset(rows') + multiset{rows[i.value]} == multiset(rows)
                               && (forall j :: 0 <= j < i.value ==> rows'[j] == rows[j])
                               && (forall j :: i.value < j < |rows| ==> rows'[j - 1] == rows[j]))
  {
    var i := FirstWithToken(rows, caller.sessionToken);
    if i.Some? && rows[i.value].owner == Some(caller.id) {
      RemovedAt(rows, i.value);
    }
  }

  /** A caller cannot log out another user's session: a row owned by someone
      else keeps its number of copies, and every failure is the same
      "Session not found" as for a missing row. */
  lemma OthersSessionsSurvive(rows: seq<SessionRow>, caller: User, j: nat)
    requires j < |rows| && rows[j].owner != Some(caller.id)
    ensures multiset(LogoutOutcome(rows, Some(caller)).1)[rows[j]] == multiset(rows)[rows[j]]
    ensures LogoutOutcome(rows, Some(caller)).0.Failure? ==> LogoutOutcome(rows, Some(caller)).0 == Failure(SessionNotFound)
  {
    var i := FirstWithToken(rows, caller.sessionToken);
    if i.Some? && rows[i.value].owner == Some(caller.id) {
      RemovedAt(rows, i.value);
      assert rows[i.value] != rows[j];
    }
  }

  /** The session table. */
  class SessionTable {
    var rows: seq<SessionRow>

    constructor(rows: seq<SessionRow>)
      ensures this.rows == rows
    {
      this.rows := rows;
    }

    /** `parseAuthLogout(request)`: query, two checks, then destroy. */
    method ParseAuthLogout(caller: Option<User>) returns (r: Result<(), Thrown>)
      modifies this
      ensures (r, rows) == LogoutOutcome(old(rows), caller)
    {
      if caller.None? {
        return Failure(OtherError);
      }
      var user := caller.value;
      var found := FirstWithToken(rows, user.sessionToken);
      if found.None? {
        return Failure(SessionNotFound);
      }
      var i := found.value;
      if rows[i].owner != Some(user.id) {
        return Failure(SessionNotFound);
      }
      rows := rows[..i] + rows[i + 1..];
      r := Success(());
    }
  }
}
