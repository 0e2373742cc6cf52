/** `authMiddleware` of the older tree: the same decision, but `from` carries
    the path alone. */
module LegacyMiddleware {
  import opened Types
  import opened Urls
  import Middleware

  /** `authMiddleware(request, response, redirectTo)` of the older tree. */
  function AuthMiddleware(request: Request, rec: SessionRecord, redirectTo: Option<Location>): (r: Response)
    ensures r == Next <==> Present(rec.userId)
    ensures r.Redirect? ==>
              var target := Coalesce(redirectTo, Middleware.DefaultTarget);
              r.url.origin == request.url.origin && r.url.pathname == target.path
              && ValuesOf(r.url.query, "from") == [request.url.pathname]
              && (forall k :: k != "from" ==> ValuesOf(r.url.query, k) == ValuesOf(target.query, k))
  {
    var target := Coalesce(redirectTo, Middleware.DefaultTarget);
    if !Present(rec.userId) then
      var url := Middleware.Resolve(target, request.url);
      Redirect(url.(query := SetParam(url.query, "from", request.url.pathname)))
    else Next
  }

  /** The query string of the page asked for is dropped: the decision does not
      depend on it, and it agrees with the newer guard when there is none. */
  lemma SearchDropped(request: Request, rec: SessionRecord, redirectTo: Option<Location>, search: string)
    ensures AuthMiddleware(request, rec, redirectTo) == AuthMiddleware(request.(search := search), rec, redirectTo)
    ensures request.search == "" ==>
              AuthMiddleware(request, rec, redirectTo) == Middleware.AuthMiddleware(request, rec, redirectTo)
  {
    assert request.url.pathname + "" == request.url.pathname;
  }

  /** Only the user id is checked, never the token. */
  lemma TokenNotChecked(request: Request, userId: string, token: Option<string>, redirectTo: Option<Location>)
    requires userId != ""
    ensures AuthMiddleware(request, SessionRecord(Some(userId), token), redirectTo) == Next
  {
  }

  /** Without a target the redirect goes to "/login". */
  lemma DefaultsToLoginPage(request: Request, rec: SessionRecord)
    requires !Present(rec.userId)
    ensures AuthMiddleware(request, rec, None) == Redirect(Url(request.url.origin, "/login", [Param("from", request.url.pathname)]))
  {
  }
}
