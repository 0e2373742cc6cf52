/** `authMiddleware` of the newer tree: pass the request on when the primary
    cookie has a user id, otherwise redirect to the login page with the page
    asked for in `from`. */
module Middleware {
  import opened Types
  import opened Urls

  /** `new URL(redirectTo, request.url)` for a relative `redirectTo`. */
  function Resolve(target: Location, base: Url): (u: Url)
    ensures u.origin == base.origin && u.pathname == target.path && u.query == target.query
  {
    Url(base.origin, target.path, target.query)
  }

  const DefaultTarget := Location(DefaultLoginPage, [])

  /** `authMiddleware(request, response, redirectTo)` given the raw contents of
      the primary cookie; an absent `redirectTo` is the default login page. */
  function AuthMiddleware(request: Request, rec: SessionRecord, redirectTo: Option<Location>): (r: Response)
    ensures r == Next <==> Present(rec.userId)
    ensures r != Next ==> r.Redirect?
    ensures r.Redirect? ==>
              var target := Coalesce(redirectTo, DefaultTarget);
              r.url.origin == request.url.origin && r.url.pathname == target.path
              && ValuesOf(r.url.query, "from") == [request.url.pathname + request.search]
              && (forall k :: k != "from" ==> ValuesOf(r.url.query, k) == ValuesOf(target.query, k))
  {
    var target := Coalesce(redirectTo, DefaultTarget);
    if !Present(rec.userId) then
      var url := Resolve(target, request.url);
      Redirect(url.(query := SetParam(url.query, "from", request.url.pathname + request.search)))
    else Next
  }

  /** Only the user id is checked: a record with a user id passes whatever its
      token, even an absent or empty one. */
  lemma TokenNotChecked(request: Request, userId: string, token: Option<string>, redirectTo: Option<Location>)
    requires userId != ""
    ensures AuthMiddleware(request, SessionRecord(Some(userId), token), redirectTo) == Next
  {
  }

  /** Without a target the redirect goes to "/login". */
  lemma DefaultsToLoginPage(request: Request, rec: SessionRecord)
    requires !Present(rec.userId)
    ensures AuthMiddleware(request, rec, None)
         == Redirect(Url(request.url.origin, "/login", [Param("from", request.url.pathname + request.search)]))
  {
  }

  /** A `from` already in the target is replaced, not duplicated. */
  lemma FromReplaced(request: Request, rec: SessionRecord, path: string, previous: string)
    requires !Present(rec.userId)
    ensures AuthMiddleware(request, rec, Some(Location(path, [Param("from", previous)])))
         == Redirect(Url(request.url.origin, path, [Param("from", request.url.pathname + request.search)]))
  {
  }
}
