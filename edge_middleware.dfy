// The Next.js edge middleware of middleware.ts: decides, from the path, the `auth-token`
// cookie and the clock, whether a page request passes, or is redirected.

module EdgeMiddleware {
  import opened Wrappers
  import opened Paths
  import opened Token

  const PROTECTED_ROUTES: seq<string> :=
    ["/dashboard", "/missions", "/drones", "/sites", "/users", "/analytics", "/settings"]

  const PUBLIC_ROUTES: seq<string> := ["/auth/login", "/auth/register"]

  /** The response: pass the request on, or redirect it to `path`, with the `redirect` query
      parameter `from` and optionally deleting the `auth-token` cookie. */
  datatype Response = Next | Redirect(path: string, from: Option<string>, deleteToken: bool)

  /** `protectedRoutes.some(route => pathname.startsWith(route))` */
  predicate IsProtected(pathname: string) {
    exists i :: 0 <= i < |PROTECTED_ROUTES| && StartsWith(pathname, PROTECTED_ROUTES[i])
  }

  predicate IsPublic(pathname: string) {
    exists i :: 0 <= i < |PUBLIC_ROUTES| && StartsWith(pathname, PUBLIC_ROUTES[i])
  }

  /** The paths `config.matcher` leaves out: whatever starts, after the leading '/', with `api`,
      `_next/static`, `_next/image` or `favicon` + any character + `ico` (the pattern's '.' is
      a regular-expression wildcard). */
  predicate Excluded(rest: string) {
    StartsWith(rest, "api") || StartsWith(rest, "_next/static") || StartsWith(rest, "_next/image") ||
    (|rest| >= 11 && rest[..7] == "favicon" && rest[8..11] == "ico")
  }

  /** `config.matcher`: `/((?!api|_next/static|_next/image|favicon.ico).*)` */
  predicate Matched(pathname: string) {
    |pathname| >= 1 && pathname[0] == '/' && !Excluded(pathname[1..])
  }

  /** `!!token`: a cookie with a non-empty value */
  predicate Authenticated(token: Option<string>) {
    token.Some? && token.value != ""
  }

  predicate HasValidToken(token: Option<string>, decode: Decoder, nowMs: int) {
    token.Some? && IsTokenValid(token.value, decode, nowMs)
  }

  /** No path is both public and protected. */
  lemma PublicIsNotProtected(pathname: string)
    ensures !(IsPublic(pathname) && IsProtected(pathname))
  {
    if IsPublic(pathname) {
      assert pathname[..5] == "/auth" by {
        var i :| 0 <= i < |PUBLIC_ROUTES| && StartsWith(pathname, PUBLIC_ROUTES[i]);
        assert pathname[..5] == PUBLIC_ROUTES[i][..5];
      }
      forall i | 0 <= i < |PROTECTED_ROUTES|
        ensures !StartsWith(pathname, PROTECTED_ROUTES[i])
      {
        assert pathname[2] == 'u' && PROTECTED_ROUTES[i][2] != 'u';
      }
    }
  }

  /** `middleware` as written: a request without a token for a public route falls through to
      the final check and is sent to the login page, which is that same public route. */
  function MiddlewareAsWritten(pathname: string, token: Option<string>, decode: Decoder, nowMs: int): (r: Response)
    ensures Authenticated(token) && IsPublic(pathname) ==>
              r == if HasValidToken(token, decode, nowMs) then Redirect(DASHBOARD_PATH, None, false) else Next
    ensures !Authenticated(token) && IsPublic(pathname) ==> r == Redirect(LOGIN_PATH, None, true)
  {
    PublicIsNotProtected(pathname);
    var isAuthenticated := Authenticated(token);
    if isAuthenticated && IsPublic(pathname) then
      if HasValidToken(token, decode, nowMs) then Redirect(DASHBOARD_PATH, None, false) else Next
    else if !isAuthenticated && IsProtected(pathname) then
      Redirect(LOGIN_PATH, Some(pathname), false)
    else if !HasValidToken(token, decode, nowMs) then
      Redirect(LOGIN_PATH, None, true)
    else Next
  }

  /** The login page cannot be reached without a token: the matcher sends it through the
      middleware, which redirects it to itself. */
  lemma LoginRedirectsToItself(token: Option<string>, decode: Decoder, nowMs: int)
    requires !Authenticated(token)
    ensures Matched(LOGIN_PATH)
    ensures MiddlewareAsWritten(LOGIN_PATH, token, decode, nowMs) == Redirect(LOGIN_PATH, None, true)
  {
    assert StartsWith(LOGIN_PATH, PUBLIC_ROUTES[0]);
    assert !Excluded(LOGIN_PATH[1..]) by {
      assert LOGIN_PATH[1..][0] == 'a' && LOGIN_PATH[1..][1] == 'u';
    }
  }

  /** `middleware` with public routes open to visitors without a token. */
  function Middleware(pathname: string, token: Option<string>, decode: Decoder, nowMs: int): (r: Response)
    // a request passes exactly when it is for a public route without a valid token, or for
    // any other route with one
    ensures r == Next <==> (IsPublic(pathname) <==> !HasValidToken(token, decode, nowMs))
    // a signed-in visitor of the login or register page goes to the dashboard
    ensures IsPublic(pathname) && HasValidToken(token, decode, nowMs) ==> r == Redirect(DASHBOARD_PATH, None, false)
    // a visitor without a token for a protected page goes to login, remembering the page
    ensures !Authenticated(token) && IsProtected(pathname) ==> r == Redirect(LOGIN_PATH, Some(pathname), false)
    // every other refused request goes to login and drops the cookie
    ensures !IsPublic(pathname) && !HasValidToken(token, decode, nowMs) && !(!Authenticated(token) && IsProtected(pathname)) ==>
              r == Redirect(LOGIN_PATH, None, true)
  {
    PublicIsNotProtected(pathname);
    var isAuthenticated := Authenticated(token);
    if isAuthenticated && IsPublic(pathname) then
      if HasValidToken(token, decode, nowMs) then Redirect(DASHBOARD_PATH, None, false) else Next
    else if !isAuthenticated && IsPublic(pathname) then
      Next
    else if !isAuthenticated && IsProtected(pathname) then
      Redirect(LOGIN_PATH, Some(pathname), false)
    else if !HasValidToken(token, decode, nowMs) then
      Redirect(LOGIN_PATH, None, true)
    else Next
  }

  /** The correction only changes the requests the source sends round in a loop. */
  lemma MiddlewareDiffersOnlyOnLoop(pathname: string, token: Option<string>, decode: Decoder, nowMs: int)
    ensures Middleware(pathname, token, decode, nowMs) != MiddlewareAsWritten(pathname, token, decode, nowMs) <==>
              !Authenticated(token) && IsPublic(pathname)
  {
  }

  /** The cookie the browser sends after following a response. */
  function CookieAfter(r: Response, token: Option<string>): Option<string> {
    if r.Redirect? && r.deleteToken then None else token
  }

  /** Following any redirect reaches a page that passes at the same instant: there are no
      redirect chains and no loops. */
  lemma RedirectSettles(pathname: string, token: Option<string>, decode: Decoder, nowMs: int)
    requires Middleware(pathname, token, decode, nowMs).Redirect?
    ensures var r := Middleware(pathname, token, decode, nowMs);
            r.path != pathname &&
            Middleware(r.path, CookieAfter(r, token), decode, nowMs) == Next
  {
    var r := Middleware(pathname, token, decode, nowMs);
    assert StartsWith(LOGIN_PATH, PUBLIC_ROUTES[0]);
    assert StartsWith(DASHBOARD_PATH, PROTECTED_ROUTES[0]);
    PublicIsNotProtected(DASHBOARD_PATH);
    PublicIsNotProtected(pathname);
    if r.path == LOGIN_PATH {
      assert !IsPublic(pathname);
    } else {
      assert IsPublic(pathname);
    }
  }

  /** What a request meets: a path outside the matcher reaches its route untouched; every other
      path goes through `middleware`. */
  function Edge(pathname: string, token: Option<string>, decode: Decoder, nowMs: int): (r: Response)
    ensures r != Next ==> Matched(pathname)
    ensures Matched(pathname) ==> r == Middleware(pathname, token, decode, nowMs)
  {
    if Matched(pathname) then Middleware(pathname, token, decode, nowMs) else Next
  }

  /** An API call without a token reaches its route, though `middleware` alone would redirect it. */
  lemma ApiBypassesMiddleware(rest: string, decode: Decoder, nowMs: int)
    ensures Edge("/api" + rest, None, decode, nowMs) == Next
    ensures Middleware("/api" + rest, None, decode, nowMs) == Redirect(LOGIN_PATH, None, true)
  {
    var p := "/api" + rest;
    assert p[1..][..3] == "api";
    assert !IsPublic(p) by {
      forall i | 0 <= i < |PUBLIC_ROUTES|
        ensures !StartsWith(p, PUBLIC_ROUTES[i])
      {
        assert p[1] == 'a' && PUBLIC_ROUTES[i][1] == 'a' && p[2] == 'p' && PUBLIC_ROUTES[i][2] == 'u';
      }
    }
    assert !IsProtected(p) by {
      forall i | 0 <= i < |PROTECTED_ROUTES|
        ensures !StartsWith(p, PROTECTED_ROUTES[i])
      {
        assert p[1] == 'a' && p[2] == 'p';
      }
    }
  }

  /** Both redirect targets lie inside the matcher, so following a redirect still settles at
      once. */
  lemma EdgeRedirectSettles(pathname: string, token: Option<string>, decode: Decoder, nowMs: int)
    requires Edge(pathname, token, decode, nowMs).Redirect?
    ensures var r := Edge(pathname, token, decode, nowMs);
            r.path != pathname && Edge(r.path, CookieAfter(r, token), decode, nowMs) == Next
  {
    RedirectSettles(pathname, token, decode, nowMs);
    var r := Edge(pathname, token, decode, nowMs);
    assert Matched(r.path) by {
      assert r.path == LOGIN_PATH || r.path == DASHBOARD_PATH;
      assert r.path[1..][0] == 'a' || r.path[1..][0] == 'd';
      assert r.path[1..][1] == 'u' || r.path[1..][1] == 'a';
    }
  }
}
