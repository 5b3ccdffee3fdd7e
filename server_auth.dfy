// Server-side session checks of src/utils/server-auth.ts, over the request's `auth-token` cookie.

module ServerAuth {
  import opened Wrappers
  import opened Paths
  import opened Token

  datatype AuthCheck = AuthCheck(isAuthenticated: bool, token: Option<string>)

  /** `checkServerAuth` */
  function CheckServerAuth(cookie: Option<string>, decode: Decoder, nowMs: int): (r: AuthCheck)
    ensures cookie.None? ==> !r.isAuthenticated
    ensures r.isAuthenticated <==> cookie.Some? && IsTokenValid(cookie.value, decode, nowMs)
    // the token is handed out exactly when it is valid, and it is the cookie's
    ensures r.token.Some? <==> r.isAuthenticated
    ensures r.token.Some? ==> r.token == cookie
  {
    var isValid := if cookie.Some? && cookie.value != "" then IsTokenValid(cookie.value, decode, nowMs) else false;
    AuthCheck(isValid, if isValid then cookie else None)
  }

  /** `requireServerAuth`: the redirect it throws, if any. */
  function RequireServerAuth(cookie: Option<string>, decode: Decoder, nowMs: int): (r: Option<string>)
    ensures r.Some? <==> !CheckServerAuth(cookie, decode, nowMs).isAuthenticated
    ensures r.Some? ==> r.value == LOGIN_PATH
  {
    if !CheckServerAuth(cookie, decode, nowMs).isAuthenticated then Some(LOGIN_PATH) else None
  }

  /** `redirectIfAuthenticated`: the redirect it throws, if any. */
  function RedirectIfAuthenticated(cookie: Option<string>, decode: Decoder, nowMs: int): (r: Option<string>)
    ensures r.Some? <==> CheckServerAuth(cookie, decode, nowMs).isAuthenticated
    ensures r.Some? ==> r.value == DASHBOARD_PATH
  {
    if CheckServerAuth(cookie, decode, nowMs).isAuthenticated then Some(DASHBOARD_PATH) else None
  }

  /** On every request exactly one of the two guards redirects: a page protected by one and
      a page protected by the other are never both reachable. */
  lemma GuardsAreComplementary(cookie: Option<string>, decode: Decoder, nowMs: int)
    ensures RequireServerAuth(cookie, decode, nowMs).Some? != RedirectIfAuthenticated(cookie, decode, nowMs).Some?
  {
  }
}
