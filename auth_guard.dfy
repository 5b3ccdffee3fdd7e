// The page guard of src/components/auth/AuthGuard.tsx: what it renders and where it navigates,
// for a given auth state.

module AuthGuard {
  import opened Wrappers
  import opened Paths
  import opened Token
  import UseAuth

  datatype View = Spinner | Nothing | Children

  /** The effect: the `router.push` target, if any. */
  function Navigation(hasUser: bool, loading: bool, isClient: bool, requireAuth: bool, redirectTo: string): (r: Option<string>)
    ensures r.Some? ==> isClient && !loading
    ensures r == Some(redirectTo) <== isClient && !loading && requireAuth && !hasUser
    ensures r == Some(DASHBOARD_PATH) <== isClient && !loading && !requireAuth && hasUser
    ensures r.Some? ==> requireAuth != hasUser
  {
    if !isClient || loading then None
    else if requireAuth && !hasUser then Some(redirectTo)
    else if !requireAuth && hasUser then Some(DASHBOARD_PATH)
    else None
  }

  /** What the component renders. */
  function Render(hasUser: bool, loading: bool, isClient: bool, requireAuth: bool): (r: View)
    ensures r == Spinner <==> loading || !isClient
  {
    if loading || !isClient then Spinner
    else if requireAuth && !hasUser then Nothing
    else if !requireAuth && hasUser then Nothing
    else Children
  }

  /** Render and effect agree: the spinner never navigates, nothing is rendered exactly when the
      effect navigates, and the children appear exactly when the auth state matches `requireAuth`. */
  lemma RenderMatchesNavigation(hasUser: bool, loading: bool, isClient: bool, requireAuth: bool, redirectTo: string)
    ensures Render(hasUser, loading, isClient, requireAuth) == Spinner ==>
              Navigation(hasUser, loading, isClient, requireAuth, redirectTo).None?
    ensures Render(hasUser, loading, isClient, requireAuth) == Nothing <==>
              Navigation(hasUser, loading, isClient, requireAuth, redirectTo).Some?
    ensures Render(hasUser, loading, isClient, requireAuth) == Children <==>
              isClient && !loading && requireAuth == hasUser
  {
  }

  /** The guard reads `user`, `loading` and `isClient` of the session hook through the auth
      context: while the hook reports loading it shows the spinner and never navigates. */
  lemma GuardWaitsForSession(s: UseAuth.Session, meLoading: bool, loginLoading: bool, requireAuth: bool, redirectTo: string)
    requires UseAuth.ExposedLoading(s, meLoading, loginLoading)
    ensures Render(s.user.Some?, UseAuth.ExposedLoading(s, meLoading, loginLoading), s.isClient, requireAuth) == Spinner
    ensures Navigation(s.user.Some?, UseAuth.ExposedLoading(s, meLoading, loginLoading), s.isClient, requireAuth, redirectTo).None?
  {
  }

  /** A visitor without a live token cookie, once the hook has mounted and checked, is sent to
      `redirectTo` by a guard that requires sign-in, and sees nothing meanwhile. */
  lemma GuardRedirectsWithoutCookie(jar: map<string, UseAuth.Cookie>, hasWindow: bool, decode: Decoder, nowMs: int,
                                    refetchThrew: bool, redirectTo: string)
    requires UseAuth.TokenCookie(UseAuth.AfterMount(UseAuth.Initial(jar)), hasWindow, nowMs).None?
    ensures var c := UseAuth.AfterCheckAuth(UseAuth.AfterMount(UseAuth.Initial(jar)), hasWindow, decode, nowMs, refetchThrew);
            var loading := UseAuth.ExposedLoading(c, false, false);
            Navigation(c.user.Some?, loading, c.isClient, true, redirectTo) == Some(redirectTo) &&
            Render(c.user.Some?, loading, c.isClient, true) == Nothing
  {
    UseAuth.LoadingUntilChecked(jar, hasWindow, decode, nowMs, refetchThrew, false, false);
  }
}
