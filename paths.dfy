// Route paths shared by the middlewares, the auth hook and the guard.

module Paths {
  const LOGIN_PATH: string := "/auth/login"
  const DASHBOARD_PATH: string := "/dashboard"

  /** `String.prototype.startsWith` */
  predicate StartsWith(s: string, prefix: string) {
    |prefix| <= |s| && s[..|prefix|] == prefix
  }
}
