// The role-gated route check of src/middleware/authMiddleware.ts and its `withAuth` wrapper.

module AuthMiddleware {
  import opened Wrappers
  import opened Paths
  import opened Roles

  /** Paths that pass as they are, compared whole. */
  const PUBLIC_PATHS: set<string> := {"/auth/login", "/auth/register", "/"}

  const ADMIN_PREFIX: string := "/admin"

  /** The prefix-gated routes in the order they are checked, each with the flag it needs. */
  const GATES: seq<(string, Permission)> := [
    ("/users", CanManageUsers),
    ("/organizations", CanManageOrganizations),
    ("/drones", CanManageDrones),
    ("/missions", CanManageMissions),
    ("/sites", CanManageSites)
  ]

  /** Names every plain JavaScript object inherits from Object.prototype. */
  const INHERITED_NAMES: set<string> := {
    "constructor", "__proto__", "hasOwnProperty", "isPrototypeOf", "propertyIsEnumerable",
    "toString", "toLocaleString", "valueOf",
    "__defineGetter__", "__defineSetter__", "__lookupGetter__", "__lookupSetter__"
  }

  /** What `ROLE_PERMISSIONS[userRole]` evaluates to: a row of the table, an inherited member
      whose permission properties are all undefined, or undefined itself. */
  datatype RoleLookup = Known(perms: Permissions) | Inherited | Missing

  function LookupRole(name: string): (r: RoleLookup)
    ensures r.Known? <==> RoleFromName(name).Some?
    ensures r.Known? ==> r.perms == RolePermissions(RoleFromName(name).value)
  {
    match RoleFromName(name)
    case Some(role) => Known(RolePermissions(role))
    case None => if name in INHERITED_NAMES then Inherited else Missing
  }

  /** The outcome: pass, redirect, or the TypeError thrown by reading a property of undefined. */
  datatype Outcome = Pass | RedirectTo(path: string) | TypeError

  /** `!permissions.X`, where None stands for the TypeError. */
  function Lacks(lookup: RoleLookup, perm: Permission): Option<bool> {
    match lookup
    case Known(ps) => Some(!Flag(ps, perm))
    case Inherited => Some(true)
    case Missing => None
  }

  /** The five prefix checks, in order; a check only reads the flag when its prefix matches. */
  function CheckGates(pathname: string, lookup: RoleLookup, gates: seq<(string, Permission)>): (r: Outcome)
    ensures r == Pass || r == RedirectTo(DASHBOARD_PATH) || r == TypeError
  {
    if gates == [] then Pass
    else if StartsWith(pathname, gates[0].0) then
      match Lacks(lookup, gates[0].1)
      case None => TypeError
      case Some(lacks) => if lacks then RedirectTo(DASHBOARD_PATH) else CheckGates(pathname, lookup, gates[1..])
    else CheckGates(pathname, lookup, gates[1..])
  }

  /** The route rule with the role lookup as a parameter; `userRole` is the `user-role` cookie's
      value and `hasToken` whether an `auth-token` cookie came with the request. */
  function Decide(pathname: string, hasToken: bool, userRole: Option<string>, lookup: string -> RoleLookup): Outcome {
    if pathname in PUBLIC_PATHS then Pass
    else if !hasToken then RedirectTo(LOGIN_PATH)
    else if userRole.None? || userRole.value == "" then RedirectTo(LOGIN_PATH)
    else if StartsWith(pathname, ADMIN_PREFIX) && userRole.value != RoleName(SuperAdmin) then RedirectTo(DASHBOARD_PATH)
    else CheckGates(pathname, lookup(userRole.value), GATES)
  }

  /** `authMiddleware` as written: a role name outside the table reaches `permissions.X` on
      undefined as soon as the path starts with one of the gated prefixes. */
  function AuthMiddlewareAsWritten(pathname: string, hasToken: bool, userRole: Option<string>): (r: Outcome)
    ensures r == TypeError <==>
              pathname !in PUBLIC_PATHS && hasToken && userRole.Some? && userRole.value != "" &&
              RoleFromName(userRole.value).None? && userRole.value !in INHERITED_NAMES &&
              !StartsWith(pathname, ADMIN_PREFIX) && Gated(pathname)
  {
    DecideThrows(pathname, hasToken, userRole);
    Decide(pathname, hasToken, userRole, LookupRole)
  }

  lemma DecideThrows(pathname: string, hasToken: bool, userRole: Option<string>)
    ensures Decide(pathname, hasToken, userRole, LookupRole) == TypeError <==>
              pathname !in PUBLIC_PATHS && hasToken && userRole.Some? && userRole.value != "" &&
              RoleFromName(userRole.value).None? && userRole.value !in INHERITED_NAMES &&
              !StartsWith(pathname, ADMIN_PREFIX) && Gated(pathname)
  {
    MissingThrowsIffGated(pathname, GATES);
    if userRole.Some? {
      var lookup := LookupRole(userRole.value);
      if !lookup.Missing? {
        NeverThrows(pathname, lookup, GATES);
      } else {
        assert userRole.value != RoleName(SuperAdmin);
      }
    }
  }

  /** The path starts with one of the five gated prefixes. */
  predicate Gated(pathname: string) {
    exists i :: 0 <= i < |GATES| && StartsWith(pathname, GATES[i].0)
  }

  /** With no permission record at all, the gates throw exactly when some prefix matches. */
  lemma {:induction false} MissingThrowsIffGated(pathname: string, gates: seq<(string, Permission)>)
    ensures CheckGates(pathname, Missing, gates) == TypeError <==>
              exists i :: 0 <= i < |gates| && StartsWith(pathname, gates[i].0)
  {
    if gates != [] {
      MissingThrowsIffGated(pathname, gates[1..]);
      if !StartsWith(pathname, gates[0].0) && exists i :: 0 <= i < |gates| && StartsWith(pathname, gates[i].0) {
        var i :| 0 <= i < |gates| && StartsWith(pathname, gates[i].0);
        assert gates[1..][i - 1] == gates[i];
      }
    }
  }

  /** An unknown role in the cookie makes every gated route throw. */
  lemma UnknownRoleThrows(role: string)
    requires role != "" && RoleFromName(role).None? && role !in INHERITED_NAMES
    ensures AuthMiddlewareAsWritten("/users", true, Some(role)) == TypeError
  {
    assert StartsWith("/users", GATES[0].0);
  }

  const NO_PERMISSIONS: Permissions := Permissions(false, false, false, false, false, false, false)

  /** An unknown role has no permissions. */
  function LookupRoleOrNone(name: string): (r: RoleLookup)
    ensures !r.Missing?
  {
    match LookupRole(name)
    case Missing => Known(NO_PERMISSIONS)
    case other => other
  }

  /** `authMiddleware` with an unknown role treated as one without permissions. */
  function AuthMiddleware(pathname: string, hasToken: bool, userRole: Option<string>): (r: Outcome)
    ensures r != TypeError
    ensures pathname in PUBLIC_PATHS ==> r == Pass
    ensures pathname !in PUBLIC_PATHS && (!hasToken || userRole.None? || userRole == Some("")) ==>
              r == RedirectTo(LOGIN_PATH)
    ensures r == RedirectTo(LOGIN_PATH) || r == RedirectTo(DASHBOARD_PATH) || r == Pass
  {
    NeverThrows(pathname, LookupRoleOrNone(if userRole.Some? then userRole.value else ""), GATES);
    Decide(pathname, hasToken, userRole, LookupRoleOrNone)
  }

  lemma {:induction false} NeverThrows(pathname: string, lookup: RoleLookup, gates: seq<(string, Permission)>)
    requires !lookup.Missing?
    ensures CheckGates(pathname, lookup, gates) != TypeError
  {
    if gates != [] {
      NeverThrows(pathname, lookup, gates[1..]);
    }
  }

  lemma {:induction false} MissingMatchesNoGate(pathname: string, gates: seq<(string, Permission)>)
    requires CheckGates(pathname, Missing, gates) != TypeError
    ensures CheckGates(pathname, Known(NO_PERMISSIONS), gates) == CheckGates(pathname, Missing, gates) == Pass
  {
    if gates != [] {
      MissingMatchesNoGate(pathname, gates[1..]);
    }
  }

  /** The correction changes nothing where the source does not throw. */
  lemma AuthMiddlewareAgrees(pathname: string, hasToken: bool, userRole: Option<string>)
    requires AuthMiddlewareAsWritten(pathname, hasToken, userRole) != TypeError
    ensures AuthMiddleware(pathname, hasToken, userRole) == AuthMiddlewareAsWritten(pathname, hasToken, userRole)
  {
    if pathname !in PUBLIC_PATHS && hasToken && userRole.Some? && userRole.value != "" &&
       !(StartsWith(pathname, ADMIN_PREFIX) && userRole.value != RoleName(SuperAdmin)) &&
       LookupRole(userRole.value).Missing? {
      MissingMatchesNoGate(pathname, GATES);
    }
  }

  /** Which routes a role may visit, stated declaratively: the admin area needs SUPER_ADMIN and
      every gated prefix needs its flag. */
  predicate MayVisit(role: Role, pathname: string) {
    (StartsWith(pathname, ADMIN_PREFIX) ==> role == SuperAdmin) &&
    forall i :: 0 <= i < |GATES| && StartsWith(pathname, GATES[i].0) ==> Allows(role, GATES[i].1)
  }

  lemma {:induction false} CheckGatesPasses(pathname: string, role: Role, gates: seq<(string, Permission)>)
    ensures CheckGates(pathname, Known(RolePermissions(role)), gates) == Pass <==>
              forall i :: 0 <= i < |gates| && StartsWith(pathname, gates[i].0) ==> Allows(role, gates[i].1)
    ensures CheckGates(pathname, Known(RolePermissions(role)), gates) != TypeError
  {
    if gates != [] {
      CheckGatesPasses(pathname, role, gates[1..]);
      assert forall i :: 1 <= i < |gates| ==> gates[i] == gates[1..][i - 1];
    }
  }

  /** For a signed-in user with one of the four roles, the if-chain lets the request through
      exactly when the declarative rule allows it, and otherwise sends it to the dashboard. */
  lemma AuthMiddlewareMatchesRoles(pathname: string, role: Role)
    requires pathname !in PUBLIC_PATHS
    ensures AuthMiddleware(pathname, true, Some(RoleName(role))) ==
              if MayVisit(role, pathname) then Pass else RedirectTo(DASHBOARD_PATH)
  {
    RoleNameRoundTrip(role);
    CheckGatesPasses(pathname, role, GATES);
  }

  /** What a `withAuth`-wrapped handler produces. */
  datatype Served<R> = Handled(result: R) | Responded(response: Outcome) | Thrown

  /** `withAuth(handler)`: the handler runs only when the middleware answers with status 200,
      which only `next()` does; a redirect (status 307) is returned, an exception passes on. */
  function WithAuth<R>(response: Outcome, handlerResult: R): (r: Served<R>)
    ensures r.Handled? <==> response == Pass
    ensures r.Handled? ==> r.result == handlerResult
    ensures response.RedirectTo? ==> r == Responded(response)
    ensures response == TypeError ==> r == Thrown
  {
    match response
    case Pass => Handled(handlerResult)
    case RedirectTo(_) => Responded(response)
    case TypeError => Thrown
  }
}
