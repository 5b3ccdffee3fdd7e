// The four roles of the dashboard and their fixed permission table (src/constants/roles.ts).

module Roles {
  import opened Wrappers

  datatype Role = SuperAdmin | Moderator | Operator | Viewer

  datatype Permission =
    | CanManageUsers
    | CanManageOrganizations
    | CanManageDrones
    | CanManageMissions
    | CanManageSites
    | CanViewAnalytics
    | CanViewAllOrganizations

  /** One row of `ROLE_PERMISSIONS`: the same seven flags for every role. */
  datatype Permissions = Permissions(
    canManageUsers: bool,
    canManageOrganizations: bool,
    canManageDrones: bool,
    canManageMissions: bool,
    canManageSites: bool,
    canViewAnalytics: bool,
    canViewAllOrganizations: bool)

  /** The name a role goes by in cookies and in the API. */
  function RoleName(r: Role): string {
    match r
    case SuperAdmin => "SUPER_ADMIN"
    case Moderator => "MODERATOR"
    case Operator => "OPERATOR"
    case Viewer => "VIEWER"
  }

  /** The role a name stands for, if any. */
  function RoleFromName(name: string): (r: Option<Role>)
    ensures r.Some? ==> RoleName(r.value) == name
  {
    if name == "SUPER_ADMIN" then Some(SuperAdmin)
    else if name == "MODERATOR" then Some(Moderator)
    else if name == "OPERATOR" then Some(Operator)
    else if name == "VIEWER" then Some(Viewer)
    else None
  }

  /** Every role's name reads back as that role: the names are distinct. */
  lemma RoleNameRoundTrip(r: Role)
    ensures RoleFromName(RoleName(r)) == Some(r)
  {
  }

  /** `ROLE_PERMISSIONS`: every role views analytics, the organisation-wide flags belong to
      SUPER_ADMIN alone, and whoever manages users also manages drones, missions and sites. */
  function RolePermissions(r: Role): (p: Permissions)
    ensures p.canViewAnalytics
    ensures p.canManageOrganizations <==> r == SuperAdmin
    ensures p.canViewAllOrganizations <==> r == SuperAdmin
    ensures p.canManageUsers ==> p.canManageDrones && p.canManageMissions && p.canManageSites
    ensures p.canManageDrones <==> p.canManageSites
  {
    match r
    case SuperAdmin => Permissions(true, true, true, true, true, true, true)
    case Moderator => Permissions(true, false, true, true, true, true, false)
    case Operator => Permissions(false, false, false, true, false, true, false)
    case Viewer => Permissions(false, false, false, false, false, true, false)
  }

  /** Reading one flag of a permission row, `permissions[permission]`. */
  function Flag(p: Permissions, perm: Permission): bool {
    match perm
    case CanManageUsers => p.canManageUsers
    case CanManageOrganizations => p.canManageOrganizations
    case CanManageDrones => p.canManageDrones
    case CanManageMissions => p.canManageMissions
    case CanManageSites => p.canManageSites
    case CanViewAnalytics => p.canViewAnalytics
    case CanViewAllOrganizations => p.canViewAllOrganizations
  }

  predicate Allows(r: Role, perm: Permission) {
    Flag(RolePermissions(r), perm)
  }

  /** The hierarchy VIEWER < OPERATOR < MODERATOR < SUPER_ADMIN. */
  function Rank(r: Role): nat {
    match r
    case Viewer => 0
    case Operator => 1
    case Moderator => 2
    case SuperAdmin => 3
  }

  lemma SuperAdminHasEveryPermission(perm: Permission)
    ensures Allows(SuperAdmin, perm)
  {
  }

  lemma EveryRoleViewsAnalytics(r: Role)
    ensures Allows(r, CanViewAnalytics)
  {
  }

  /** Organisation-wide permissions belong to SUPER_ADMIN alone. */
  lemma OnlySuperAdminSpansOrganizations(r: Role)
    ensures Allows(r, CanManageOrganizations) <==> r == SuperAdmin
    ensures Allows(r, CanViewAllOrganizations) <==> r == SuperAdmin
  {
  }

  /** Permission sets are nested along the hierarchy. */
  lemma PermissionsAreNested(lower: Role, higher: Role, perm: Permission)
    requires Rank(lower) <= Rank(higher)
    requires Allows(lower, perm)
    ensures Allows(higher, perm)
  {
  }

  /** An operator manages missions and nothing else. */
  lemma OperatorManagesOnlyMissions()
    ensures Allows(Operator, CanManageMissions)
    ensures !Allows(Operator, CanManageUsers) && !Allows(Operator, CanManageDrones)
    ensures !Allows(Operator, CanManageSites) && !Allows(Operator, CanManageOrganizations)
  {
  }
}
