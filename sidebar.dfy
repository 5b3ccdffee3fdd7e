// The navigation menu of src/components/shared/Sidebar.tsx: which entries a user sees, and
// the list of expanded entries.

module Sidebar {
  import opened Wrappers
  import opened Roles
  import opened Seqs
  import AuthMiddleware
  import Paths

  /** An entry of the menu; the icon and badge only affect rendering. */
  datatype MenuItem = MenuItem(title: string, href: string, requiredRole: Option<Role>, requiredPermission: Option<Permission>)

  /** `menuItems`, in display order. */
  const MENU_ITEMS: seq<MenuItem> := [
    MenuItem("Dashboard", "/dashboard", None, None),
    MenuItem("Missions", "/missions", None, Some(CanManageMissions)),
    MenuItem("Drones", "/drones", None, Some(CanManageDrones)),
    MenuItem("Sites", "/sites", None, Some(CanManageSites)),
    MenuItem("Users", "/users", None, Some(CanManageUsers)),
    MenuItem("Analytics", "/analytics", None, Some(CanViewAnalytics)),
    MenuItem("Settings", "/settings", None, None)
  ]

  /** `hasPermission(item)` for the signed-in user's role, None when nobody is signed in. */
  predicate HasPermission(user: Option<Role>, item: MenuItem) {
    if user.None? then false
    else if item.requiredRole.Some? && user.value != item.requiredRole.value then false
    else if item.requiredPermission.Some? then Allows(user.value, item.requiredPermission.value)
    else true
  }

  /** `menuItems.filter(hasPermission)` */
  function FilteredMenu(user: Option<Role>, items: seq<MenuItem>): (r: seq<MenuItem>)
    ensures IsSubsequence(r, items)
    ensures forall x :: x in r <==> x in items && HasPermission(user, x)
  {
    if items == [] then []
    else if HasPermission(user, items[0]) then [items[0]] + FilteredMenu(user, items[1..])
    else FilteredMenu(user, items[1..])
  }

  /** Nobody signed in sees no menu at all. */
  lemma SignedOutSeesNothing(items: seq<MenuItem>)
    ensures FilteredMenu(None, items) == []
  {
  }

  /** Dashboard and Settings need nothing, so every signed-in user sees them. */
  lemma DashboardAndSettingsAlwaysShown(role: Role)
    ensures MENU_ITEMS[0] in FilteredMenu(Some(role), MENU_ITEMS)
    ensures MENU_ITEMS[6] in FilteredMenu(Some(role), MENU_ITEMS)
  {
  }

  /** The menu shows a role exactly the links the role-gated middleware lets it follow. */
  lemma MenuMatchesRouteRules(role: Role, i: nat)
    requires i < |MENU_ITEMS|
    ensures HasPermission(Some(role), MENU_ITEMS[i]) <==> AuthMiddleware.MayVisit(role, MENU_ITEMS[i].href)
  {
    var gates := AuthMiddleware.GATES;
    var href := MENU_ITEMS[i].href;
    forall j | 0 <= j < |gates|
      ensures Paths.StartsWith(href, gates[j].0) <==> gates[j].0 == href
    {
      if Paths.StartsWith(href, gates[j].0) {
        assert href[1] == gates[j].0[1] && href[2] == gates[j].0[2];
      }
    }
    assert !Paths.StartsWith(href, AuthMiddleware.ADMIN_PREFIX) by {
      assert href[1] != 'a' || href[2] != 'd';
    }
    if i == 1 {
      assert gates[3].0 == href;
    } else if i == 2 {
      assert gates[2].0 == href;
    } else if i == 3 {
      assert gates[4].0 == href;
    } else if i == 4 {
      assert gates[0].0 == href;
    }
  }

  /** `items.filter(item => item !== title)` */
  function Without(items: seq<string>, title: string): (r: seq<string>)
    ensures title !in r
    ensures forall x :: x != title ==> (x in r <==> x in items)
    ensures IsSubsequence(r, items)
  {
    if items == [] then []
    else if items[0] == title then Without(items[1..], title)
    else [items[0]] + Without(items[1..], title)
  }

  /** `toggleExpanded(title)` applied to the expanded titles. */
  function ToggleExpanded(expanded: seq<string>, title: string): (r: seq<string>)
    ensures title in r <==> title !in expanded
    ensures forall x :: x != title ==> (x in r <==> x in expanded)
    ensures title !in expanded ==> r == expanded + [title]
  {
    if title in expanded then Without(expanded, title) else expanded + [title]
  }

  lemma {:induction false} WithoutAbsent(items: seq<string>, title: string)
    requires title !in items
    ensures Without(items, title) == items
  {
    if items != [] {
      WithoutAbsent(items[1..], title);
    }
  }

  lemma {:induction false} WithoutAppended(items: seq<string>, title: string)
    ensures Without(items + [title], title) == Without(items, title)
  {
    if items != [] {
      assert (items + [title])[1..] == items[1..] + [title];
      WithoutAppended(items[1..], title);
    }
  }

  /** Toggling a collapsed entry twice leaves the list as it was. */
  lemma ToggleTwiceRestores(expanded: seq<string>, title: string)
    requires title !in expanded
    ensures ToggleExpanded(ToggleExpanded(expanded, title), title) == expanded
  {
    WithoutAppended(expanded, title);
    WithoutAbsent(expanded, title);
  }
}
