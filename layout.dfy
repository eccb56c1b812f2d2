/** The navigation of the application shell (components/Layout.tsx over the table in
    constants.tsx): the sidebar items a user may see, the mobile bottom bar, the click
    handler and the bottom bar's short labels. Every list is a filter over a constant
    table; the permission test is the session's `hasPermission`. */
module Navigation {
  import opened Wrappers
  import opened Types
  import opened Strings
  import Seqs
  import Auth

  /** A sidebar entry: its key (also its translation key), the route it stands for and
      the permission it needs, if any. */
  datatype NavItem = NavItem(key: string, path: string, requiredPermission: Option<Permission>)

  /** `NAVIGATION_ITEMS`, in display order. */
  const NavigationItems: seq<NavItem> := [
    NavItem("dashboard", "/", None),
    NavItem("orders", "/orders", Some(ORDERS)),
    NavItem("pos", "/pos", Some(POS)),
    NavItem("team", "/team", Some(TEAM)),
    NavItem("clients", "/clients", Some(CLIENTS)),
    NavItem("products", "/products", Some(PRODUCTS)),
    NavItem("inventory", "/inventory", Some(INVENTORY)),
    NavItem("finance", "/finance", Some(FINANCE)),
    NavItem("reports", "/reports", Some(REPORTS)),
    NavItem("settings", "/settings", Some(SETTINGS))
  ]

  /** `!permission || hasPermission(permission)` */
  predicate Allowed(required: Option<Permission>, user: Option<User>, role: Option<string>)
  {
    required.None? || Auth.HasPermission(user, role, required.value)
  }

  /** The sidebar's test for one entry. */
  function Shows(user: Option<User>, role: Option<string>): NavItem -> bool
  {
    (item: NavItem) => Allowed(item.requiredPermission, user, role)
  }

  /** `visibleNavItems`: exactly the entries that need no permission or whose permission
      the user holds, in table order; the dashboard always comes first. */
  function VisibleNavItems(user: Option<User>, role: Option<string>): (r: seq<NavItem>)
    ensures forall item :: item in r <==> item in NavigationItems && Allowed(item.requiredPermission, user, role)
    ensures |r| >= 1 && r[0] == NavigationItems[0]
  {
    var keep := Shows(user, role);
    var r := Seqs.Filter(NavigationItems, keep);
    forall item | item in NavigationItems && keep(item) ensures item in r {
      Seqs.FilterKeepsAccepted(NavigationItems, keep, item);
    }
    assert r == [NavigationItems[0]] + Seqs.Filter(NavigationItems[1..], keep);
    r
  }

  /** An owner or administrator sees the whole table, in its order. */
  lemma FullAccessSeesEverything(user: User, role: string)
    requires role == "OWNER" || role == "ADMIN"
    ensures VisibleNavItems(Some(user), Some(role)) == NavigationItems
  {
    var keep := Shows(Some(user), Some(role));
    assert forall x: NavItem :: keep(x);
    Seqs.FilterAllPass(NavigationItems, keep);
  }

  /** Only the dashboard entry of the table needs no permission. */
  lemma OnlyDashboardUnguarded()
    ensures NavigationItems[0].requiredPermission.None?
    ensures forall i :: 1 <= i < |NavigationItems| ==> NavigationItems[i].requiredPermission.Some?
  {
  }

  /** A member holding no permission sees only the dashboard. */
  lemma NoPermissionSeesDashboardOnly(user: User, role: Option<string>)
    requires role != Some("OWNER") && role != Some("ADMIN") && user.permissions == []
    ensures VisibleNavItems(Some(user), role) == [NavigationItems[0]]
  {
    var keep := Shows(Some(user), role);
    assert forall x: NavItem :: keep(x) == x.requiredPermission.None?;
    OnlyDashboardUnguarded();
    Seqs.FilterOnlyHead(NavigationItems, keep);
  }

  /** An entry of the mobile bottom bar. */
  datatype BottomItem = BottomItem(key: string, permission: Option<Permission>)

  const BottomBar: seq<BottomItem> := [
    BottomItem("dashboard", None),
    BottomItem("pos", Some(POS)),
    BottomItem("orders", Some(ORDERS)),
    BottomItem("team", Some(TEAM)),
    BottomItem("settings", Some(SETTINGS))
  ]

  /** `bottomNavItems`: the dashboard always, first; every other entry exactly when the
      user holds its permission; in bar order and never more than five. */
  function BottomNavItems(user: Option<User>, role: Option<string>): (r: seq<BottomItem>)
    ensures 1 <= |r| <= 5 && r[0] == BottomItem("dashboard", None)
    ensures forall item :: item in r <==> item in BottomBar && Allowed(item.permission, user, role)
  {
    var keep := (item: BottomItem) => Allowed(item.permission, user, role);
    var r := Seqs.Filter(BottomBar, keep);
    forall item | item in BottomBar && keep(item) ensures item in r {
      Seqs.FilterKeepsAccepted(BottomBar, keep, item);
    }
    assert r == [BottomBar[0]] + Seqs.Filter(BottomBar[1..], keep);
    r
  }

  /** Every bottom-bar entry is also a sidebar entry the same user sees: the bar never
      offers a page the sidebar hides. */
  lemma BottomBarWithinSidebar(user: Option<User>, role: Option<string>)
    ensures forall b :: b in BottomNavItems(user, role) ==>
      exists item :: item in VisibleNavItems(user, role) && item.key == b.key
  {
    forall b | b in BottomNavItems(user, role)
      ensures exists item :: item in VisibleNavItems(user, role) && item.key == b.key
    {
      var item := NavigationItems[SidebarIndex(b)];
      assert item in NavigationItems && Allowed(item.requiredPermission, user, role);
      assert item in VisibleNavItems(user, role) && item.key == b.key;
    }
  }

  /** Where a bottom-bar entry sits in the sidebar table. */
  function SidebarIndex(b: BottomItem): (j: nat)
    requires b in BottomBar
    ensures j < |NavigationItems|
    ensures NavigationItems[j].key == b.key && NavigationItems[j].requiredPermission == b.permission
  {
    if b == BottomBar[0] then 0
    else if b == BottomBar[1] then 2
    else if b == BottomBar[2] then 1
    else if b == BottomBar[3] then 3
    else 9
  }

  /** The shell's own state: the active tab and the two menus. */
  datatype LayoutState = LayoutState(activeTab: string, isMobileMenuOpen: bool, isProfileOpen: bool)

  /** `handleTabClick`: the clicked key becomes the active tab and the mobile menu closes;
      the profile menu is left as it was. */
  function HandleTabClick(s: LayoutState, key: string): (t: LayoutState)
    ensures t.activeTab == key && !t.isMobileMenuOpen && t.isProfileOpen == s.isProfileOpen
  {
    s.(activeTab := key, isMobileMenuOpen := false)
  }

  /** The bottom bar's label, `t(key).substring(0, 8)`: a prefix of the translated label
      of at most eight characters, the whole label when it is that short. */
  function BottomLabel(translated: string): (r: string)
    ensures |r| <= 8 && |r| <= |translated| && r == translated[..|r|]
    ensures |translated| <= 8 ==> r == translated
    ensures |translated| > 8 ==> |r| == 8
  {
    Take(translated, 8)
  }
}
