/** The application shell (App.tsx): which page the active tab shows, and the
    online/offline handlers that drain the write queue. Pages are named, not rendered.
    `navigator.onLine` at mount is a constructor argument; the browser's online and
    offline events are method calls; each drain's per-item outcomes are an oracle. */
module AppShell {
  import opened Wrappers
  import opened Types
  import Auth
  import Database
  import Navigation

  /** What `AppContent` renders in its content area (or instead of the shell, for Login). */
  datatype Screen =
    | Login | Dashboard | Orders | Clients | Pos | Products | Inventory | Finance | Reports | Settings
    | Team | AccessDenied | NotFound

  /** The cases of `renderContent`'s switch: the page a path names and the permission it
      needs. `'/team'` has no case. */
  function Route(tab: string): (r: Option<(Screen, Option<Permission>)>)
    ensures r.Some? ==> r.value.0 !in {Login, Team, AccessDenied, NotFound}
    ensures r.Some? && r.value.1.None? <==> tab == "/"
    ensures r.Some? ==> |tab| > 0 && tab[0] == '/'
  {
    if tab == "/" then Some((Dashboard, None))
    else if tab == "/orders" then Some((Orders, Some(ORDERS)))
    else if tab == "/clients" then Some((Clients, Some(CLIENTS)))
    else if tab == "/pos" then Some((Pos, Some(POS)))
    else if tab == "/products" then Some((Products, Some(PRODUCTS)))
    else if tab == "/inventory" then Some((Inventory, Some(INVENTORY)))
    else if tab == "/finance" then Some((Finance, Some(FINANCE)))
    else if tab == "/reports" then Some((Reports, Some(REPORTS)))
    else if tab == "/settings" then Some((Settings, Some(SETTINGS)))
    else None
  }

  /** A routed page, shown when its permission is held and replaced by the access-denied
      page otherwise; a path with no case is not found; nobody signed in sees Login. */
  function Show(route: Option<(Screen, Option<Permission>)>, isAuthenticated: bool, user: Option<User>,
                role: Option<string>): Screen
  {
    if !isAuthenticated then Login
    else match route
      case None => NotFound
      case Some((page, permission)) =>
        if Navigation.Allowed(permission, user, role) then page else AccessDenied
  }

  /** `AppContent`'s choice. Signed out: Login, whatever the tab. Signed in: the dashboard
      at '/' without any check; each other routed path its page exactly when the user
      holds that page's permission and the access-denied page exactly when not; any
      other value the not-found page. */
  function RenderContent(isAuthenticated: bool, tab: string, user: Option<User>, role: Option<string>): (s: Screen)
    ensures !isAuthenticated ==> s == Login
    ensures isAuthenticated && tab == "/" ==> s == Dashboard
    ensures isAuthenticated && Route(tab).None? ==> s == NotFound
    ensures isAuthenticated && Route(tab).Some? && Route(tab).value.1.Some? ==>
      (s == Route(tab).value.0 <==> Auth.HasPermission(user, role, Route(tab).value.1.value))
    ensures isAuthenticated && Route(tab).Some? && Route(tab).value.1.Some? ==>
      (s == AccessDenied <==> !Auth.HasPermission(user, role, Route(tab).value.1.value))
  {
    Show(Route(tab), isAuthenticated, user, role)
  }

  /** The shell as written: the sidebar and the bottom bar hand `setActiveTab` the entry's
      key, which never names a route, so every navigation click of a signed-in user
      lands on the not-found page, even the dashboard's. */
  lemma NavKeysRenderNotFound(s: Navigation.LayoutState, user: Option<User>, role: Option<string>)
    ensures forall item :: item in Navigation.NavigationItems ==>
      RenderContent(true, Navigation.HandleTabClick(s, item.key).activeTab, user, role) == NotFound
    ensures forall b :: b in Navigation.BottomBar ==>
      RenderContent(true, b.key, user, role) == NotFound
  {
    forall item | item in Navigation.NavigationItems ensures Route(item.key).None? {
      assert |item.key| > 0 && item.key[0] != '/';
    }
    forall b | b in Navigation.BottomBar ensures Route(b.key).None? {
      assert |b.key| > 0 && b.key[0] != '/';
    }
  }

  /** The corrected sidebar click: the entry's route, not its key, becomes the active tab. */
  function HandleNavClick(s: Navigation.LayoutState, item: Navigation.NavItem): (t: Navigation.LayoutState)
    requires item in Navigation.NavigationItems
    ensures t.activeTab == item.path && !t.isMobileMenuOpen && t.isProfileOpen == s.isProfileOpen
    ensures item.key != "team" ==> Route(t.activeTab).Some? && Route(t.activeTab).value.1 == item.requiredPermission
  {
    RouteOfNavPath(item);
    Navigation.HandleTabClick(s, item.path)
  }

  /** Every table entry but the team's names a route guarded by the entry's own permission. */
  lemma RouteOfNavPath(item: Navigation.NavItem)
    requires item in Navigation.NavigationItems
    ensures item.key != "team" ==> Route(item.path).Some? && Route(item.path).value.1 == item.requiredPermission
    ensures item.key == "team" ==> Route(item.path).None?
    ensures item.key == "team" <==> item.path == "/team"
  {
    var i :| 0 <= i < |Navigation.NavigationItems| && Navigation.NavigationItems[i] == item;
    assert i in {0, 1, 2, 3, 4, 5, 6, 7, 8, 9};
  }

  /** With the corrected click, every entry the sidebar shows opens its page and never the
      access-denied page, the team entry excepted. */
  lemma VisibleItemsReachTheirPages(s: Navigation.LayoutState, user: Option<User>, role: Option<string>)
    ensures forall item :: item in Navigation.VisibleNavItems(user, role) && item.key != "team" ==>
      RenderContent(true, HandleNavClick(s, item).activeTab, user, role) !in {AccessDenied, NotFound, Login}
  {
    forall item | item in Navigation.VisibleNavItems(user, role) && item.key != "team"
      ensures RenderContent(true, HandleNavClick(s, item).activeTab, user, role) !in {AccessDenied, NotFound, Login}
    {
      RouteOfNavPath(item);
    }
  }

  /** As written, the team entry is offered to an owner, yet its route is not found. */
  lemma TeamEntryNotRouted(user: User, role: string)
    requires role == "OWNER" || role == "ADMIN"
    ensures exists item :: item in Navigation.VisibleNavItems(Some(user), Some(role)) && item.path == "/team"
    ensures RenderContent(true, "/team", Some(user), Some(role)) == NotFound
  {
    var team := Navigation.NavigationItems[3];
    assert team.path == "/team" && Navigation.Allowed(team.requiredPermission, Some(user), Some(role));
    assert team in Navigation.VisibleNavItems(Some(user), Some(role));
    assert Route("/team").None?;
  }

  /** The routes the shell evidently intends: the written ones plus the team page, guarded
      by the team permission. */
  function IntendedRoute(tab: string): (r: Option<(Screen, Option<Permission>)>)
    ensures tab != "/team" ==> r == Route(tab)
    ensures tab == "/team" ==> r == Some((Team, Some(TEAM)))
  {
    if tab == "/team" then Some((Team, Some(TEAM))) else Route(tab)
  }

  /** `renderContent` with the team route added. */
  function RenderIntended(isAuthenticated: bool, tab: string, user: Option<User>, role: Option<string>): (s: Screen)
    ensures tab != "/team" ==> s == RenderContent(isAuthenticated, tab, user, role)
    ensures isAuthenticated && tab == "/team" ==>
      (s == Team <==> Auth.HasPermission(user, role, TEAM)) && (s == AccessDenied <==> !Auth.HasPermission(user, role, TEAM))
  {
    Show(IntendedRoute(tab), isAuthenticated, user, role)
  }

  /** With the corrected click and the team route, every entry the sidebar shows opens a
      page the user may see. */
  lemma EveryVisibleItemReachable(s: Navigation.LayoutState, user: Option<User>, role: Option<string>)
    ensures forall item :: item in Navigation.VisibleNavItems(user, role) ==>
      RenderIntended(true, HandleNavClick(s, item).activeTab, user, role) !in {AccessDenied, NotFound, Login}
  {
    forall item | item in Navigation.VisibleNavItems(user, role)
      ensures RenderIntended(true, HandleNavClick(s, item).activeTab, user, role) !in {AccessDenied, NotFound, Login}
    {
      IntendedItemReachable(item, user, role);
    }
  }

  lemma IntendedItemReachable(item: Navigation.NavItem, user: Option<User>, role: Option<string>)
    requires item in Navigation.NavigationItems && Navigation.Allowed(item.requiredPermission, user, role)
    ensures Show(IntendedRoute(item.path), true, user, role) !in {AccessDenied, NotFound, Login}
  {
    RouteOfNavPath(item);
    if item.key == "team" {
      assert IntendedRoute(item.path) == Some((Team, item.requiredPermission));
    } else {
      assert IntendedRoute(item.path) == Route(item.path);
    }
  }

  /** `AppContent`'s own state. `drains` records, for each drain the shell started, whether
      the syncing banner was up while it ran. */
  class App {
    var activeTab: string
    var isOnline: bool
    var isSyncing: bool
    var drains: seq<bool>

    constructor(online: bool)
      ensures activeTab == "/" && isOnline == online && !isSyncing && drains == []
    {
      activeTab := "/";
      isOnline := online;
      isSyncing := false;
      drains := [];
    }

    /** The mount effect: a drain runs, without the banner, only when already online. */
    method Mount(db: Database.DataLayer, threw: seq<bool>)
      requires |threw| == |db.queue|
      modifies this, db
      ensures !old(isOnline) ==> unchanged(db) && drains == old(drains)
      ensures old(isOnline) ==> db.queue == Database.Drained(old(db.queue), threw) && db.store == old(db.store)
      ensures old(isOnline) ==> drains == old(drains) + [old(isSyncing)]
      ensures activeTab == old(activeTab) && isOnline == old(isOnline) && isSyncing == old(isSyncing)
    {
      if isOnline {
        var _ := db.SyncPendingData(true, threw);
        drains := drains + [isSyncing];
      }
    }

    /** `handleOnline`: online, the banner up for the whole drain, then down. */
    method HandleOnline(db: Database.DataLayer, threw: seq<bool>)
      requires |threw| == |db.queue|
      modifies this, db
      ensures isOnline && !isSyncing && drains == old(drains) + [true]
      ensures db.queue == Database.Drained(old(db.queue), threw) && db.store == old(db.store)
      ensures activeTab == old(activeTab)
    {
      isOnline := true;
      isSyncing := true;
      var _ := db.SyncPendingData(true, threw);
      drains := drains + [isSyncing];
      isSyncing := false;
    }

    /** `handleOffline` */
    method HandleOffline()
      modifies this
      ensures !isOnline && isSyncing == old(isSyncing) && activeTab == old(activeTab) && drains == old(drains)
    {
      isOnline := false;
    }

    /** `setActiveTab`, as the shell's children call it. */
    method SetActiveTab(tab: string)
      modifies this
      ensures activeTab == tab && isOnline == old(isOnline) && isSyncing == old(isSyncing) && drains == old(drains)
    {
      activeTab := tab;
    }

    /** The page on screen for the given session. */
    function Content(isAuthenticated: bool, user: Option<User>, role: Option<string>): (s: Screen)
      reads this
      ensures !isAuthenticated ==> s == Login
      ensures isAuthenticated && activeTab == "/" ==> s == Dashboard
    {
      RenderContent(isAuthenticated, activeTab, user, role)
    }
  }
}
