/**
 * `AppRoutes` (src/routes.tsx): the table from paths to pages and the guard
 * each page sits behind, and the screen a navigation ends on.
 */
module Routes {
  import opened Base
  import opened Roles
  import ProtectedRoute

  /** The pages `AppRoutes` declares, one per `<Route path=…>`. */
  datatype Page =
    | Login | Signup
    | Unauthorized | Profile | Notifications | Settings
    | CustomerProfile
    | CustomerList | CustomerDetail(customerId: string) | Transactions
    | Analytics
    | Index

  /** The element a route is nested under. */
  datatype Guard =
    | Public
      /** `<ProtectedRoute />` without `allowedRoles`. */
    | AnyAuthenticated
      /** `<ProtectedRoute allowedRoles={…} />` */
    | RolesOnly(allowed: seq<Role>)

  /**
   * What the browser ends up showing for a navigation. `LoginRedirect(from)`
   * is the redirect to "/login" carrying the requested location in `state.from`.
   */
  datatype Screen = Show(page: Page) | Placeholder | Redirect(to: string) | LoginRedirect(from: string)

  /** The guard table: which `ProtectedRoute` group each page is declared in. */
  function GuardOf(page: Page): Guard {
    match page
    case Login | Signup | Index => Public
    case Unauthorized | Profile | Notifications | Settings => AnyAuthenticated
    case CustomerProfile => RolesOnly([Customer])
    case CustomerList | CustomerDetail(_) | Transactions => RolesOnly([Salesperson, Admin])
    case Analytics => RolesOnly([Admin])
  }

  const CustomerDetailPrefix := "/customers/"

  /** A path segment: non-empty, without a slash. */
  predicate IsSegment(s: string) {
    |s| > 0 && forall i :: 0 <= i < |s| ==> s[i] != '/'
  }

  /** The path a page is reached at. */
  function PathOf(page: Page): string
    requires page.CustomerDetail? ==> IsSegment(page.customerId)
  {
    match page
    case Login => "/login"
    case Signup => "/signup"
    case Unauthorized => "/unauthorized"
    case Profile => "/profile"
    case Notifications => "/notifications"
    case Settings => "/settings"
    case CustomerProfile => "/customer-profile"
    case CustomerList => "/customers"
    case CustomerDetail(id) => CustomerDetailPrefix + id
    case Transactions => "/transactions"
    case Analytics => "/analytics"
    case Index => "/"
  }

  /** Route matching: literal paths, and one segment after "/customers/" for the detail page. */
  function Match(path: string): (page: Option<Page>)
    ensures page.Some? && page.value.CustomerDetail? ==> IsSegment(page.value.customerId)
    ensures page.Some? ==> PathOf(page.value) == path
  {
    if path == "/login" then Some(Login)
    else if path == "/signup" then Some(Signup)
    else if path == "/unauthorized" then Some(Unauthorized)
    else if path == "/profile" then Some(Profile)
    else if path == "/notifications" then Some(Notifications)
    else if path == "/settings" then Some(Settings)
    else if path == "/customer-profile" then Some(CustomerProfile)
    else if path == "/customers" then Some(CustomerList)
    else if |path| > |CustomerDetailPrefix| && path[..|CustomerDetailPrefix|] == CustomerDetailPrefix
            && IsSegment(path[|CustomerDetailPrefix|..])
    then
      assert path == CustomerDetailPrefix + path[|CustomerDetailPrefix|..];
      Some(CustomerDetail(path[|CustomerDetailPrefix|..]))
    else if path == "/transactions" then Some(Transactions)
    else if path == "/analytics" then Some(Analytics)
    else if path == "/" then Some(Index)
    else None
  }

  /** The allow-list the guard hands to `ProtectedRoute`; `None` when the prop is omitted. */
  function AllowList(g: Guard): Option<seq<Role>>
    requires !g.Public?
  {
    if g.AnyAuthenticated? then None else Some(g.allowed)
  }

  /** Opening a matched page: public pages show at once, guarded ones go through `ProtectedRoute`. */
  function Open(page: Page, path: string, isLoading: bool, user: Option<User>): (s: Screen)
    ensures s.Show? ==> s.page == page
    ensures GuardOf(page).Public? ==> s == Show(page)
    ensures !GuardOf(page).Public? ==>
              (s == Show(page) <==>
                 (!isLoading && user.Some? &&
                  (GuardOf(page).AnyAuthenticated? || user.value.role in GuardOf(page).allowed)))
    ensures !GuardOf(page).Public? && !isLoading && user.None? ==> s == LoginRedirect(path)
  {
    var guard := GuardOf(page);
    if guard.Public? then Show(page)
    else
      match ProtectedRoute.Decide(isLoading, user, AllowList(guard), path)
      case LoadingPlaceholder => Placeholder
      case RedirectToLogin(from) => LoginRedirect(from)
      case RedirectToUnauthorized => Redirect("/unauthorized")
      case RenderWithSidebar => Show(page)
  }

  /** Navigating to `path`; anything unmatched (`path="*"`) is sent to "/". */
  function Navigate(path: string, isLoading: bool, user: Option<User>): (s: Screen)
    ensures Match(path).None? <==> s == Redirect("/")
    ensures s.Show? ==> Match(path) == Some(s.page)
  {
    match Match(path)
    case None => Redirect("/")
    case Some(page) => Open(page, path, isLoading, user)
  }

  /** "/login", "/signup" and "/" are reachable by anybody, even while the session loads. */
  lemma PublicPages(isLoading: bool, user: Option<User>)
    ensures Navigate("/login", isLoading, user) == Show(Login)
    ensures Navigate("/signup", isLoading, user) == Show(Signup)
    ensures Navigate("/", isLoading, user) == Show(Index)
  {
  }

  /** The any-role pages show for every signed-in user. */
  lemma AnyRolePages(u: User, page: Page)
    requires page in {Unauthorized, Profile, Notifications, Settings}
    ensures Open(page, PathOf(page), false, Some(u)) == Show(page)
  {
  }

  /** "/customer-profile" admits customers only. */
  lemma CustomerProfileForCustomers(u: User)
    ensures Open(CustomerProfile, "/customer-profile", false, Some(u)) ==
              if u.role == Customer then Show(CustomerProfile) else Redirect("/unauthorized")
  {
  }

  /** The customer pages and "/transactions" admit salespeople and admins only. */
  lemma SalesPagesForSalesAndAdmin(u: User, page: Page, path: string)
    requires page == CustomerList || page.CustomerDetail? || page == Transactions
    ensures Open(page, path, false, Some(u)) ==
              if u.role != Customer then Show(page) else Redirect("/unauthorized")
  {
  }

  /** "/analytics" admits admins only. */
  lemma AnalyticsForAdmin(u: User)
    ensures Open(Analytics, "/analytics", false, Some(u)) ==
              if u.role == Admin then Show(Analytics) else Redirect("/unauthorized")
  {
  }

  /** Without a session, every page that has a guard redirects to "/login", remembering where it was going. */
  lemma NoSessionGoesToLogin(path: string)
    requires Match(path).Some? && !GuardOf(Match(path).value).Public?
    ensures Navigate(path, false, None) == LoginRedirect(path)
  {
  }

  /** A customer never sees the admin-only analytics page, whatever the loading state. */
  lemma CustomerNeverSeesAnalytics(u: User, isLoading: bool, path: string)
    requires u.role == Customer
    ensures Navigate(path, isLoading, Some(u)) != Show(Analytics)
  {
  }

  /** Paths of the role portals are not in this table: "/admin/analytics" falls back to "/". */
  lemma PortalPathsFallBack(isLoading: bool, user: Option<User>)
    ensures Navigate("/admin/analytics", isLoading, user) == Redirect("/")
  {
    var p := "/admin/analytics";
    assert p[1] == 'a' && p[2] == 'd';
    assert p[..|CustomerDetailPrefix|] != CustomerDetailPrefix by {
      assert p[..|CustomerDetailPrefix|][1] != CustomerDetailPrefix[1];
    }
  }
}
