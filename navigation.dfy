/**
 * `getNavItems` (src/utils/navigationUtils.ts): the navigation list for a
 * user, four common entries followed by the entries of the user's role.
 */
module Navigation {
  import opened Base
  import opened Roles
  import Sidebar
  import Routes

  /** `NavItem`; the icon is not part of the model. */
  datatype NavItem = NavItem(name: string, href: string)

  const CommonItems: seq<NavItem> := [
    NavItem("Dashboard", "/"),
    NavItem("Profile", "/profile"),
    NavItem("Notifications", "/notifications"),
    NavItem("Settings", "/settings")
  ]

  const AdminItems: seq<NavItem> := [
    NavItem("Analytics", "/analytics"),
    NavItem("Users", "/admin/users"),
    NavItem("Sales", "/admin/sales"),
    NavItem("Customers", "/admin/customers"),
    NavItem("Transactions", "/admin/transactions")
  ]

  const SalespersonItems: seq<NavItem> := [
    NavItem("Team", "/sales/team"),
    NavItem("Customers", "/sales/customers"),
    NavItem("Transactions", "/sales/transactions"),
    NavItem("Performance", "/sales/performance")
  ]

  const CustomerItems: seq<NavItem> := [
    NavItem("My Profile", "/customer-profile")
  ]

  /** The entries a role adds after the common ones; nothing without a user. */
  function RoleItems(role: Option<Role>): seq<NavItem> {
    match role
    case None => []
    case Some(Admin) => AdminItems
    case Some(Salesperson) => SalespersonItems
    case Some(Customer) => CustomerItems
  }

  /** `getNavItems`: the common entries first, then those of `user?.role`. */
  function GetNavItems(user: Option<User>): (r: seq<NavItem>)
    ensures |r| >= |CommonItems| && r[..|CommonItems|] == CommonItems
    ensures user.None? ==> r == CommonItems
    ensures |r| == (match RoleRank(user) case 0 => 4 case 1 => 5 case 2 => 8 case _ => 9)
  {
    var r := CommonItems + RoleItems(RoleOf(user));
    assert r[..|CommonItems|] == CommonItems;
    r
  }

  /** Helper numbering the four cases of `GetNavItems`: no user, customer, salesperson, admin. */
  function RoleRank(user: Option<User>): nat {
    match user
    case None => 0
    case Some(u) => match u.role case Customer => 1 case Salesperson => 2 case Admin => 3
  }

  /** No two entries of a list share an `href`. */
  predicate DistinctHrefs(s: seq<NavItem>) {
    forall i, j :: 0 <= i < j < |s| ==> s[i].href != s[j].href
  }

  /** An admin gets the common entries and five admin pages. */
  lemma AdminNav(u: User)
    requires u.role == Admin
    ensures GetNavItems(Some(u)) == CommonItems + AdminItems
    ensures |GetNavItems(Some(u))| == 9
  {
  }

  /** A salesperson gets the common entries and four "/sales/..." pages. */
  lemma SalespersonNav(u: User)
    requires u.role == Salesperson
    ensures GetNavItems(Some(u)) == CommonItems + SalespersonItems
    ensures |GetNavItems(Some(u))| == 8
  {
  }

  /** A customer gets the common entries and "/customer-profile". */
  lemma CustomerNav(u: User)
    requires u.role == Customer
    ensures GetNavItems(Some(u)) == CommonItems + CustomerItems
    ensures |GetNavItems(Some(u))| == 5
  {
  }

  /** The `href`s of every list `getNavItems` returns are pairwise distinct. */
  lemma {:induction false} NavHrefsDistinct(user: Option<User>)
    ensures DistinctHrefs(GetNavItems(user))
  {
    match RoleOf(user)
    case None =>
      CommonHrefsDistinct();
    case Some(Admin) =>
      AdminHrefsDistinct();
    case Some(Salesperson) =>
      SalespersonHrefsDistinct();
    case Some(Customer) =>
      CustomerHrefsDistinct();
  }

  lemma CommonHrefsDistinct()
    ensures DistinctHrefs(CommonItems)
  {
    var s := CommonItems;
    forall i, j | 0 <= i < j < |s| ensures s[i].href != s[j].href {
      assert |s[i].href| != |s[j].href|;
    }
  }

  /** "/admin/users" and "/admin/sales" share a length and differ after "/admin/"; every other pair differs in length. */
  lemma AdminHrefsDistinct()
    ensures DistinctHrefs(CommonItems + AdminItems)
  {
    var s := CommonItems + AdminItems;
    assert |s| == 9;
    forall i, j | 0 <= i < j < 9 ensures s[i].href != s[j].href {
      if i == 5 && j == 6 {
        assert s[i].href[7] != s[j].href[7];
      } else {
        assert |s[i].href| != |s[j].href|;
      }
    }
  }

  lemma SalespersonHrefsDistinct()
    ensures DistinctHrefs(CommonItems + SalespersonItems)
  {
    var s := CommonItems + SalespersonItems;
    assert |s| == 8;
    forall i, j | 0 <= i < j < 8 ensures s[i].href != s[j].href {
      assert |s[i].href| != |s[j].href|;
    }
  }

  lemma CustomerHrefsDistinct()
    ensures DistinctHrefs(CommonItems + CustomerItems)
  {
    var s := CommonItems + CustomerItems;
    assert |s| == 5;
    forall i, j | 0 <= i < j < 5 ensures s[i].href != s[j].href {
      assert |s[i].href| != |s[j].href|;
    }
  }

  /**
   * "/settings" is treated three ways: the main sidebar lists it for admins only,
   * the navigation list offers it to everybody, and the route table lets any
   * signed-in user open it. A non-admin can reach a page the sidebar hides.
   */
  lemma {:induction false} SettingsAccessDisagrees(u: User)
    requires u.role != Admin
    ensures Sidebar.SettingsItem !in Sidebar.VisibleMenuItems(Some(u))
    ensures NavItem("Settings", "/settings") in GetNavItems(Some(u))
    ensures Routes.Navigate("/settings", false, Some(u)) == Routes.Show(Routes.Settings)
  {
    Sidebar.VisibleMenuItemsMembers(u, Sidebar.SettingsItem);
    assert GetNavItems(Some(u))[3] == NavItem("Settings", "/settings");
  }
}
