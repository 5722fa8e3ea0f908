/**
 * The main `Sidebar` (src/components/Sidebar.tsx): a constant menu table
 * filtered by the signed-in user's role, with the item for the current
 * location highlighted.
 */
module Sidebar {
  import opened Base
  import opened Roles
  import opened Seqs

  datatype MenuItem = MenuItem(caption: string, path: string, allowedRoles: seq<Role>)

  const EveryRole: seq<Role> := [Customer, Salesperson, Admin]

  const MenuItems: seq<MenuItem> := [
    MenuItem("Dashboard", "/", EveryRole),
    MenuItem("Analytics", "/analytics", [Admin]),
    MenuItem("Transactions", "/transactions", [Salesperson, Admin]),
    MenuItem("Notifications", "/notifications", EveryRole),
    MenuItem("Profile", "/profile", EveryRole),
    MenuItem("Settings", "/settings", [Admin])
  ]

  /** The filter's test: the allow-list names the role. */
  function Allowed(role: Role): MenuItem -> bool {
    (item: MenuItem) => role in item.allowedRoles
  }

  /** `visibleMenuItems`: nothing without a user, else the items whose allow-list names the role. */
  function VisibleMenuItems(user: Option<User>): (r: seq<MenuItem>)
    ensures user.None? ==> r == []
    ensures user.Some? ==> IsSubseq(r, MenuItems)
    ensures forall i :: 0 <= i < |r| ==> user.value.role in r[i].allowedRoles
  {
    match user
    case None => []
    case Some(u) =>
      FilterIsSubseq(MenuItems, Allowed(u.role));
      Filter(MenuItems, Allowed(u.role))
  }

  /** An item is shown exactly when it is in the table and its allow-list names the user's role. */
  lemma VisibleMenuItemsMembers(u: User, item: MenuItem)
    ensures item in VisibleMenuItems(Some(u)) <==> item in MenuItems && u.role in item.allowedRoles
  {
    FilterMembers(MenuItems, Allowed(u.role), item);
  }

  /** `location.pathname === item.path`: exact comparison, no prefix matching. */
  predicate IsActive(pathname: string, item: MenuItem) {
    pathname == item.path
  }

  const Dashboard := MenuItems[0]
  const AnalyticsItem := MenuItems[1]
  const TransactionsItem := MenuItems[2]
  const NotificationsItem := MenuItems[3]
  const ProfileItem := MenuItems[4]
  const SettingsItem := MenuItems[5]

  /** A single item passes the filter or is dropped. */
  lemma FilterOne(item: MenuItem, p: MenuItem -> bool)
    ensures Filter([item], p) == if p(item) then [item] else []
  {
    assert [item][1..] == [];
  }

  /** The items of the first `k` table entries that the role may see. */
  function KeptPrefix(role: Role, k: nat): seq<MenuItem>
    requires k <= |MenuItems|
  {
    if k == 0 then []
    else KeptPrefix(role, k - 1) + (if role in MenuItems[k - 1].allowedRoles then [MenuItems[k - 1]] else [])
  }

  /** Filtering the first `k` table entries keeps exactly `KeptPrefix`. */
  lemma {:induction false} FilterPrefix(role: Role, k: nat)
    requires k <= |MenuItems|
    ensures Filter(MenuItems[..k], Allowed(role)) == KeptPrefix(role, k)
  {
    if k > 0 {
      FilterPrefix(role, k - 1);
      assert MenuItems[..k] == MenuItems[..k - 1] + [MenuItems[k - 1]];
      FilterConcat(MenuItems[..k - 1], [MenuItems[k - 1]], Allowed(role));
      FilterOne(MenuItems[k - 1], Allowed(role));
    }
  }

  /** The visible menu is the table's entries the role may see, in table order. */
  lemma VisibleIsKeptPrefix(u: User)
    ensures VisibleMenuItems(Some(u)) == KeptPrefix(u.role, 6)
  {
    FilterPrefix(u.role, 6);
    assert MenuItems[..6] == MenuItems;
  }

  /** A customer sees Dashboard, Notifications and Profile. */
  lemma {:induction false} CustomerMenu(u: User)
    requires u.role == Customer
    ensures VisibleMenuItems(Some(u)) == [Dashboard, NotificationsItem, ProfileItem]
  {
    VisibleIsKeptPrefix(u);
    assert KeptPrefix(u.role, 3) == [Dashboard];
    assert KeptPrefix(u.role, 4) == [Dashboard, NotificationsItem];
  }

  /** A salesperson also sees Transactions, but neither Analytics nor Settings. */
  lemma {:induction false} SalespersonMenu(u: User)
    requires u.role == Salesperson
    ensures VisibleMenuItems(Some(u)) == [Dashboard, TransactionsItem, NotificationsItem, ProfileItem]
  {
    VisibleIsKeptPrefix(u);
    assert KeptPrefix(u.role, 2) == [Dashboard];
    assert KeptPrefix(u.role, 4) == [Dashboard, TransactionsItem, NotificationsItem];
  }

  /** An admin sees the whole table. */
  lemma {:induction false} AdminMenu(u: User)
    requires u.role == Admin
    ensures VisibleMenuItems(Some(u)) == MenuItems
  {
    VisibleIsKeptPrefix(u);
    assert KeptPrefix(u.role, 3) == MenuItems[..3];
    assert KeptPrefix(u.role, 6) == MenuItems[..6];
  }

  /** Menu paths are distinct (here they even differ in length). */
  lemma MenuPathsDistinct(a: nat, b: nat)
    requires a < |MenuItems| && b < |MenuItems| && MenuItems[a].path == MenuItems[b].path
    ensures a == b
  {
    assert |MenuItems[a].path| == |MenuItems[b].path|;
  }

  /** Since menu paths are distinct, at most one visible item is highlighted for any location. */
  lemma AtMostOneActive(user: Option<User>, pathname: string, i: nat, j: nat)
    requires i < |VisibleMenuItems(user)| && j < |VisibleMenuItems(user)|
    requires IsActive(pathname, VisibleMenuItems(user)[i]) && IsActive(pathname, VisibleMenuItems(user)[j])
    ensures VisibleMenuItems(user)[i] == VisibleMenuItems(user)[j]
  {
    var r := VisibleMenuItems(user);
    VisibleMenuItemsMembers(user.value, r[i]);
    VisibleMenuItemsMembers(user.value, r[j]);
    var a :| 0 <= a < |MenuItems| && MenuItems[a] == r[i];
    var b :| 0 <= b < |MenuItems| && MenuItems[b] == r[j];
    MenuPathsDistinct(a, b);
  }
}
