/**
 * The three role portals (AdminPortal, SalesPortal and CustomerPortal). Each admits exactly one
 * role, compares only `user?.role`, and has no loading state, so a session
 * that is still loading (no user yet) is sent to /unauthorized.
 */
module Portals {
  import opened Base
  import opened Roles

  datatype PortalOutcome =
    | RedirectToUnauthorized
      /** The portal's sidebar, badge, `Outlet` and accessibility controls. */
    | PortalLayout

  /** `user?.role !== portalRole ? <Navigate to="/unauthorized" replace /> : layout` */
  function PortalGate(portalRole: Role, user: Option<User>): (o: PortalOutcome)
    ensures o == PortalLayout <==> RoleOf(user) == Some(portalRole)
  {
    if RoleOf(user) != Some(portalRole) then RedirectToUnauthorized else PortalLayout
  }

  function AdminPortal(user: Option<User>): (o: PortalOutcome)
    ensures o == PortalLayout <==> user.Some? && user.value.role == Admin
  {
    PortalGate(Admin, user)
  }

  function SalesPortal(user: Option<User>): (o: PortalOutcome)
    ensures o == PortalLayout <==> user.Some? && user.value.role == Salesperson
  {
    PortalGate(Salesperson, user)
  }

  function CustomerPortal(user: Option<User>): (o: PortalOutcome)
    ensures o == PortalLayout <==> user.Some? && user.value.role == Customer
  {
    PortalGate(Customer, user)
  }

  /** Every signed-in user enters exactly one portal; nobody signed in enters none. */
  lemma {:induction false} PortalsPartitionUsers(user: Option<User>)
    ensures user.None? ==>
              AdminPortal(user) == SalesPortal(user) == CustomerPortal(user) == RedirectToUnauthorized
    ensures user.Some? ==>
              (if AdminPortal(user) == PortalLayout then 1 else 0)
              + (if SalesPortal(user) == PortalLayout then 1 else 0)
              + (if CustomerPortal(user) == PortalLayout then 1 else 0) == 1
  {
  }
}
