/**
 * `ProtectedRoute` (src/components/ProtectedRoute.tsx): the guard placed
 * around a group of routes, deciding between a loading placeholder, a
 * redirect and the page inside the sidebar chrome.
 */
module ProtectedRoute {
  import opened Base
  import opened Roles

  datatype Outcome =
    | LoadingPlaceholder
      /** `<Navigate to="/login" state={{ from: location }} replace />` */
    | RedirectToLogin(from: string)
      /** `<Navigate to="/unauthorized" replace />` */
    | RedirectToUnauthorized
      /** The sidebar and the `Outlet` of the matched child route. */
    | RenderWithSidebar

  /** `allowedRoles.includes(role)`: JavaScript array membership. */
  predicate Includes(allowedRoles: seq<Role>, role: Role) {
    exists i :: 0 <= i < |allowedRoles| && allowedRoles[i] == role
  }

  /**
   * The guard's decision. `allowedRoles` is `None` when the prop is omitted;
   * an empty list is present and truthy, so it admits nobody.
   */
  function Decide(isLoading: bool, user: Option<User>, allowedRoles: Option<seq<Role>>, location: string): (o: Outcome)
    ensures isLoading ==> o == LoadingPlaceholder
    ensures o == RedirectToLogin(location) <==> !isLoading && user.None?
    ensures o.RedirectToUnauthorized? <==>
              !isLoading && user.Some? && allowedRoles.Some? && !Includes(allowedRoles.value, user.value.role)
    ensures o.RenderWithSidebar? <==>
              !isLoading && user.Some? && (allowedRoles.None? || Includes(allowedRoles.value, user.value.role))
  {
    if isLoading then LoadingPlaceholder
    else if user.None? then RedirectToLogin(location)
    else if allowedRoles.Some? && !Includes(allowedRoles.value, user.value.role) then RedirectToUnauthorized
    else RenderWithSidebar
  }

  /** An explicitly empty allow-list turns every signed-in user away. */
  lemma EmptyAllowListAdmitsNobody(user: User, location: string)
    ensures Decide(false, Some(user), Some([]), location) == RedirectToUnauthorized
  {
  }

  /** A rendered page always has a signed-in user whose role the allow-list names, if there is one. */
  lemma RenderIsAuthorized(isLoading: bool, user: Option<User>, allowedRoles: Option<seq<Role>>, location: string)
    requires Decide(isLoading, user, allowedRoles, location) == RenderWithSidebar
    ensures !isLoading && user.Some?
    ensures allowedRoles.Some? ==> user.value.role in allowedRoles.value
  {
  }
}
