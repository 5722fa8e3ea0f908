/** The identity types of the authentication store (src/types/auth.ts). */
module Roles {
  import opened Base

  /** `UserRole`: the closed set of roles. */
  datatype Role = Customer | Salesperson | Admin

  /**
   * `User`: `createdAt` (a `Date`) and `avatar` are not part of the model;
   * `isActive` is optional in the source, hence an `Option`.
   */
  datatype User = User(id: string, email: string, name: string, role: Role, isActive: Option<bool>)

  /** `user?.role`: the role of the signed-in user, absent when nobody is signed in. */
  function RoleOf(user: Option<User>): (r: Option<Role>)
    ensures r.Some? <==> user.Some?
    ensures user.Some? ==> r.value == user.value.role
  {
    match user
    case None => None
    case Some(u) => Some(u.role)
  }
}
