/**
 * The admin `UsersManagement` page (src/pages/admin/UsersManagement.tsx): the
 * search and role filter over the user list, and the active/inactive toggle.
 */
module UsersManagement {
  import opened Base
  import opened Text
  import opened Seqs
  import opened Roles

  /** The filter callback: the term (untrimmed, case-folded) in the name or email, and the role filter. */
  predicate Keep(searchTerm: string, roleFilter: Option<Role>, u: User) {
    (searchTerm == "" || Contains(Lower(u.name), Lower(searchTerm)) || Contains(Lower(u.email), Lower(searchTerm)))
    && (roleFilter.None? || u.role == roleFilter.value)
  }

  /** `filteredUsers` */
  function FilteredUsers(users: seq<User>, searchTerm: string, roleFilter: Option<Role>): (r: seq<User>)
    ensures IsSubseq(r, users)
    ensures forall i :: 0 <= i < |r| ==> Keep(searchTerm, roleFilter, r[i])
  {
    FilterIsSubseq(users, (u: User) => Keep(searchTerm, roleFilter, u));
    Filter(users, (u: User) => Keep(searchTerm, roleFilter, u))
  }

  /** A user is listed exactly when it is stored and passes both the search and the role filter. */
  lemma {:induction false} FilteredUsersMembers(users: seq<User>, searchTerm: string, roleFilter: Option<Role>, u: User)
    ensures u in FilteredUsers(users, searchTerm, roleFilter) <==> u in users && Keep(searchTerm, roleFilter, u)
  {
    FilterMembers(users, (u: User) => Keep(searchTerm, roleFilter, u), u);
  }

  /** Every copy of a listed user survives, and no copy of a filtered-out one. */
  lemma FilteredUsersCount(users: seq<User>, searchTerm: string, roleFilter: Option<Role>, u: User)
    ensures multiset(FilteredUsers(users, searchTerm, roleFilter))[u] ==
              if Keep(searchTerm, roleFilter, u) then multiset(users)[u] else 0
  {
    FilterCount(users, (u: User) => Keep(searchTerm, roleFilter, u), u);
  }

  /** No term and no role filter: everybody is listed. */
  lemma {:induction false} NoFilterKeepsAll(users: seq<User>)
    ensures FilteredUsers(users, "", None) == users
  {
    FilterAll(users, (u: User) => Keep("", None, u));
  }

  /** `!u.isActive` on an optional flag: an absent flag is falsy, so it becomes `true`. */
  function Flip(active: Option<bool>): (r: Option<bool>)
    ensures r.Some?
    ensures active.Some? ==> r.value == !active.value
    ensures active.None? ==> r.value
  {
    match active
    case None => Some(true)
    case Some(b) => Some(!b)
  }

  /**
   * `handleToggleStatus(user)`: nothing when the clicked user's flag is not a
   * boolean; otherwise every entry with its id gets its own flag negated.
   */
  function ToggleStatus(users: seq<User>, clicked: User): (r: seq<User>)
    ensures |r| == |users|
    ensures clicked.isActive.None? ==> r == users
    ensures clicked.isActive.Some? ==>
              forall i :: 0 <= i < |users| ==>
                r[i] == if users[i].id == clicked.id then users[i].(isActive := Flip(users[i].isActive)) else users[i]
  {
    if clicked.isActive.None? then users
    else UpdateWhere(users, (u: User) => u.id == clicked.id, (u: User) => u.(isActive := Flip(u.isActive)))
  }

  /** Toggling the same user twice restores the list when its entries carry a boolean flag. */
  lemma {:induction false} ToggleTwiceRestores(users: seq<User>, clicked: User)
    requires clicked.isActive.Some?
    requires forall i :: 0 <= i < |users| && users[i].id == clicked.id ==> users[i].isActive.Some?
    ensures ToggleStatus(ToggleStatus(users, clicked), clicked) == users
  {
    var once := ToggleStatus(users, clicked);
    var twice := ToggleStatus(once, clicked);
    forall i | 0 <= i < |users| ensures twice[i] == users[i] {
      if users[i].id == clicked.id {
        assert once[i] == users[i].(isActive := Flip(users[i].isActive));
      }
    }
  }

  /** The page's state; the user list starts as the mock list given here. */
  class UsersPage {
    var searchTerm: string
    var roleFilter: Option<Role>
    var users: seq<User>

    constructor (mockUsers: seq<User>)
      ensures searchTerm == "" && roleFilter == None && users == mockUsers
      ensures FilteredUsers(users, searchTerm, roleFilter) == users
    {
      searchTerm := "";
      roleFilter := None;
      users := mockUsers;
      new;
      NoFilterKeepsAll(mockUsers);
    }

    method SetSearchTerm(t: string)
      modifies this
      ensures searchTerm == t && roleFilter == old(roleFilter) && users == old(users)
    {
      searchTerm := t;
    }

    method SetRoleFilter(role: Option<Role>)
      modifies this
      ensures roleFilter == role && searchTerm == old(searchTerm) && users == old(users)
    {
      roleFilter := role;
    }

    method HandleToggleStatus(clicked: User)
      modifies this
      ensures users == ToggleStatus(old(users), clicked)
      ensures searchTerm == old(searchTerm) && roleFilter == old(roleFilter)
    {
      if clicked.isActive.None? {
        return;
      }
      users := ToggleStatus(users, clicked);
    }
  }
}
