/**
 * The mock authentication store of `AuthProvider` (src/contexts/AuthContext.tsx):
 * an in-memory user list, the signed-in user and a loading flag, changed by
 * login, signup, logout and profile updates. Thrown errors are `Err` results.
 */
module Auth {
  import opened Base
  import opened Text
  import opened Seqs
  import opened Roles

  /** `Partial<User>`: the fields an update supplies. */
  datatype UserPatch = UserPatch(
    id: Option<string>, email: Option<string>, name: Option<string>,
    role: Option<Role>, isActive: Option<Option<bool>>)

  /** `{ ...user, ...userData }`: supplied fields win, the others are kept. */
  function Merge(u: User, patch: UserPatch): (r: User)
    ensures r.id == (if patch.id.Some? then patch.id.value else u.id)
    ensures r.email == (if patch.email.Some? then patch.email.value else u.email)
    ensures r.name == (if patch.name.Some? then patch.name.value else u.name)
    ensures r.role == (if patch.role.Some? then patch.role.value else u.role)
    ensures r.isActive == (if patch.isActive.Some? then patch.isActive.value else u.isActive)
  {
    User(
      if patch.id.Some? then patch.id.value else u.id,
      if patch.email.Some? then patch.email.value else u.email,
      if patch.name.Some? then patch.name.value else u.name,
      if patch.role.Some? then patch.role.value else u.role,
      if patch.isActive.Some? then patch.isActive.value else u.isActive)
  }

  /** Applying the same update twice is applying it once; an empty update changes nothing. */
  lemma MergeIdempotent(u: User, patch: UserPatch)
    ensures Merge(Merge(u, patch), patch) == Merge(u, patch)
    ensures Merge(u, UserPatch(None, None, None, None, None)) == u
  {
  }

  /** The three accounts the store starts with. */
  const MockUsers: seq<User> := [
    User("1", "customer@example.com", "John Customer", Customer, None),
    User("2", "sales@example.com", "Jane Sales", Salesperson, None),
    User("3", "admin@example.com", "Admin User", Admin, None)
  ]

  /** The position of the first stored user with this email, as `find` would return it. */
  function FindByEmail(users: seq<User>, email: string): (r: Option<nat>)
    ensures r.Some? <==> exists i :: 0 <= i < |users| && users[i].email == email
    ensures r.Some? ==> r.value < |users| && users[r.value].email == email
    ensures r.Some? ==> forall j :: 0 <= j < r.value ==> users[j].email != email
  {
    FirstIndex(users, (u: User) => u.email == email)
  }

  /** The position of the first stored user with this id (`findIndex`). */
  function FindById(users: seq<User>, id: string): (r: Option<nat>)
    ensures r.Some? <==> exists i :: 0 <= i < |users| && users[i].id == id
    ensures r.Some? ==> r.value < |users| && users[r.value].id == id
    ensures r.Some? ==> forall j :: 0 <= j < r.value ==> users[j].id != id
  {
    FirstIndex(users, (u: User) => u.id == id)
  }

  /** The account a successful signup creates: id `String(length + 1)`, no `isActive`. */
  function NewUser(count: nat, email: string, name: string, role: Role): User {
    User(NatToString(count + 1), email, name, role, None)
  }

  /** The store after `updateProfile`: the entry with the current user's id replaced, if any. */
  function UpdatedStore(users: seq<User>, current: User, updated: User): (r: seq<User>)
    ensures |r| == |users|
    ensures FindById(users, current.id).None? ==> r == users
    ensures FindById(users, current.id).Some? ==> r == users[FindById(users, current.id).value := updated]
  {
    match FindById(users, current.id)
    case None => users
    case Some(i) => users[i := updated]
  }

  /** Entry `i` of the store has id `String(i + 1)`. */
  predicate SequentialIds(users: seq<User>) {
    forall i :: 0 <= i < |users| ==> users[i].id == NatToString(i + 1)
  }

  lemma InitialIdsSequential()
    ensures SequentialIds(MockUsers)
  {
    assert NatToString(1) == "1" && NatToString(2) == "2" && NatToString(3) == "3";
  }

  /** Sequential ids are pairwise distinct. */
  lemma {:induction false} SequentialIdsDistinct(users: seq<User>, i: nat, j: nat)
    requires SequentialIds(users) && i < |users| && j < |users| && i != j
    ensures users[i].id != users[j].id
  {
    if users[i].id == users[j].id {
      NatToStringInjective(i + 1, j + 1);
    }
  }

  /** A signup on a store with sequential ids appends an entry with a fresh id, keeping them sequential. */
  lemma {:induction false} SignupKeepsIdsSequential(users: seq<User>, email: string, name: string, role: Role)
    requires SequentialIds(users)
    ensures SequentialIds(users + [NewUser(|users|, email, name, role)])
    ensures forall i :: 0 <= i < |users| ==> users[i].id != NewUser(|users|, email, name, role).id
  {
    var n := NewUser(|users|, email, name, role);
    forall i | 0 <= i < |users| ensures users[i].id != n.id {
      if users[i].id == n.id {
        NatToStringInjective(i + 1, |users| + 1);
      }
    }
  }

  /** An update that leaves the id alone keeps the ids sequential. */
  lemma {:induction false} UpdateKeepsIdsSequential(users: seq<User>, current: User, patch: UserPatch)
    requires SequentialIds(users) && patch.id.None?
    ensures SequentialIds(UpdatedStore(users, current, Merge(current, patch)))
  {
    var r := UpdatedStore(users, current, Merge(current, patch));
    match FindById(users, current.id)
    case None =>
    case Some(k) =>
      forall i | 0 <= i < |r| ensures r[i].id == NatToString(i + 1) {
        if i == k {
          assert r[i].id == current.id == users[k].id;
        }
      }
  }

  /** An update carrying an `id` can give two entries the same id: user "1" renamed to "2". */
  lemma UpdateWithIdBreaksDistinctIds()
    ensures var current := MockUsers[0];
            var r := UpdatedStore(MockUsers, current, Merge(current, UserPatch(Some("2"), None, None, None, None)));
            r[0].id == r[1].id
  {
    var current := MockUsers[0];
    assert FindById(MockUsers, current.id) == Some(0);
  }

  /** The provider's state. `users` stands for the module-level `mockUsers` array. */
  class AuthStore {
    var users: seq<User>
    var user: Option<User>
    var isLoading: bool

    /** Mounting the provider: the mock accounts, nobody signed in, loading. */
    constructor ()
      ensures users == MockUsers && user == None && isLoading
      ensures SequentialIds(users)
    {
      users := MockUsers;
      user := None;
      isLoading := true;
      InitialIdsSequential();
    }

    /** The mount effect: a saved session (already decoded; `None` if absent or unreadable) is restored. */
    method Restore(saved: Option<User>)
      modifies this
      ensures user == (if saved.Some? then saved else old(user))
      ensures !isLoading && users == old(users)
    {
      if saved.Some? {
        user := saved;
      }
      isLoading := false;
    }

    /** `login`: the first account with this email becomes current; the password is not looked at. */
    method Login(email: string, password: string) returns (res: Result<User>)
      modifies this
      ensures users == old(users) && !isLoading
      ensures FindByEmail(users, email).Some? ==>
                res == Ok(users[FindByEmail(users, email).value]) && user == Some(res.value)
      ensures FindByEmail(users, email).None? ==>
                res == Err("Invalid credentials") && user == old(user)
    {
      isLoading := true;
      match FindByEmail(users, email) {
        case Some(i) =>
          user := Some(users[i]);
          res := Ok(users[i]);
        case None =>
          res := Err("Invalid credentials");
      }
      isLoading := false;
    }

    /** `signup`: rejected for a stored email, else a new account is appended and signed in. */
    method Signup(email: string, password: string, name: string, role: Role) returns (res: Result<User>)
      modifies this
      ensures !isLoading
      ensures FindByEmail(old(users), email).Some? ==>
                res == Err("User already exists") && users == old(users) && user == old(user)
      ensures FindByEmail(old(users), email).None? ==>
                res == Ok(NewUser(|old(users)|, email, name, role)) &&
                users == old(users) + [res.value] && user == Some(res.value)
      ensures old(SequentialIds(users)) ==> SequentialIds(users)
    {
      isLoading := true;
      if FindByEmail(users, email).Some? {
        res := Err("User already exists");
      } else {
        var n := NewUser(|users|, email, name, role);
        if SequentialIds(users) {
          SignupKeepsIdsSequential(users, email, name, role);
        }
        users := users + [n];
        user := Some(n);
        res := Ok(n);
      }
      isLoading := false;
    }

    /** `logout`: nobody is signed in; the store is untouched. */
    method Logout()
      modifies this
      ensures user == None && users == old(users) && isLoading == old(isLoading)
    {
      user := None;
    }

    /** `updateProfile`: the merged user becomes current and replaces the stored entry with its id. */
    method UpdateProfile(patch: UserPatch) returns (res: Result<User>)
      modifies this
      ensures !isLoading
      ensures old(user).None? ==> res == Err("User not logged in") && users == old(users) && user == None
      ensures old(user).Some? ==>
                res == Ok(Merge(old(user).value, patch)) && user == Some(res.value) &&
                users == UpdatedStore(old(users), old(user).value, res.value)
      ensures old(user).Some? && patch.id.None? && old(SequentialIds(users)) ==> SequentialIds(users)
    {
      isLoading := true;
      if user.None? {
        res := Err("User not logged in");
      } else {
        var current := user.value;
        var updated := Merge(current, patch);
        if patch.id.None? && SequentialIds(users) {
          UpdateKeepsIdsSequential(users, current, patch);
        }
        users := UpdatedStore(users, current, updated);
        user := Some(updated);
        res := Ok(updated);
      }
      isLoading := false;
    }
  }
}
