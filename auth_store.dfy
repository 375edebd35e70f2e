/**
 * The session and user administration store (project/src/stores/authStore.ts):
 * who is logged in, and the user list with the policy that keeps at least one
 * administrator, refuses duplicate emails on creation and stops users from
 * deactivating or deleting themselves. Every policy check runs before any
 * change, so a refused request leaves the whole store as it was.
 */
module Auth {
  import opened Options
  import opened Seqs

  datatype User = User(id: string, name: string, email: string, password: string, role: string, active: bool)

  /** The fields a new user is created with: everything but the id. */
  datatype UserForm = UserForm(name: string, email: string, password: string, role: string, active: bool)

  /** The reasons a request is refused, one per error the store throws. */
  datatype AuthError =
    | EmailAlreadyRegistered
    | UserNotFound
    | CannotChangeOnlyAdminRole
    | CannotDeactivateOnlyActiveAdmin
    | CannotDeactivateSelf
    | CannotDeleteOnlyAdmin
    | CannotDeleteSelf

  const AdminRole := "admin"

  /** The one user the store starts with. */
  const SeedAdmin := User("1", "Administrador", "admin@fincapiza.com", "admin123", AdminRole, true)

  predicate IsAdmin(u: User) {
    u.role == AdminRole
  }

  predicate IsActiveAdmin(u: User) {
    u.role == AdminRole && u.active
  }

  /** `filter(u => u.role === 'admin').length`. */
  function AdminCount(users: seq<User>): nat {
    |Filter(users, IsAdmin)|
  }

  /** `filter(u => u.role === 'admin' && u.active).length`. */
  function ActiveAdminCount(users: seq<User>): nat {
    |Filter(users, IsActiveAdmin)|
  }

  /** `findIndex(u => u.id === id)`. */
  function IndexOfId(users: seq<User>, id: string): (i: int)
    ensures -1 <= i < |users|
    ensures i == -1 <==> forall j :: 0 <= j < |users| ==> users[j].id != id
    ensures 0 <= i ==> users[i].id == id && forall j :: 0 <= j < i ==> users[j].id != id
  {
    FindIndex(users, (u: User) => u.id == id)
  }

  /** `some(u => u.email === email)`. */
  predicate EmailTaken(users: seq<User>, email: string) {
    exists u :: u in users && u.email == email
  }

  /** The first active user with exactly these credentials. */
  function FindLogin(users: seq<User>, email: string, password: string): (r: Option<User>)
    ensures r.None? <==> forall u :: u in users ==> !(u.email == email && u.password == password && u.active)
    ensures r.Some? ==> r.value in users && r.value.email == email && r.value.password == password && r.value.active
    ensures r.Some? ==> exists i :: 0 <= i < |users| && users[i] == r.value
                          && forall j :: 0 <= j < i ==> !(users[j].email == email && users[j].password == password && users[j].active)
  {
    Find(users, (u: User) => u.email == email && u.password == password && u.active)
  }

  /** `{ ...stored, ...userData }` after an empty password was replaced by the stored one. */
  function UpdatedRecord(stored: User, data: User): (r: User)
    ensures r.(password := data.password) == data
    ensures data.password == "" ==> r.password == stored.password
    ensures data.password != "" ==> r.password == data.password
  {
    data.(password := if data.password == "" then stored.password else data.password)
  }

  /** The user at `i` with its `active` flag flipped. */
  function Toggled(u: User): User {
    u.(active := !u.active)
  }

  /** The users whose id is not `id`. */
  function Without(users: seq<User>, id: string): (r: seq<User>)
    ensures forall u :: u in r <==> u in users && u.id != id
  {
    Filter(users, (u: User) => u.id != id)
  }

  // ---------------------------------------------------------------------
  // The policy guards

  /** The only admin-role user may not be given another role. */
  predicate LosesOnlyAdmin(users: seq<User>, i: int, data: User)
    requires 0 <= i < |users|
  {
    AdminCount(users) == 1 && IsAdmin(users[i]) && data.role != AdminRole
  }

  /** The last active admin may not be deactivated. */
  predicate IsLastActiveAdmin(users: seq<User>, i: int)
    requires 0 <= i < |users|
  {
    IsActiveAdmin(users[i]) && ActiveAdminCount(users) == 1
  }

  /** The only admin-role user may not be deleted. */
  predicate IsOnlyAdmin(users: seq<User>, i: int)
    requires 0 <= i < |users|
  {
    IsAdmin(users[i]) && AdminCount(users) == 1
  }

  /** The only admin-role user is an admin no other user's role matches. */
  lemma OnlyAdminHasNoRival(users: seq<User>, i: int)
    requires 0 <= i < |users|
    ensures IsOnlyAdmin(users, i) <==> IsAdmin(users[i]) && forall j :: 0 <= j < |users| && j != i ==> !IsAdmin(users[j])
  {
    if IsAdmin(users[i]) {
      OnlyOnePasses(users, IsAdmin, i);
    }
  }

  /** The last active admin is an active admin while no other user is one. */
  lemma LastActiveAdminHasNoRival(users: seq<User>, i: int)
    requires 0 <= i < |users|
    ensures IsLastActiveAdmin(users, i) <==>
              IsActiveAdmin(users[i]) && forall j :: 0 <= j < |users| && j != i ==> !IsActiveAdmin(users[j])
  {
    if IsActiveAdmin(users[i]) {
      OnlyOnePasses(users, IsActiveAdmin, i);
    }
  }

  predicate IsCurrent(current: Option<User>, id: string) {
    current.Some? && current.value.id == id
  }

  // ---------------------------------------------------------------------
  // What the policy preserves

  predicate UniqueEmails(users: seq<User>) {
    forall i, j :: 0 <= i < j < |users| ==> users[i].email != users[j].email
  }

  predicate UniqueIds(users: seq<User>) {
    forall i, j :: 0 <= i < j < |users| ==> users[i].id != users[j].id
  }

  /** Creation refuses a registered email, so it keeps emails unique. */
  lemma CreateKeepsEmailsUnique(users: seq<User>, u: User)
    requires UniqueEmails(users) && !EmailTaken(users, u.email)
    ensures UniqueEmails(users + [u])
  {
    var after := users + [u];
    forall i, j | 0 <= i < j < |after|
      ensures after[i].email != after[j].email
    {
      if j == |users| {
        assert after[i] in users;
      }
    }
  }

  /** An update that passes the guard keeps at least one admin-role user. */
  lemma UpdateKeepsAnAdmin(users: seq<User>, i: int, data: User)
    requires 0 <= i < |users| && AdminCount(users) >= 1
    requires !LosesOnlyAdmin(users, i, data)
    ensures AdminCount(users[i := UpdatedRecord(users[i], data)]) >= 1
  {
    FilterUpdateAt(users, IsAdmin, i, UpdatedRecord(users[i], data));
  }

  /** A toggle that passes the guard keeps at least one active admin. */
  lemma ToggleKeepsAnActiveAdmin(users: seq<User>, i: int)
    requires 0 <= i < |users| && ActiveAdminCount(users) >= 1
    requires !IsLastActiveAdmin(users, i)
    ensures ActiveAdminCount(users[i := Toggled(users[i])]) >= 1
  {
    FilterUpdateAt(users, IsActiveAdmin, i, Toggled(users[i]));
  }

  /** A toggle changes no role, so the number of admin-role users stays as it was. */
  lemma ToggleKeepsAdminCount(users: seq<User>, i: int)
    requires 0 <= i < |users|
    ensures AdminCount(users[i := Toggled(users[i])]) == AdminCount(users)
  {
    FilterUpdateAt(users, IsAdmin, i, Toggled(users[i]));
  }

  /** With unique ids, a deletion removes just the user found, and so keeps at least one admin-role user. */
  lemma DeleteKeepsAnAdmin(users: seq<User>, id: string)
    requires UniqueIds(users) && AdminCount(users) >= 1
    requires var i := IndexOfId(users, id); 0 <= i && !IsOnlyAdmin(users, i)
    ensures var i := IndexOfId(users, id); Without(users, id) == users[..i] + users[i+1..]
    ensures AdminCount(Without(users, id)) >= 1
  {
    var i := IndexOfId(users, id);
    FilterAllBut(users, (u: User) => u.id != id, i);
    FilterRemoveAt(users, IsAdmin, i);
  }

  /**
   * Without unique ids the delete guard does not protect the admins: two
   * admins sharing an id pass it (there are two of them), and both go.
   */
  lemma SharedIdDeletesEveryAdmin()
    ensures var a := User("7", "Ana", "ana@finca.com", "x", AdminRole, true);
            var b := User("7", "Beto", "beto@finca.com", "y", AdminRole, true);
            && IndexOfId([a, b], "7") == 0
            && !IsOnlyAdmin([a, b], 0)
            && AdminCount(Without([a, b], "7")) == 0
  {
    var a := User("7", "Ana", "ana@finca.com", "x", AdminRole, true);
    var b := User("7", "Beto", "beto@finca.com", "y", AdminRole, true);
    assert Filter([a, b], IsAdmin) == [a, b];
    FilterDropsAll([a, b], (u: User) => u.id != "7");
  }

  /**
   * The update guard looks only at roles: an update that keeps the role but
   * clears `active` deactivates the last active admin, which the toggle
   * guard would have refused.
   */
  lemma UpdateCanDeactivateLastActiveAdmin()
    ensures var users := [SeedAdmin];
            var data := SeedAdmin.(active := false);
            && IndexOfId(users, data.id) == 0
            && !LosesOnlyAdmin(users, 0, data)
            && IsLastActiveAdmin(users, 0)
            && ActiveAdminCount(users[0 := UpdatedRecord(users[0], data)]) == 0
  {
    var users := [SeedAdmin];
    var after := users[0 := UpdatedRecord(users[0], SeedAdmin.(active := false))];
    assert Filter(users, IsAdmin) == users;
    assert Filter(users, IsActiveAdmin) == users;
    FilterDropsAll(after, IsActiveAdmin);
  }

  /** The update guard does not look at emails: an update can give a user an email another user has. */
  lemma UpdateCanDuplicateEmail()
    ensures var other := User("2", "Luis", "luis@finca.com", "clave", "user", true);
            var users := [SeedAdmin, other];
            var data := other.(email := SeedAdmin.email);
            && UniqueEmails(users)
            && IndexOfId(users, data.id) == 1
            && !LosesOnlyAdmin(users, 1, data)
            && !UniqueEmails(users[1 := UpdatedRecord(users[1], data)])
  {
    var other := User("2", "Luis", "luis@finca.com", "clave", "user", true);
    var users := [SeedAdmin, other];
    var after := users[1 := UpdatedRecord(users[1], other.(email := SeedAdmin.email))];
    assert after[0].email == after[1].email;
  }

  // ---------------------------------------------------------------------
  // The store

  class AuthStore {
    /** The logged-in user, if any. */
    var user: Option<User>
    var isAuthenticated: bool
    var usersList: seq<User>

    /** Logged in exactly when there is a current user, who is one of the listed users. */
    ghost predicate Valid()
      reads this
    {
      (isAuthenticated <==> user.Some?) && (user.Some? ==> user.value in usersList)
    }

    /** Nobody logged in; the seeded administrator is the only user. */
    constructor ()
      ensures Valid()
      ensures user == None && !isAuthenticated && usersList == [SeedAdmin]
    {
      user := None;
      isAuthenticated := false;
      usersList := [SeedAdmin];
    }

    /** `login`: succeeds exactly when an active user has these credentials, and logs in the first such user. */
    method Login(email: string, password: string) returns (ok: bool)
      requires Valid()
      modifies this
      ensures Valid()
      ensures ok <==> exists u :: u in usersList && u.email == email && u.password == password && u.active
      ensures ok ==> user == FindLogin(usersList, email, password) && isAuthenticated
      ensures !ok ==> user == old(user) && isAuthenticated == old(isAuthenticated)
      ensures usersList == old(usersList)
    {
      var found := FindLogin(usersList, email, password);
      if found.Some? {
        user := found;
        isAuthenticated := true;
        return true;
      }
      return false;
    }

    /** `logout`: nobody is logged in afterwards, whoever was before. */
    method Logout()
      requires Valid()
      modifies this
      ensures Valid()
      ensures user == None && !isAuthenticated
      ensures usersList == old(usersList)
    {
      user := None;
      isAuthenticated := false;
    }

    /** `createUser`: refuses a registered email; otherwise appends the new user with the fresh id. */
    method CreateUser(form: UserForm, freshId: string) returns (r: Result<User, AuthError>)
      requires Valid()
      modifies this
      ensures Valid()
      ensures user == old(user) && isAuthenticated == old(isAuthenticated)
      ensures EmailTaken(old(usersList), form.email) ==> r == Err(EmailAlreadyRegistered) && usersList == old(usersList)
      ensures !EmailTaken(old(usersList), form.email) ==>
                var created := User(freshId, form.name, form.email, form.password, form.role, form.active);
                r == Ok(created) && usersList == old(usersList) + [created]
    {
      if exists u :: u in usersList && u.email == form.email {
        return Err(EmailAlreadyRegistered);
      }
      var created := User(freshId, form.name, form.email, form.password, form.role, form.active);
      usersList := usersList + [created];
      return Ok(created);
    }

    /**
     * `updateUser`: refuses an unknown id and a role change of the only
     * admin; otherwise replaces the first user with that id by the new data,
     * keeping the stored password when the new one is empty, and refreshes
     * the current user when it is the one updated.
     */
    method UpdateUser(data: User) returns (r: Result<User, AuthError>)
      requires Valid()
      modifies this
      ensures Valid()
      ensures isAuthenticated == old(isAuthenticated)
      ensures var users := old(usersList);
              var i := IndexOfId(users, data.id);
              if i == -1 then
                r == Err(UserNotFound) && usersList == users && user == old(user)
              else if LosesOnlyAdmin(users, i, data) then
                r == Err(CannotChangeOnlyAdminRole) && usersList == users && user == old(user)
              else
                var merged := UpdatedRecord(users[i], data);
                && r == Ok(merged)
                && usersList == users[i := merged]
                && user == (if IsCurrent(old(user), data.id) then Some(merged) else old(user))
    {
      var i := IndexOfId(usersList, data.id);
      if i == -1 {
        return Err(UserNotFound);
      }
      if AdminCount(usersList) == 1 && IsAdmin(usersList[i]) && data.role != AdminRole {
        return Err(CannotChangeOnlyAdminRole);
      }
      var merged := UpdatedRecord(usersList[i], data);
      var before := usersList;
      usersList := usersList[i := merged];
      if user.Some? && user.value.id == data.id {
        assert usersList[i] == merged;
        user := Some(merged);
      } else if user.Some? {
        StillListed(before, i, merged, user.value);
      }
      return Ok(merged);
    }

    /**
     * `toggleUserStatus`: refuses an unknown id, the last active admin and
     * the current user, in that order; otherwise flips that user's `active`.
     */
    method ToggleUserStatus(id: string) returns (r: Result<User, AuthError>)
      requires Valid()
      modifies this
      ensures Valid()
      ensures user == old(user) && isAuthenticated == old(isAuthenticated)
      ensures var users := old(usersList);
              var i := IndexOfId(users, id);
              if i == -1 then r == Err(UserNotFound) && usersList == users
              else if IsLastActiveAdmin(users, i) then r == Err(CannotDeactivateOnlyActiveAdmin) && usersList == users
              else if IsCurrent(user, id) then r == Err(CannotDeactivateSelf) && usersList == users
              else r == Ok(Toggled(users[i])) && usersList == users[i := Toggled(users[i])]
    {
      var i := IndexOfId(usersList, id);
      if i == -1 {
        return Err(UserNotFound);
      }
      if IsActiveAdmin(usersList[i]) && ActiveAdminCount(usersList) == 1 {
        return Err(CannotDeactivateOnlyActiveAdmin);
      }
      if user.Some? && user.value.id == id {
        return Err(CannotDeactivateSelf);
      }
      var flipped := Toggled(usersList[i]);
      var before := usersList;
      usersList := usersList[i := flipped];
      if user.Some? {
        StillListed(before, i, flipped, user.value);
      }
      return Ok(flipped);
    }

    /**
     * `deleteUser`: refuses an unknown id, the only admin and the current
     * user, in that order; otherwise removes every user with that id.
     */
    method DeleteUser(id: string) returns (r: Result<bool, AuthError>)
      requires Valid()
      modifies this
      ensures Valid()
      ensures user == old(user) && isAuthenticated == old(isAuthenticated)
      ensures var users := old(usersList);
              var i := IndexOfId(users, id);
              if i == -1 then r == Err(UserNotFound) && usersList == users
              else if IsOnlyAdmin(users, i) then r == Err(CannotDeleteOnlyAdmin) && usersList == users
              else if IsCurrent(user, id) then r == Err(CannotDeleteSelf) && usersList == users
              else r == Ok(true) && usersList == Without(users, id)
    {
      var i := IndexOfId(usersList, id);
      if i == -1 {
        return Err(UserNotFound);
      }
      if IsAdmin(usersList[i]) && AdminCount(usersList) == 1 {
        return Err(CannotDeleteOnlyAdmin);
      }
      if user.Some? && user.value.id == id {
        return Err(CannotDeleteSelf);
      }
      usersList := Without(usersList, id);
      return Ok(true);
    }
  }

  /**
   * A listed user whose id differs from that of the user at `i` is still
   * listed after the user at `i` is replaced.
   */
  lemma StillListed(users: seq<User>, i: int, x: User, u: User)
    requires 0 <= i < |users| && u in users && u.id != users[i].id
    ensures u in users[i := x]
  {
    var j :| 0 <= j < |users| && users[j] == u;
    assert users[i := x][j] == u;
  }
}
