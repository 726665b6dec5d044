/**
 * The authentication context: the registered-user directory, the current
 * session, the five account operations, and the browser storage that the
 * two persistence effects keep in step with them.
 */
module Auth {
  import opened Common
  import opened Seqs

  datatype Role = Admin | User

  /** An entry of the directory. */
  datatype RegisteredUser = RegisteredUser(id: int, email: string, password: string, role: Role)

  /**
   * The session: a directory entry without its password. `isTempPassword`
   * is absent after signup and set by login and by a password change.
   */
  datatype SessionUser = SessionUser(id: int, email: string, role: Role, isTempPassword: Option<bool>)

  datatype AuthError =
    | InvalidCredentials
    | EmailAlreadyRegistered
    | EmailNotFound
    | NoUserLoggedIn
    | CurrentPasswordIncorrect

  /** The message of the `Error` each failure throws. */
  function Message(e: AuthError): string {
    match e
    case InvalidCredentials => "Invalid email or password"
    case EmailAlreadyRegistered => "Email already registered"
    case EmailNotFound => "Email not found"
    case NoUserLoggedIn => "No user logged in"
    case CurrentPasswordIncorrect => "Current password is incorrect"
  }

  /** The two local-storage keys, `user` and `registeredUsers`, each present or absent. */
  datatype Storage = Storage(user: Option<SessionUser>, registeredUsers: Option<seq<RegisteredUser>>)

  const EmptyStorage := Storage(None, None)

  /** The seeded directory used when storage holds none. */
  const TestUsers: seq<RegisteredUser> := [
    RegisteredUser(1, "admin@mobilehub.com", "admin123", Admin),
    RegisteredUser(2, "user@mobilehub.com", "user123", User)
  ]

  // ---- the temporary-password test ----

  predicate IsAlphanumeric(c: char) {
    'a' <= c <= 'z' || 'A' <= c <= 'Z' || '0' <= c <= '9'
  }

  /** `^[a-zA-Z0-9]{n}$` read the way a matcher does: n alphanumerics, then the end. */
  predicate MatchesAlphanumerics(s: string, n: nat) {
    if n == 0 then s == [] else s != [] && IsAlphanumeric(s[0]) && MatchesAlphanumerics(s[1..], n - 1)
  }

  /** `/^[a-zA-Z0-9]{8}$/.test(password)`. */
  predicate IsTempPassword(password: string) {
    MatchesAlphanumerics(password, 8)
  }

  /** The pattern matches exactly the strings of n alphanumerics. */
  lemma {:induction false} MatchesAlphanumericsMeaning(s: string, n: nat)
    ensures MatchesAlphanumerics(s, n) <==> |s| == n && forall i :: 0 <= i < |s| ==> IsAlphanumeric(s[i])
  {
    if n > 0 && s != [] {
      MatchesAlphanumericsMeaning(s[1..], n - 1);
      if |s| == n && forall i :: 0 <= i < |s| ==> IsAlphanumeric(s[i]) {
        assert forall i :: 0 <= i < |s[1..]| ==> s[1..][i] == s[i + 1];
      }
    }
  }

  /** The seeded admin password is flagged as temporary; the seeded user password is not. */
  lemma SeedPasswords()
    ensures IsTempPassword(TestUsers[0].password)
    ensures !IsTempPassword(TestUsers[1].password)
  {
    AdminPasswordIsTemp();
    MatchesAlphanumericsMeaning("user123", 8);
  }

  lemma AdminPasswordIsTemp()
    ensures IsTempPassword("admin123")
  {
    var p: string := "admin123";
    MatchesAlphanumericsMeaning(p, 8);
    assert p[0] == 'a' && p[1] == 'd' && p[2] == 'm' && p[3] == 'i';
    assert p[4] == 'n' && p[5] == '1' && p[6] == '2' && p[7] == '3';
  }

  // ---- directory lookups and updates ----

  predicate HasCredentials(email: string, password: string, u: RegisteredUser) {
    u.email == email && u.password == password
  }

  predicate HasEmail(email: string, u: RegisteredUser) {
    u.email == email
  }

  /** `users.find(u => u.email === email && u.password === password)`, as an index. */
  function FindCredentials(users: seq<RegisteredUser>, email: string, password: string): (r: Option<nat>)
    ensures r.None? <==> forall i :: 0 <= i < |users| ==> !HasCredentials(email, password, users[i])
    ensures r.Some? ==> r.value < |users| && HasCredentials(email, password, users[r.value])
    ensures r.Some? ==> forall j :: 0 <= j < r.value ==> !HasCredentials(email, password, users[j])
  {
    Find(users, (u: RegisteredUser) => HasCredentials(email, password, u))
  }

  /** `users.some(u => u.email === email)`. */
  predicate IsRegistered(users: seq<RegisteredUser>, email: string) {
    Find(users, (u: RegisteredUser) => HasEmail(email, u)).Some?
  }

  lemma IsRegisteredMeaning(users: seq<RegisteredUser>, email: string)
    ensures IsRegistered(users, email) <==> exists i :: 0 <= i < |users| && users[i].email == email
  {
    var r := Find(users, (u: RegisteredUser) => HasEmail(email, u));
    if r.Some? {
      assert users[r.value].email == email;
    }
  }

  /** `users.map(u => u.email === email ? {...u, password} : u)`: only passwords change. */
  function WithPassword(users: seq<RegisteredUser>, email: string, password: string): (r: seq<RegisteredUser>)
    ensures |r| == |users|
    ensures forall i :: 0 <= i < |users| ==>
      r[i].id == users[i].id && r[i].email == users[i].email && r[i].role == users[i].role
    ensures forall i :: 0 <= i < |users| ==>
      r[i].password == if users[i].email == email then password else users[i].password
  {
    seq(|users|, i requires 0 <= i < |users| =>
      if users[i].email == email then users[i].(password := password) else users[i])
  }

  /** The session for a directory entry: everything but the password, plus the flag. */
  function Session(u: RegisteredUser, isTempPassword: Option<bool>): (s: SessionUser)
    ensures s.id == u.id && s.email == u.email && s.role == u.role
    ensures s.isTempPassword == isTempPassword
  {
    SessionUser(u.id, u.email, u.role, isTempPassword)
  }

  /** The entry a successful signup appends. */
  function NewUser(users: seq<RegisteredUser>, email: string, password: string): RegisteredUser {
    RegisteredUser(|users| + 1, email, password, User)
  }

  /** No email is registered twice. */
  predicate EmailsUnique(users: seq<RegisteredUser>) {
    forall i, j :: 0 <= i < j < |users| ==> users[i].email != users[j].email
  }

  /** Entry k has id k + 1, as signup's `length + 1` numbering yields from the seed. */
  predicate IdsSequential(users: seq<RegisteredUser>) {
    forall i :: 0 <= i < |users| ==> users[i].id == i + 1
  }

  predicate WellFormed(users: seq<RegisteredUser>) {
    EmailsUnique(users) && IdsSequential(users)
  }

  lemma SeedWellFormed()
    ensures WellFormed(TestUsers)
  {
  }

  /**
   * A signup with a fresh email keeps the directory well formed and leaves
   * the earlier entries as they were.
   */
  lemma SignupKeepsWellFormed(users: seq<RegisteredUser>, email: string, password: string)
    requires WellFormed(users) && !IsRegistered(users, email)
    ensures WellFormed(users + [NewUser(users, email, password)])
    ensures (users + [NewUser(users, email, password)])[..|users|] == users
  {
    IsRegisteredMeaning(users, email);
  }

  /** Resetting or changing a password keeps the directory well formed. */
  lemma WithPasswordKeepsWellFormed(users: seq<RegisteredUser>, email: string, password: string)
    requires WellFormed(users)
    ensures WellFormed(WithPassword(users, email, password))
  {
  }

  /**
   * After a password is set for a registered email, logging in with that
   * email and the new password succeeds with that entry.
   */
  lemma LoginAfterSetPassword(users: seq<RegisteredUser>, email: string, password: string)
    requires IsRegistered(users, email)
    ensures var r := FindCredentials(WithPassword(users, email, password), email, password);
      r.Some? && users[r.value].email == email
  {
    IsRegisteredMeaning(users, email);
    var i :| 0 <= i < |users| && users[i].email == email;
    var updated := WithPassword(users, email, password);
    assert HasCredentials(email, password, updated[i]);
  }

  // ---- persistence ----

  /** What the two persistence effects leave in storage for a given state. */
  function Persist(user: Option<SessionUser>, users: seq<RegisteredUser>): (s: Storage)
    ensures s.user.Some? <==> user.Some?
    ensures Restore(s) == (user, users)
  {
    Storage(user, Some(users))
  }

  /** The initial state read from storage: the saved values, or no session and the seed. */
  function Restore(s: Storage): (state: (Option<SessionUser>, seq<RegisteredUser>)) {
    (s.user, s.registeredUsers.GetOr(TestUsers))
  }

  class AuthProvider {
    var user: Option<SessionUser>
    var registeredUsers: seq<RegisteredUser>
    var storage: Storage

    /** The persistence effects have written the current state. */
    predicate Persisted()
      reads this
    {
      storage == Persist(user, registeredUsers)
    }

    function IsAuthenticated(): bool
      reads this
    {
      user.Some?
    }

    /** Mounting the provider: read storage, then run both effects. */
    constructor(saved: Storage)
      ensures (user, registeredUsers) == Restore(saved)
      ensures Persisted()
    {
      user := saved.user;
      registeredUsers := saved.registeredUsers.GetOr(TestUsers);
      storage := Persist(saved.user, saved.registeredUsers.GetOr(TestUsers));
    }

    method Login(email: string, password: string) returns (r: Result<(), AuthError>)
      modifies this
      ensures registeredUsers == old(registeredUsers) && Persisted()
      ensures r.Ok? <==> exists i :: 0 <= i < |registeredUsers| && HasCredentials(email, password, registeredUsers[i])
      ensures r.Err? ==> r.error == InvalidCredentials && user == old(user)
      ensures r.Ok? ==> var k := FindCredentials(registeredUsers, email, password).value;
        user == Some(Session(registeredUsers[k], Some(IsTempPassword(registeredUsers[k].password))))
    {
      var found := FindCredentials(registeredUsers, email, password);
      if found.Some? {
        var u := registeredUsers[found.value];
        user := Some(Session(u, Some(IsTempPassword(u.password))));
        r := Ok(());
      } else {
        r := Err(InvalidCredentials);
      }
      storage := Persist(user, registeredUsers);
    }

    method Signup(email: string, password: string) returns (r: Result<(), AuthError>)
      modifies this
      ensures Persisted()
      ensures r.Err? <==> exists i :: 0 <= i < |old(registeredUsers)| && old(registeredUsers)[i].email == email
      ensures r.Err? ==> r.error == EmailAlreadyRegistered
                         && registeredUsers == old(registeredUsers) && user == old(user)
      ensures r.Ok? ==> registeredUsers == old(registeredUsers) + [NewUser(old(registeredUsers), email, password)]
                        && user == Some(Session(NewUser(old(registeredUsers), email, password), None))
    {
      IsRegisteredMeaning(registeredUsers, email);
      if IsRegistered(registeredUsers, email) {
        r := Err(EmailAlreadyRegistered);
      } else {
        var u := NewUser(registeredUsers, email, password);
        registeredUsers := registeredUsers + [u];
        user := Some(Session(u, None));
        r := Ok(());
      }
      storage := Persist(user, registeredUsers);
    }

    /** `tempPassword` is the generated password, supplied by the caller. */
    method ResetPassword(email: string, tempPassword: string) returns (r: Result<string, AuthError>)
      modifies this
      ensures Persisted() && user == old(user)
      ensures r.Err? <==> forall i :: 0 <= i < |old(registeredUsers)| ==> old(registeredUsers)[i].email != email
      ensures r.Err? ==> r.error == EmailNotFound && registeredUsers == old(registeredUsers)
      ensures r.Ok? ==> r.value == tempPassword
                        && registeredUsers == WithPassword(old(registeredUsers), email, tempPassword)
    {
      IsRegisteredMeaning(registeredUsers, email);
      if !IsRegistered(registeredUsers, email) {
        r := Err(EmailNotFound);
      } else {
        registeredUsers := WithPassword(registeredUsers, email, tempPassword);
        r := Ok(tempPassword);
      }
      storage := Persist(user, registeredUsers);
    }

    method ChangePassword(currentPassword: string, newPassword: string) returns (r: Result<(), AuthError>)
      modifies this
      ensures Persisted()
      ensures old(user).None? ==> r == Err(NoUserLoggedIn)
      ensures old(user).Some? ==>
        (r.Err? <==> forall i :: 0 <= i < |old(registeredUsers)| ==>
          !HasCredentials(old(user).value.email, currentPassword, old(registeredUsers)[i]))
      ensures r.Err? ==> registeredUsers == old(registeredUsers) && user == old(user)
      ensures r.Err? && old(user).Some? ==> r.error == CurrentPasswordIncorrect
      ensures r.Ok? ==> old(user).Some?
                        && registeredUsers == WithPassword(old(registeredUsers), old(user).value.email, newPassword)
                        && user == Some(old(user).value.(isTempPassword := Some(false)))
    {
      if user.None? {
        r := Err(NoUserLoggedIn);
      } else {
        var email := user.value.email;
        if FindCredentials(registeredUsers, email, currentPassword).None? {
          r := Err(CurrentPasswordIncorrect);
        } else {
          registeredUsers := WithPassword(registeredUsers, email, newPassword);
          user := Some(user.value.(isTempPassword := Some(false)));
          r := Ok(());
        }
      }
      storage := Persist(user, registeredUsers);
    }

    method Logout()
      modifies this
      ensures user == None && registeredUsers == old(registeredUsers)
      ensures Persisted() && storage.user == None
    {
      user := None;
      storage := Persist(user, registeredUsers);
    }
  }

  /** Logging in to a fresh provider as the seeded admin gives the admin session, flagged temporary. */
  method SeededAdminLogin() returns (session: Option<SessionUser>)
    ensures session == Some(SessionUser(1, "admin@mobilehub.com", Admin, Some(true)))
  {
    AdminPasswordIsTemp();
    var a := new AuthProvider(EmptyStorage);
    assert HasCredentials("admin@mobilehub.com", "admin123", a.registeredUsers[0]);
    var r := a.Login("admin@mobilehub.com", "admin123");
    session := a.user;
  }

  /** Logging in to a fresh provider as the seeded user gives the user session, not flagged. */
  method SeededUserLogin() returns (session: Option<SessionUser>)
    ensures session == Some(SessionUser(2, "user@mobilehub.com", User, Some(false)))
  {
    MatchesAlphanumericsMeaning("user123", 8);
    var b := new AuthProvider(EmptyStorage);
    assert HasCredentials("user@mobilehub.com", "user123", b.registeredUsers[1]);
    assert !HasCredentials("user@mobilehub.com", "user123", b.registeredUsers[0]);
    var r := b.Login("user@mobilehub.com", "user123");
    session := b.user;
  }
}
