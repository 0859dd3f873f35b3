/** Goose Tools' user store (goose_tools/auth/models.py): a `UserManager`
    over the users file, a map from user name to a record of JSON fields.
    Every operation of the source loads the file, changes the map and
    saves it back; here the file's contents are the field `users`. bcrypt
    is a pair of parameters: `hash(password)` for generate_password_hash
    and `verify(stored, password)` for check_password_hash. The clock is
    the parameter `now`, the ISO text of datetime.now(). */
module GooseAuth {
  import opened Base
  import opened PyJson

  /** The users file: user name to record. */
  type Users = map<string, Dict>

  const KeyUsername: string := "username"
  const KeyPassword: string := "password"
  const KeyEmail: string := "email"
  const KeyAdmin: string := "admin"
  const KeyCreatedAt: string := "created_at"
  const KeyLastLogin: string := "last_login"

  const InvalidCredentials: string := "Invalid username or password"

  /** What the mutating operations return: a success flag and a message,
      or the text of the exception they raise. */
  datatype Reply = Reply(ok: bool, message: string) | Raised(error: string)

  /** What `authenticate` returns: the (updated) record, the failure
      message, or the exception it raises. */
  datatype AuthOutcome = AuthOk(user: Dict) | AuthFailed(message: string) | AuthRaised(error: string)

  /** Every record holds a password hash: `authenticate` never raises. */
  predicate Valid(users: Users)
  {
    forall u :: u in users ==> KeyPassword in users[u]
  }

  // ---------------------------------------------------------------------
  // The operations on the store's contents
  // ---------------------------------------------------------------------

  /** The record `create_user` stores. */
  function NewUser(username: string, passwordHash: string, email: Json, admin: bool, now: string): Dict
  {
    map[KeyUsername := JStr(username), KeyPassword := JStr(passwordHash), KeyEmail := email,
        KeyAdmin := JBool(admin), KeyCreatedAt := JStr(now), KeyLastLogin := JNull]
  }

  /** The fields of a new record. */
  lemma {:induction false} NewUserFields(username: string, passwordHash: string, email: Json, admin: bool, now: string)
    ensures var u := NewUser(username, passwordHash, email, admin, now);
      u.Keys == {KeyUsername, KeyPassword, KeyEmail, KeyAdmin, KeyCreatedAt, KeyLastLogin}
      && u[KeyPassword] == JStr(passwordHash) && u[KeyAdmin] == JBool(admin)
      && u[KeyEmail] == email && u[KeyLastLogin] == JNull && u[KeyUsername] == JStr(username)
  {
  }

  /** The store after `create_user`: unchanged when the name is taken. */
  function Created(users: Users, username: string, passwordHash: string, email: Json, admin: bool, now: string): Users
  {
    if username in users then users else users[username := NewUser(username, passwordHash, email, admin, now)]
  }

  /** What `authenticate` returns. */
  function Authentication(users: Users, username: string, password: string, verify: (Json, string) -> bool, now: string): AuthOutcome
  {
    if username !in users then AuthFailed(InvalidCredentials)
    else if KeyPassword !in users[username] then AuthRaised(KeyError(KeyPassword))
    else if !verify(users[username][KeyPassword], password) then AuthFailed(InvalidCredentials)
    else AuthOk(users[username][KeyLastLogin := JStr(now)])
  }

  /** The store after `authenticate`: the last login is recorded on
      success only. */
  function AfterLogin(users: Users, username: string, password: string, verify: (Json, string) -> bool, now: string): Users
  {
    match Authentication(users, username, password, verify, now)
    case AuthOk(user) => users[username := user]
    case _ => users
  }

  /** The record after `update_user`: every given field but the password
      is copied over. */
  function Updated(user: Dict, data: Dict): Dict
  {
    map k | k in user.Keys + (data.Keys - {KeyPassword}) :: if k in data && k != KeyPassword then data[k] else user[k]
  }

  /** The updated record has the old fields and the given ones but the
      password; a given field wins, and the password is never taken from
      the data. */
  lemma {:induction false} UpdatedFields(user: Dict, data: Dict)
    ensures Updated(user, data).Keys == user.Keys + (data.Keys - {KeyPassword})
    ensures forall k :: k in data && k != KeyPassword ==> Updated(user, data)[k] == data[k]
    ensures forall k :: k in user && (k !in data || k == KeyPassword) ==> Updated(user, data)[k] == user[k]
  {
  }

  /** The store after `change_password`. */
  function PasswordChanged(users: Users, username: string, oldPassword: string, newHash: string,
                           verify: (Json, string) -> bool, now: string): Users
  {
    var afterLogin := AfterLogin(users, username, oldPassword, verify, now);
    if Authentication(users, username, oldPassword, verify, now).AuthOk? then
      afterLogin[username := afterLogin[username][KeyPassword := JStr(newHash)]]
    else afterLogin
  }

  /** The records `list_users` returns: each without its password. */
  function WithoutPasswords(users: Users): (r: Users)
    ensures r.Keys == users.Keys
    ensures forall u :: u in r ==> KeyPassword !in r[u]
    ensures forall u, k :: u in r && k in users[u] && k != KeyPassword ==> k in r[u] && r[u][k] == users[u][k]
  {
    map u | u in users :: users[u] - {KeyPassword}
  }

  // ---------------------------------------------------------------------
  // UserManager
  // ---------------------------------------------------------------------

  class UserManager {
    /** The contents of users.json. */
    var users: Users

    /** A manager over the file's current contents ({} for a new file). */
    constructor(stored: Users)
      ensures users == stored
    {
      users := stored;
    }

    /** `create_user`: a taken name changes nothing. */
    method CreateUser(username: string, password: string, email: Json, admin: bool, hash: string -> string, now: string)
      returns (r: Reply)
      modifies this
      ensures users == Created(old(users), username, hash(password), email, admin, now)
      ensures r == if username in old(users) then Reply(false, "Username already exists") else Reply(true, "User created successfully")
    {
      if username in users {
        return Reply(false, "Username already exists");
      }
      var passwordHash := hash(password);
      users := users[username := NewUser(username, passwordHash, email, admin, now)];
      return Reply(true, "User created successfully");
    }

    /** `authenticate`: the last login is saved on success. */
    method Authenticate(username: string, password: string, verify: (Json, string) -> bool, now: string)
      returns (r: AuthOutcome)
      modifies this
      ensures r == Authentication(old(users), username, password, verify, now)
      ensures users == AfterLogin(old(users), username, password, verify, now)
    {
      if username !in users {
        return AuthFailed(InvalidCredentials);
      }
      var user := users[username];
      if KeyPassword !in user {
        return AuthRaised(KeyError(KeyPassword));
      }
      if !verify(user[KeyPassword], password) {
        return AuthFailed(InvalidCredentials);
      }
      user := user[KeyLastLogin := JStr(now)];
      users := users[username := user];
      return AuthOk(user);
    }

    /** `get_user`. */
    function GetUser(username: string): (r: Option<Dict>)
      reads this
      ensures r.Some? <==> username in users
      ensures r.Some? ==> r.value == users[username]
    {
      if username in users then Some(users[username]) else None
    }

    /** `update_user`: the loop over the given fields. */
    method UpdateUser(username: string, data: Dict) returns (r: Reply)
      modifies this
      ensures username !in old(users) ==> r == Reply(false, "User not found") && users == old(users)
      ensures username in old(users) ==>
        r == Reply(true, "User updated successfully") && users == old(users)[username := Updated(old(users)[username], data)]
    {
      if username !in users {
        return Reply(false, "User not found");
      }
      var user := MergeFields(users[username], data);
      users := users[username := user];
      return Reply(true, "User updated successfully");
    }

    /** `change_password`: authenticate with the old password first. */
    method ChangePassword(username: string, oldPassword: string, newPassword: string,
                          hash: string -> string, verify: (Json, string) -> bool, now: string)
      returns (r: Reply)
      modifies this
      ensures users == PasswordChanged(old(users), username, oldPassword, hash(newPassword), verify, now)
      ensures r == match Authentication(old(users), username, oldPassword, verify, now)
        case AuthOk(_) => Reply(true, "Password changed successfully")
        case AuthFailed(_) => Reply(false, "Current password is incorrect")
        case AuthRaised(e) => Raised(e)
    {
      var outcome := Authenticate(username, oldPassword, verify, now);
      if outcome.AuthRaised? {
        return Raised(outcome.error);
      }
      if !outcome.AuthOk? {
        return Reply(false, "Current password is incorrect");
      }
      users := users[username := users[username][KeyPassword := JStr(hash(newPassword))]];
      return Reply(true, "Password changed successfully");
    }

    /** `delete_user`: exactly that user is removed. */
    method DeleteUser(username: string) returns (r: Reply)
      modifies this
      ensures username !in old(users) ==> r == Reply(false, "User not found") && users == old(users)
      ensures username in old(users) ==> r == Reply(true, "User deleted successfully") && users == old(users) - {username}
    {
      if username !in users {
        return Reply(false, "User not found");
      }
      users := users - {username};
      return Reply(true, "User deleted successfully");
    }

    /** `list_users`: the loop copying each record without its password. */
    method ListUsers() returns (result: Users)
      ensures result == WithoutPasswords(users)
    {
      result := map[];
      var pending := users.Keys;
      while pending != {}
        invariant pending <= users.Keys
        invariant result == WithoutPasswords(Restrict(users, users.Keys - pending))
        decreases |pending|
      {
        var username :| username in pending;
        ListStep(users, users.Keys - pending, username);
        result := result[username := users[username] - {KeyPassword}];
        pending := pending - {username};
      }
      RestrictAll(users);
      assert users.Keys - pending == users.Keys;
    }
  }

  /** The loop of `update_user` over the given fields: every field but the
      password is set on the record. */
  method MergeFields(original: Dict, data: Dict) returns (user: Dict)
    ensures user == Updated(original, data)
  {
    user := original;
    var pending := data.Keys;
    while pending != {}
      invariant pending <= data.Keys
      invariant Merged(original, data, pending, user)
      decreases |pending|
    {
      var key :| key in pending;
      MergedStep(original, data, pending, user, key);
      user := if key != KeyPassword then user[key := data[key]] else user;
      pending := pending - {key};
    }
    MergedDone(original, data, user);
  }

  /** `user` is `original` with every given field outside `pending`
      (except the password) copied over. */
  ghost predicate Merged(original: Dict, data: Dict, pending: set<string>, user: Dict)
  {
    && user.Keys == original.Keys + ((data.Keys - pending) - {KeyPassword})
    && forall k :: k in user ==>
         user[k] == if k in data && k !in pending && k != KeyPassword then data[k] else original[k]
  }

  lemma {:induction false} MergedStep(original: Dict, data: Dict, pending: set<string>, user: Dict, key: string)
    requires key in pending && pending <= data.Keys && Merged(original, data, pending, user)
    ensures Merged(original, data, pending - {key}, if key != KeyPassword then user[key := data[key]] else user)
  {
  }

  lemma {:induction false} MergedDone(original: Dict, data: Dict, user: Dict)
    requires Merged(original, data, {}, user)
    ensures user == Updated(original, data)
  {
    UpdatedFields(original, data);
  }

  /** `create_default_admin`: an "admin" administrator with the password
      from GOOSE_ADMIN_PASSWORD, or "admin", only in an empty store. */
  method CreateDefaultAdmin(manager: UserManager, envPassword: Option<string>, hash: string -> string, now: string)
    returns (created: bool)
    modifies manager
    ensures created <==> old(manager.users) == map[]
    ensures manager.users == if created then DefaultAdmin(envPassword, hash, now) else old(manager.users)
  {
    if manager.users != map[] {
      return false;
    }
    var password := if envPassword.Some? then envPassword.value else "admin";
    var _ := manager.CreateUser("admin", password, JNull, true, hash, now);
    return true;
  }

  /** The store `create_default_admin` leaves in an empty one. */
  function DefaultAdmin(envPassword: Option<string>, hash: string -> string, now: string): Users
  {
    var password := if envPassword.Some? then envPassword.value else "admin";
    map["admin" := NewUser("admin", hash(password), JNull, true, now)]
  }

  // ---------------------------------------------------------------------
  // Loop steps
  // ---------------------------------------------------------------------

  /** The entries of m whose keys are in ks. */
  function Restrict<V>(m: map<string, V>, ks: set<string>): (r: map<string, V>)
    ensures r.Keys == m.Keys * ks
  {
    map k | k in m && k in ks :: m[k]
  }

  lemma {:induction false} RestrictAll<V>(m: map<string, V>)
    ensures Restrict(m, m.Keys) == m
  {
  }

  lemma {:induction false} ListStep(users: Users, done: set<string>, username: string)
    requires username in users && username !in done
    ensures WithoutPasswords(Restrict(users, done + {username}))
      == WithoutPasswords(Restrict(users, done))[username := users[username] - {KeyPassword}]
  {
    var after := WithoutPasswords(Restrict(users, done + {username}));
    var before := WithoutPasswords(Restrict(users, done))[username := users[username] - {KeyPassword}];
    assert after.Keys == before.Keys;
  }

  // ---------------------------------------------------------------------
  // Properties
  // ---------------------------------------------------------------------

  /** An unknown user and a wrong password get the same answer, and
      neither changes the store. */
  lemma {:induction false} SameFailureMessage(users: Users, username: string, password: string, verify: (Json, string) -> bool, now: string)
    requires username !in users || (KeyPassword in users[username] && !verify(users[username][KeyPassword], password))
    ensures Authentication(users, username, password, verify, now) == AuthFailed(InvalidCredentials)
    ensures AfterLogin(users, username, password, verify, now) == users
  {
  }

  /** A successful login changes only that user's last_login. */
  lemma {:induction false} LoginRecordsLastLogin(users: Users, username: string, password: string, verify: (Json, string) -> bool, now: string)
    requires Authentication(users, username, password, verify, now).AuthOk?
    ensures username in users && verify(users[username][KeyPassword], password)
    ensures AfterLogin(users, username, password, verify, now)
      == users[username := users[username][KeyLastLogin := JStr(now)]]
  {
  }

  /** In a valid store authentication never raises. */
  lemma {:induction false} ValidNeverRaises(users: Users, username: string, password: string, verify: (Json, string) -> bool, now: string)
    requires Valid(users)
    ensures !Authentication(users, username, password, verify, now).AuthRaised?
  {
  }

  /** A user just created logs in with the password given, when the
      verifier accepts a password against its own hash, and is refused
      any password the verifier rejects. */
  lemma {:induction false} CreateThenAuthenticate(users: Users, username: string, password: string, attempt: string, email: Json, admin: bool,
                               hash: string -> string, verify: (Json, string) -> bool, now: string, later: string)
    requires username !in users
    requires verify(JStr(hash(password)), password)
    ensures var stored := Created(users, username, hash(password), email, admin, now);
      Authentication(stored, username, password, verify, later).AuthOk?
      && Authentication(stored, username, password, verify, later).user[KeyAdmin] == JBool(admin)
    ensures !verify(JStr(hash(password)), attempt) ==>
      Authentication(Created(users, username, hash(password), email, admin, now), username, attempt, verify, later)
        == AuthFailed(InvalidCredentials)
  {
    NewUserFields(username, hash(password), email, admin, now);
  }

  /** `update_user` never changes the password, copies the admin flag like
      any other field, and keeps the store valid. */
  lemma {:induction false} UpdateKeepsPassword(users: Users, username: string, data: Dict)
    requires username in users && Valid(users)
    ensures var user := Updated(users[username], data);
      user[KeyPassword] == users[username][KeyPassword]
      && (KeyAdmin in data ==> user[KeyAdmin] == data[KeyAdmin])
      && Valid(users[username := user])
  {
    UpdatedFields(users[username], data);
  }

  /** After a password change the new password is accepted and, when the
      verifier rejects it against the new hash, the old one is not. A
      failed change leaves the store as it was. */
  lemma {:induction false} ChangeThenAuthenticate(users: Users, username: string, oldPassword: string, newPassword: string,
                               hash: string -> string, verify: (Json, string) -> bool, now: string, later: string)
    requires verify(JStr(hash(newPassword)), newPassword)
    ensures !Authentication(users, username, oldPassword, verify, now).AuthOk? ==>
      PasswordChanged(users, username, oldPassword, hash(newPassword), verify, now) == users
    ensures Authentication(users, username, oldPassword, verify, now).AuthOk? ==>
      var changed := PasswordChanged(users, username, oldPassword, hash(newPassword), verify, now);
      Authentication(changed, username, newPassword, verify, later).AuthOk?
      && (!verify(JStr(hash(newPassword)), oldPassword) ==>
            Authentication(changed, username, oldPassword, verify, later) == AuthFailed(InvalidCredentials))
  {
  }

  /** Every operation keeps every record holding a password hash. */
  lemma {:induction false} OperationsKeepValid(users: Users, username: string, password: string, passwordHash: string, email: Json, admin: bool,
                            data: Dict, verify: (Json, string) -> bool, now: string)
    requires Valid(users)
    ensures Valid(Created(users, username, passwordHash, email, admin, now))
    ensures Valid(AfterLogin(users, username, password, verify, now))
    ensures username in users ==> Valid(users[username := Updated(users[username], data)])
    ensures Valid(PasswordChanged(users, username, password, passwordHash, verify, now))
    ensures Valid(users - {username})
  {
    NewUserFields(username, passwordHash, email, admin, now);
    if username in users {
      UpdatedFields(users[username], data);
    }
  }

  /** A deleted user no longer logs in, and no other user changes. */
  lemma {:induction false} DeleteThenAuthenticate(users: Users, username: string, password: string, verify: (Json, string) -> bool, now: string)
    ensures Authentication(users - {username}, username, password, verify, now) == AuthFailed(InvalidCredentials)
    ensures forall u :: u in users && u != username ==> u in users - {username} && (users - {username})[u] == users[u]
  {
  }

  /** On an empty store the default admin logs in with "admin" when no
      password is set in the environment, and is an administrator. */
  lemma {:induction false} DefaultAdminLogsIn(hash: string -> string, verify: (Json, string) -> bool, now: string, later: string)
    requires verify(JStr(hash("admin")), "admin")
    ensures Authentication(DefaultAdmin(None, hash, now), "admin", "admin", verify, later).AuthOk?
    ensures Authentication(DefaultAdmin(None, hash, now), "admin", "admin", verify, later).user[KeyAdmin] == JBool(true)
  {
    NewUserFields("admin", hash("admin"), JNull, true, now);
  }
}
