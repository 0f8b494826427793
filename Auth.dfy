/**
 * The credential and session store of src/utils/auth.ts.
 *
 * The browser's local storage holds two records: the users record
 * (username -> {password, email}) and the current-user record. Each is
 * either absent or holds a value; the JSON text encoding is taken to be the
 * identity, so a record is modelled by the value it encodes.
 */
module Auth {
  import opened Wrappers

  /** What the users record keeps per username: the plaintext password and the email. */
  datatype Cred = Cred(password: string, email: string)

  /** The session user; `id` and `username` are both the login name. */
  datatype User = User(id: string, username: string, email: string, isAuthenticated: bool)

  type Users = map<string, Cred>

  /** The credential map after `users[username] = { password, email }`. */
  function WithCred(users: Users, username: string, password: string, email: string): (r: Users)
    ensures username in r && r[username] == Cred(password, email)
    ensures r.Keys == users.Keys + {username}
    ensures forall k :: k in users && k != username ==> k in r && r[k] == users[k]
  {
    users[username := Cred(password, email)]
  }

  /** The login check: an entry exists and its password is exactly the given one. */
  predicate Accepts(users: Users, username: string, password: string)
  {
    username in users && users[username].password == password
  }

  /** Storing a credential makes it log in and leaves every other login as it was. */
  lemma WithCredAccepts(users: Users, username: string, password: string, email: string, other: string, otherPassword: string)
    ensures Accepts(WithCred(users, username, password, email), username, password)
    ensures other != username ==>
      (Accepts(WithCred(users, username, password, email), other, otherPassword) <==> Accepts(users, other, otherPassword))
  {
  }

  /** The two local-storage slots the application uses. */
  class Store {
    /** The 'botbuster_users' slot; None when nothing is stored. */
    var usersRecord: Option<Users>
    /** The 'botbuster_current_user' slot; None when nothing is stored. */
    var currentUserRecord: Option<User>

    constructor (users: Option<Users>, current: Option<User>)
      ensures usersRecord == users && currentUserRecord == current
    {
      usersRecord := users;
      currentUserRecord := current;
    }

    /** The credential map that the stored users record denotes (empty when absent). */
    function StoredUsers(): (r: Users)
      reads this
      ensures usersRecord.None? ==> r == map[]
      ensures usersRecord.Some? ==> r == usersRecord.value
    {
      match usersRecord
      case None => map[]
      case Some(users) => users
    }

    method GetStoredUsers() returns (users: Users)
      ensures usersRecord.None? ==> users == map[]
      ensures usersRecord.Some? ==> users == usersRecord.value
    {
      if usersRecord.Some? {
        users := usersRecord.value;
      } else {
        users := map[];
      }
    }

    method StoreUser(username: string, password: string, email: string)
      modifies this
      ensures usersRecord == Some(WithCred(old(StoredUsers()), username, password, email))
      ensures currentUserRecord == old(currentUserRecord)
    {
      var users := GetStoredUsers();
      users := users[username := Cred(password, email)];
      usersRecord := Some(users);
    }

    method ValidateLogin(username: string, password: string) returns (ok: bool)
      ensures ok <==> username in StoredUsers() && StoredUsers()[username].password == password
    {
      var users := GetStoredUsers();
      ok := username in users && users[username].password == password;
    }

    method GetCurrentUser() returns (user: Option<User>)
      ensures user == currentUserRecord
    {
      user := currentUserRecord;
    }

    method SetCurrentUser(user: User)
      modifies this
      ensures currentUserRecord == Some(user)
      ensures usersRecord == old(usersRecord)
    {
      currentUserRecord := Some(user);
    }

    method Logout()
      modifies this
      ensures currentUserRecord == None
      ensures usersRecord == old(usersRecord)
    {
      currentUserRecord := None;
    }

    method RegisterUser(username: string, password: string, email: string) returns (ok: bool)
      modifies this
      ensures ok <==> username !in old(StoredUsers())
      ensures !ok ==> usersRecord == old(usersRecord)
      ensures ok ==> usersRecord == Some(WithCred(old(StoredUsers()), username, password, email))
      ensures ok ==> Accepts(StoredUsers(), username, password)
      ensures currentUserRecord == old(currentUserRecord)
    {
      var users := GetStoredUsers();
      if username in users {
        return false;
      }
      StoreUser(username, password, email);
      WithCredAccepts(old(StoredUsers()), username, password, email, username, password);
      return true;
    }
  }

  /** A second registration of a taken name fails and the first password still logs in. */
  method ReRegistrationKeepsPassword(store: Store, username: string, password: string, newPassword: string, email: string)
    returns (registered: bool, oldPasswordWorks: bool)
    requires Accepts(store.StoredUsers(), username, password)
    modifies store
    ensures !registered && oldPasswordWorks
    ensures store.usersRecord == old(store.usersRecord)
  {
    registered := store.RegisterUser(username, newPassword, email);
    oldPasswordWorks := store.ValidateLogin(username, password);
  }

  /** Registering a fresh name and then logging in with the same password succeeds. */
  method RegisterThenLogin(store: Store, username: string, password: string, email: string)
    returns (registered: bool, loggedIn: bool)
    requires username !in store.StoredUsers()
    modifies store
    ensures registered && loggedIn
  {
    registered := store.RegisterUser(username, password, email);
    loggedIn := store.ValidateLogin(username, password);
  }

  /** Logging out empties the session slot and keeps every credential. */
  method LogoutClearsSession(store: Store) returns (session: Option<User>)
    modifies store
    ensures session == None
    ensures store.StoredUsers() == old(store.StoredUsers())
  {
    store.Logout();
    session := store.GetCurrentUser();
  }

  /** The session slot returns exactly the user last written to it. */
  method SessionRoundTrip(store: Store, user: User) returns (session: Option<User>)
    modifies store
    ensures session == Some(user)
    ensures store.StoredUsers() == old(store.StoredUsers())
  {
    store.SetCurrentUser(user);
    session := store.GetCurrentUser();
  }
}
