/**
  The user directory the orchestrator calls: users keyed by id with an index by
  email (email is unique), and linked accounts keyed by their own account id.
  Lookups and creation follow the store's observable behaviour; a create that
  breaks a uniqueness constraint is a store error the orchestrator does not catch.
 */
module UserDirectory {
  import opened AuthTypes

  datatype Directory = Directory(
    users: map<UserId, User>,
    byEmail: map<Email, UserId>,
    accounts: map<AccountId, Account>)

  /** Every record sits under its own key, and the email index is exact. */
  ghost predicate WellFormed(d: Directory)
  {
    && (forall id :: id in d.users ==>
          d.users[id].id == id && d.users[id].email in d.byEmail && d.byEmail[d.users[id].email] == id)
    && (forall e :: e in d.byEmail ==> d.byEmail[e] in d.users && d.users[d.byEmail[e]].email == e)
    && (forall aid :: aid in d.accounts ==> d.accounts[aid].id == aid)
  }

  /** No user record of `d` is removed or altered in `d'`. */
  ghost predicate UsersKept(d: Directory, d': Directory)
  {
    forall id :: id in d.users ==> id in d'.users && d'.users[id] == d.users[id]
  }

  /** No account record of `d` is removed or altered in `d'`. */
  ghost predicate AccountsKept(d: Directory, d': Directory)
  {
    forall aid :: aid in d.accounts ==> aid in d'.accounts && d'.accounts[aid] == d.accounts[aid]
  }

  /** `findByEmail`: the one user whose email is `email`, if any. */
  function FindByEmail(d: Directory, email: Email): (r: Option<User>)
    requires WellFormed(d)
    ensures r.Some? <==> exists id :: id in d.users && d.users[id].email == email
    ensures r.Some? ==> r.value.email == email && r.value.id in d.users && d.users[r.value.id] == r.value
  {
    if email in d.byEmail then Some(d.users[d.byEmail[email]]) else None
  }

  /** `findById`: the user stored under `id`, if any. */
  function FindById(d: Directory, id: UserId): (r: Option<User>)
    requires WellFormed(d)
    ensures r.Some? <==> id in d.users
    ensures r.Some? ==> r.value.id == id && d.users[id] == r.value
  {
    if id in d.users then Some(d.users[id]) else None
  }

  /**
    `account.findFirst({ id, provider })`: the account whose own id is `id` and
    whose provider is `provider`, if any.
   */
  function FindAccount(d: Directory, id: string, provider: string): (r: Option<Account>)
    requires WellFormed(d)
    ensures r.Some? <==> exists aid :: aid in d.accounts && d.accounts[aid].id == id && d.accounts[aid].provider == provider
    ensures r.Some? ==> r.value.id == id && r.value.provider == provider && d.accounts[id] == r.value
  {
    if id in d.accounts && d.accounts[id].provider == provider then Some(d.accounts[id]) else None
  }

  /**
    `user.create`: stores `u`; fails when its id is taken or another user already
    has its email (the store's unique constraints), leaving the directory as it was.
   */
  function CreateUser(d: Directory, u: User): (r: Result<Directory>)
    requires WellFormed(d)
    ensures r.Ok? <==> u.id !in d.users && FindByEmail(d, u.email).None?
    ensures r.Err? ==> r.error == Internal
    ensures r.Ok? ==> WellFormed(r.value) && UsersKept(d, r.value)
    ensures r.Ok? ==> r.value.users == d.users[u.id := u] && r.value.accounts == d.accounts
    ensures r.Ok? ==> FindByEmail(r.value, u.email) == Some(u)
  {
    if u.id in d.users || u.email in d.byEmail then Err(Internal)
    else Ok(Directory(d.users[u.id := u], d.byEmail[u.email := u.id], d.accounts))
  }

  /** `account.create`: stores `a`; fails when its id is taken, leaving the directory as it was. */
  function CreateAccount(d: Directory, a: Account): (r: Result<Directory>)
    requires WellFormed(d)
    ensures r.Ok? <==> a.id !in d.accounts
    ensures r.Err? ==> r.error == Internal
    ensures r.Ok? ==> WellFormed(r.value) && AccountsKept(d, r.value)
    ensures r.Ok? ==> r.value.accounts == d.accounts[a.id := a] && r.value.users == d.users && r.value.byEmail == d.byEmail
  {
    if a.id in d.accounts then Err(Internal)
    else Ok(d.(accounts := d.accounts[a.id := a]))
  }

  /**
    Marks the user with `email` as verified, as completing an email confirmation
    does. Used only to state the register-confirm-login scenario.
   */
  function SetVerified(d: Directory, email: Email): (r: Directory)
    requires WellFormed(d)
    ensures WellFormed(r) && r.accounts == d.accounts && r.byEmail == d.byEmail
    ensures forall id :: id in d.users && d.users[id].email != email ==> id in r.users && r.users[id] == d.users[id]
    ensures r.users.Keys == d.users.Keys
    ensures FindByEmail(d, email).None? ==> r == d
    ensures FindByEmail(d, email).Some? ==>
      FindByEmail(r, email) == Some(FindByEmail(d, email).value.(isVerified := true))
  {
    if email in d.byEmail then
      var id := d.byEmail[email];
      d.(users := d.users[id := d.users[id].(isVerified := true)])
    else d
  }
}
