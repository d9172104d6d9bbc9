/**
  The authentication service as an object: its flows update the user directory,
  the outbox of tokens handed to the mail collaborators, and the session's
  userId in place, with an early exit at each failing gate. Each method is
  proved to leave exactly the state, and return exactly the reply, that the
  matching step function of AuthFlows describes.
 */
module Auth {
  import opened AuthTypes
  import opened UserDirectory
  import opened AuthFlows

  class AuthService {
    var dir: Directory
    var outbox: seq<Mail>
    var sessionUserId: Option<UserId>
    /** The password-hash check (argon2 `verify`), a pure collaborator. */
    const passwordMatches: (string, string) -> bool

    function State(): AuthState
      reads this
    {
      AuthState(dir, outbox, sessionUserId)
    }

    ghost predicate Valid()
      reads this
    {
      WellFormed(dir)
    }

    constructor (passwordMatches: (string, string) -> bool, dir: Directory)
      requires WellFormed(dir)
      ensures Valid() && State() == AuthState(dir, [], None)
      ensures this.passwordMatches == passwordMatches
    {
      this.passwordMatches := passwordMatches;
      this.dir := dir;
      outbox := [];
      sessionUserId := None;
    }

    method SaveSession(user: User, saveOk: bool) returns (r: Result<Reply>)
      modifies this`sessionUserId
      ensures Step(r, State()) == AuthFlows.SaveSession(old(State()), user, saveOk)
    {
      sessionUserId := Some(user.id);
      if !saveOk {
        return Err(Internal);
      }
      r := Ok(SignedIn(user));
    }

    method Register(email: Email, name: string, hash: string, newUserId: UserId) returns (r: Result<Reply>)
      requires Valid()
      modifies this`dir, this`outbox
      ensures Valid()
      ensures Step(r, State()) == AuthFlows.Register(old(State()), email, name, hash, newUserId)
    {
      var existing := FindByEmail(dir, email);
      if existing.Some? {
        return Err(Conflict);
      }
      var newUser := User(newUserId, email, hash, name, "", Credentials, false, false);
      var created := CreateUser(dir, newUser);
      if created.Err? {
        return Err(created.error);
      }
      dir := created.value;
      outbox := outbox + [VerificationToken(newUser.email)];
      r := Ok(Registered);
    }

    method Login(email: Email, password: string, code: string, codeCheck: Outcome, saveOk: bool)
      returns (r: Result<Reply>)
      requires Valid()
      modifies this`outbox, this`sessionUserId
      ensures Valid()
      ensures Step(r, State()) == AuthFlows.Login(old(State()), passwordMatches, email, password, code, codeCheck, saveOk)
    {
      var found := FindByEmail(dir, email);
      if found.None? || found.value.password == "" {
        return Err(NotFound);
      }
      var user := found.value;
      if !passwordMatches(user.password, password) {
        return Err(Unauthorized);
      }
      if !user.isVerified {
        outbox := outbox + [VerificationToken(user.email)];
        return Err(Unauthorized);
      }
      if user.isTwoFactorEnabled {
        if code == "" {
          outbox := outbox + [TwoFactorToken(email)];
          return Ok(TwoFactorRequired);
        }
        if codeCheck.Fail? {
          return Err(codeCheck.error);
        }
      }
      r := SaveSession(user, saveOk);
    }

    method ExtractProfileFromCode(exchange: Result<Profile>, newUserId: UserId, newAccountId: AccountId, saveOk: bool)
      returns (r: Result<Reply>)
      requires Valid()
      modifies this`dir, this`sessionUserId
      ensures Valid()
      ensures Step(r, State()) == AuthFlows.ExtractProfileFromCode(old(State()), exchange, newUserId, newAccountId, saveOk)
    {
      if exchange.Err? {
        return Err(exchange.error);
      }
      var profile := exchange.value;
      var account := FindAccount(dir, profile.id, profile.provider);
      var user := if account.Some? && account.value.userId != "" then FindById(dir, account.value.userId) else None;
      if user.Some? {
        r := SaveSession(user.value, saveOk);
        return;
      }
      var newUser := ProviderUser(profile, newUserId);
      var created := CreateUser(dir, newUser);
      if created.Err? {
        return Err(created.error);
      }
      dir := created.value;
      if account.None? {
        var linked := CreateAccount(dir, ProviderAccount(profile, newUserId, newAccountId));
        if linked.Err? {
          return Err(linked.error);
        }
        dir := linked.value;
      }
      r := SaveSession(newUser, saveOk);
    }
  }
}
