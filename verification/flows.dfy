/**
  The three flows of the authentication service as step functions over the
  state they touch: the user directory, the outbox of tokens handed to the mail
  collaborators, and the `userId` of the request's session.

  What the collaborators decide is passed in: `pm` is the password-hash check,
  `codeCheck` the two-factor validation outcome, `saveOk` whether the session
  store accepted the write, `exchange` the provider's answer to the
  authorization code, and `newUserId`/`newAccountId` the ids the store generates.
 */
module AuthFlows {
  import opened AuthTypes
  import opened UserDirectory

  datatype AuthState = AuthState(dir: Directory, outbox: seq<Mail>, session: Option<UserId>)

  /** The reply (or exception) of one call, and the state after it. */
  datatype Step = Step(result: Result<Reply>, state: AuthState)

  /** The user the login looks up exists, has a password, and the password matches it. */
  ghost predicate PasswordAccepted(d: Directory, pm: (string, string) -> bool, email: Email, password: string)
    requires WellFormed(d)
  {
    var found := FindByEmail(d, email);
    found.Some? && found.value.password != "" && pm(found.value.password, password)
  }

  /** Every gate of the login passes: password, verified email, and the second factor when enabled. */
  ghost predicate Admitted(
    d: Directory, pm: (string, string) -> bool, email: Email, password: string, code: string, codeCheck: Outcome)
    requires WellFormed(d)
  {
    && PasswordAccepted(d, pm, email, password)
    && FindByEmail(d, email).value.isVerified
    && (FindByEmail(d, email).value.isTwoFactorEnabled ==> code != "" && codeCheck.Pass?)
  }

  /**
    `saveSession`: the session's userId is assigned before the store is asked to
    save, so it names `user` whatever the store answers; the reply is the user
    when the save succeeds and an Internal error when it fails.
   */
  function SaveSession(s: AuthState, user: User, saveOk: bool): (out: Step)
    ensures out.state == s.(session := Some(user.id))
    ensures out.result.Ok? <==> saveOk
    ensures out.result.Ok? ==> out.result.value == SignedIn(user)
    ensures out.result.Err? ==> out.result.error == Internal
  {
    Step(if saveOk then Ok(SignedIn(user)) else Err(Internal), s.(session := Some(user.id)))
  }

  /**
    `register`: a taken email is a Conflict and changes nothing; otherwise one
    unverified CREDENTIALS user with an empty picture is stored, one confirmation
    token goes to the email, and the session is never touched.
   */
  function Register(s: AuthState, email: Email, name: string, hash: string, newUserId: UserId): (out: Step)
    requires WellFormed(s.dir)
    ensures WellFormed(out.state.dir) && UsersKept(s.dir, out.state.dir)
    ensures out.state.session == s.session
    ensures out.result.Ok? <==> FindByEmail(s.dir, email).None? && newUserId !in s.dir.users
    ensures FindByEmail(s.dir, email).Some? ==> out == Step(Err(Conflict), s)
    ensures FindByEmail(s.dir, email).None? && newUserId in s.dir.users ==> out == Step(Err(Internal), s)
    ensures out.result.Ok? ==>
      var u := User(newUserId, email, hash, name, "", Credentials, false, false);
      && out.result.value == Registered
      && out.state.dir.users == s.dir.users[newUserId := u]
      && |out.state.dir.users| == |s.dir.users| + 1
      && FindByEmail(out.state.dir, email) == Some(u)
      && out.state.dir.accounts == s.dir.accounts
      && out.state.outbox == s.outbox + [VerificationToken(email)]
  {
    if FindByEmail(s.dir, email).Some? then Step(Err(Conflict), s)
    else
      var u := User(newUserId, email, hash, name, "", Credentials, false, false);
      match CreateUser(s.dir, u)
      case Err(e) => Step(Err(e), s)
      case Ok(d) => Step(Ok(Registered), s.(dir := d, outbox := s.outbox + [VerificationToken(u.email)]))
  }

  /**
    `login`: lookup, password, verification, second factor, session, in that
    order; each failing gate ends the call before the next one runs.
   */
  function Login(
    s: AuthState, pm: (string, string) -> bool,
    email: Email, password: string, code: string, codeCheck: Outcome, saveOk: bool): (out: Step)
    requires WellFormed(s.dir)
    ensures out.state.dir == s.dir
    // gate 1: no such user, or a user without a password
    ensures FindByEmail(s.dir, email).None? || FindByEmail(s.dir, email).value.password == "" ==>
      out == Step(Err(NotFound), s)
    // gate 2: a wrong password is rejected before verification is looked at
    ensures (FindByEmail(s.dir, email).Some? && FindByEmail(s.dir, email).value.password != "" &&
             !PasswordAccepted(s.dir, pm, email, password)) ==>
      out == Step(Err(Unauthorized), s)
    // gate 3: an unverified user gets one confirmation token and no session
    ensures PasswordAccepted(s.dir, pm, email, password) && !FindByEmail(s.dir, email).value.isVerified ==>
      out == Step(Err(Unauthorized), s.(outbox := s.outbox + [VerificationToken(email)]))
    // gate 4: with two-factor on, no code means one code is sent and no session
    ensures (PasswordAccepted(s.dir, pm, email, password) && FindByEmail(s.dir, email).value.isVerified &&
             FindByEmail(s.dir, email).value.isTwoFactorEnabled && code == "") ==>
      out == Step(Ok(TwoFactorRequired), s.(outbox := s.outbox + [TwoFactorToken(email)]))
    ensures (PasswordAccepted(s.dir, pm, email, password) && FindByEmail(s.dir, email).value.isVerified &&
             FindByEmail(s.dir, email).value.isTwoFactorEnabled && code != "" && codeCheck.Fail?) ==>
      out == Step(Err(codeCheck.error), s)
    // gate 5: only a call that passed every gate reaches the session
    ensures Admitted(s.dir, pm, email, password, code, codeCheck) ==>
      out == SaveSession(s, FindByEmail(s.dir, email).value, saveOk)
    ensures out.result.Ok? && out.result.value.SignedIn? <==> Admitted(s.dir, pm, email, password, code, codeCheck) && saveOk
    ensures out.state.session != s.session ==> Admitted(s.dir, pm, email, password, code, codeCheck)
    // nothing is sent unless the password was accepted, and at most one token is sent
    ensures out.state.outbox != s.outbox ==> PasswordAccepted(s.dir, pm, email, password)
    ensures out.state.outbox == s.outbox || (exists m :: out.state.outbox == s.outbox + [m] && m.to == email)
  {
    var found := FindByEmail(s.dir, email);
    if found.None? || found.value.password == "" then Step(Err(NotFound), s)
    else
      var user := found.value;
      if !pm(user.password, password) then Step(Err(Unauthorized), s)
      else if !user.isVerified then
        Step(Err(Unauthorized), s.(outbox := s.outbox + [VerificationToken(user.email)]))
      else if user.isTwoFactorEnabled && code == "" then
        Step(Ok(TwoFactorRequired), s.(outbox := s.outbox + [TwoFactorToken(email)]))
      else if user.isTwoFactorEnabled && codeCheck.Fail? then Step(Err(codeCheck.error), s)
      else SaveSession(s, user, saveOk)
  }

  /**
    The user a provider login resolves to: the account found by the profile's id
    and provider, when its userId is set and names a stored user.
   */
  function LinkedUser(d: Directory, p: Profile): (r: Option<User>)
    requires WellFormed(d)
    ensures r.Some? ==>
      && FindAccount(d, p.id, p.provider).Some?
      && FindAccount(d, p.id, p.provider).value.userId != ""
      && r.value.id == FindAccount(d, p.id, p.provider).value.userId
      && r.value.id in d.users && d.users[r.value.id] == r.value
    ensures r.None? ==>
      || FindAccount(d, p.id, p.provider).None?
      || FindAccount(d, p.id, p.provider).value.userId == ""
      || FindAccount(d, p.id, p.provider).value.userId !in d.users
  {
    var account := FindAccount(d, p.id, p.provider);
    if account.Some? && account.value.userId != "" then FindById(d, account.value.userId) else None
  }

  /** The user a first provider login creates: verified, without a password. */
  function ProviderUser(p: Profile, newUserId: UserId): (u: User)
  {
    User(newUserId, p.email, "", p.name, p.picture, MethodForProvider(p.provider), true, false)
  }

  /** The account a first provider login creates, binding the provider to the new user. */
  function ProviderAccount(p: Profile, newUserId: UserId, newAccountId: AccountId): (a: Account)
  {
    Account(newAccountId, newUserId, "oauth", p.provider, p.accessToken, p.refreshToken, p.expiresAt)
  }

  /**
    `extractProfileFromCode`: a profile whose account resolves to a user signs
    that user in and creates nothing. Otherwise one verified user is created, an
    `oauth` account for it only when no account was found at all, and that user
    is signed in. No token is ever sent.
   */
  function ExtractProfileFromCode(
    s: AuthState, exchange: Result<Profile>, newUserId: UserId, newAccountId: AccountId, saveOk: bool): (out: Step)
    requires WellFormed(s.dir)
    ensures WellFormed(out.state.dir)
    ensures UsersKept(s.dir, out.state.dir) && AccountsKept(s.dir, out.state.dir)
    ensures out.state.outbox == s.outbox
    ensures out.result.Ok? ==> out.result.value.SignedIn?
    ensures out.state.session != s.session ==>
      out.state.session.Some? && out.state.session.value in out.state.dir.users
    ensures exchange.Err? ==> out == Step(Err(exchange.error), s)
    // a returning user: session set, no record created
    ensures exchange.Ok? && LinkedUser(s.dir, exchange.value).Some? ==>
      out == SaveSession(s, LinkedUser(s.dir, exchange.value).value, saveOk)
    // otherwise a user with the profile's email cannot be created twice
    ensures (exchange.Ok? && LinkedUser(s.dir, exchange.value).None? &&
             (newUserId in s.dir.users || FindByEmail(s.dir, exchange.value.email).Some?)) ==>
      out == Step(Err(Internal), s)
    // otherwise: one new verified user, one new account only when none was found, then the session
    ensures (exchange.Ok? && LinkedUser(s.dir, exchange.value).None? &&
             newUserId !in s.dir.users && FindByEmail(s.dir, exchange.value.email).None? &&
             (FindAccount(s.dir, exchange.value.id, exchange.value.provider).None? ==> newAccountId !in s.dir.accounts)) ==>
      var p := exchange.value;
      var u := ProviderUser(p, newUserId);
      && out.state.dir.users == s.dir.users[newUserId := u]
      && out.state.dir.accounts ==
           (if FindAccount(s.dir, p.id, p.provider).None?
            then s.dir.accounts[newAccountId := ProviderAccount(p, newUserId, newAccountId)]
            else s.dir.accounts)
      && out.state.session == Some(newUserId)
      && out.result == (if saveOk then Ok(SignedIn(u)) else Err(Internal))
    // a failed account create leaves the new user stored without an account, and no session
    ensures (exchange.Ok? && LinkedUser(s.dir, exchange.value).None? &&
             newUserId !in s.dir.users && FindByEmail(s.dir, exchange.value.email).None? &&
             FindAccount(s.dir, exchange.value.id, exchange.value.provider).None? && newAccountId in s.dir.accounts) ==>
      && out.result == Err(Internal)
      && out.state.dir.users == s.dir.users[newUserId := ProviderUser(exchange.value, newUserId)]
      && out.state.dir.accounts == s.dir.accounts
      && out.state.session == s.session
  {
    if exchange.Err? then Step(Err(exchange.error), s)
    else
      var p := exchange.value;
      var account := FindAccount(s.dir, p.id, p.provider);
      var linked := LinkedUser(s.dir, p);
      if linked.Some? then SaveSession(s, linked.value, saveOk)
      else
        var u := ProviderUser(p, newUserId);
        match CreateUser(s.dir, u)
        case Err(e) => Step(Err(e), s)
        case Ok(d1) =>
          if account.Some? then SaveSession(s.(dir := d1), u, saveOk)
          else
            match CreateAccount(d1, ProviderAccount(p, newUserId, newAccountId))
            case Err(e) => Step(Err(e), s.(dir := d1))
            case Ok(d2) => SaveSession(s.(dir := d2), u, saveOk)
  }

  /**
    Register, then a login before confirming the email, then a login after it:
    the first login is refused with one more confirmation token, the second one
    signs the new user in.
   */
  lemma RegisterConfirmLogin(
    s: AuthState, pm: (string, string) -> bool,
    email: Email, name: string, password: string, hash: string, newUserId: UserId,
    code: string, codeCheck: Outcome, saveOk: bool)
    requires WellFormed(s.dir)
    requires FindByEmail(s.dir, email).None? && newUserId !in s.dir.users
    requires hash != "" && pm(hash, password)
    ensures
      var registered := Register(s, email, name, hash, newUserId);
      var early := Login(registered.state, pm, email, password, code, codeCheck, saveOk);
      var confirmed := early.state.(dir := SetVerified(early.state.dir, email));
      var late := Login(confirmed, pm, email, password, code, codeCheck, true);
      var u := User(newUserId, email, hash, name, "", Credentials, true, false);
      && registered.result == Ok(Registered) && registered.state.session == s.session
      && early.result == Err(Unauthorized) && early.state.session == s.session
      && early.state.outbox == s.outbox + [VerificationToken(email), VerificationToken(email)]
      && late == Step(Ok(SignedIn(u)), confirmed.(session := Some(newUserId)))
  {
    var registered := Register(s, email, name, hash, newUserId);
    var u0 := User(newUserId, email, hash, name, "", Credentials, false, false);
    assert FindByEmail(registered.state.dir, email) == Some(u0);
    assert PasswordAccepted(registered.state.dir, pm, email, password);
    var early := Login(registered.state, pm, email, password, code, codeCheck, saveOk);
    var d3 := SetVerified(early.state.dir, email);
    assert FindByEmail(d3, email) == Some(u0.(isVerified := true));
    assert Admitted(d3, pm, email, password, code, codeCheck);
  }

  /**
    Two-factor login in two calls: without a code a code is sent and no session
    is set; a second call with a code signs the user in when the code validates,
    and fails with the validator's error, leaving the session alone, when not.
   */
  lemma TwoFactorTwoCalls(
    s: AuthState, pm: (string, string) -> bool, email: Email, password: string,
    code: string, codeCheck: Outcome, firstCheck: Outcome, firstSave: bool)
    requires WellFormed(s.dir)
    requires PasswordAccepted(s.dir, pm, email, password)
    requires FindByEmail(s.dir, email).value.isVerified && FindByEmail(s.dir, email).value.isTwoFactorEnabled
    requires code != ""
    ensures
      var u := FindByEmail(s.dir, email).value;
      var first := Login(s, pm, email, password, "", firstCheck, firstSave);
      var second := Login(first.state, pm, email, password, code, codeCheck, true);
      && first == Step(Ok(TwoFactorRequired), s.(outbox := s.outbox + [TwoFactorToken(email)]))
      && (codeCheck.Pass? ==> second == Step(Ok(SignedIn(u)), first.state.(session := Some(u.id))))
      && (codeCheck.Fail? ==> second == Step(Err(codeCheck.error), first.state))
  {
    var first := Login(s, pm, email, password, "", firstCheck, firstSave);
    assert first.state.dir == s.dir;
  }
}
