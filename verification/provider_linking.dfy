/**
  Provider login looks an account up by the account's own id, compared with the
  provider's profile id, but creates the account without giving it that id: the
  store picks a fresh one. As written, the account a first login creates is
  never found again, so a returning user is not recognised and, because the
  email is already taken, the second login fails.

  The corrected flow is the same flow with the new account stored under the
  profile's id; under it a successful login leaves the profile linked to the
  signed-in user, and a second login with the same profile signs in the same
  user and creates nothing.
 */
module ProviderLinking {
  import opened AuthTypes
  import opened UserDirectory
  import opened AuthFlows

  /** A state in which the profile's account, if there is one, resolves to a user. */
  predicate NotDangling(d: Directory, p: Profile)
    requires WellFormed(d)
  {
    FindAccount(d, p.id, p.provider).None? || LinkedUser(d, p).Some?
  }

  /**
    As written: a first login that creates the user and an account under a
    store-generated id other than the profile's leaves the profile unlinked,
    and the next login with the same profile fails and changes nothing.
   */
  lemma AsWrittenReturningUserNotRecognised(
    s: AuthState, p: Profile, uid1: UserId, aid1: AccountId, ok1: bool,
    uid2: UserId, aid2: AccountId, ok2: bool)
    requires WellFormed(s.dir)
    requires FindByEmail(s.dir, p.email).None? && uid1 !in s.dir.users
    requires p.id !in s.dir.accounts && aid1 !in s.dir.accounts && aid1 != p.id
    ensures
      var first := ExtractProfileFromCode(s, Ok(p), uid1, aid1, ok1);
      && first.state.session == Some(uid1)
      && LinkedUser(first.state.dir, p).None?
      && ExtractProfileFromCode(first.state, Ok(p), uid2, aid2, ok2) == Step(Err(Internal), first.state)
  {
    assert FindAccount(s.dir, p.id, p.provider).None?;
    var first := ExtractProfileFromCode(s, Ok(p), uid1, aid1, ok1);
    assert p.id !in first.state.dir.accounts;
    assert FindAccount(first.state.dir, p.id, p.provider).None?;
    assert first.state.dir.users[uid1].email == p.email;
    assert FindByEmail(first.state.dir, p.email).Some?;
  }

  /** Corrected: provider login that stores a new account under the profile's own id. */
  function ExtractProfileFromCodeLinked(s: AuthState, exchange: Result<Profile>, newUserId: UserId, saveOk: bool): (out: Step)
    requires WellFormed(s.dir)
    ensures WellFormed(out.state.dir)
    ensures out.result.Ok? ==> out.result.value.SignedIn?
  {
    ExtractProfileFromCode(s, exchange, newUserId, if exchange.Ok? then exchange.value.id else "", saveOk)
  }

  /** Corrected: a successful login leaves the profile linked to the user it signed in. */
  lemma LinkedLoginLinksProfile(s: AuthState, p: Profile, newUserId: UserId, saveOk: bool)
    requires WellFormed(s.dir)
    requires newUserId != "" && NotDangling(s.dir, p)
    ensures
      var out := ExtractProfileFromCodeLinked(s, Ok(p), newUserId, saveOk);
      out.result.Ok? ==> LinkedUser(out.state.dir, p) == Some(out.result.value.user)
  {
    var out := ExtractProfileFromCodeLinked(s, Ok(p), newUserId, saveOk);
    if out.result.Ok? && LinkedUser(s.dir, p).None? {
      assert FindAccount(s.dir, p.id, p.provider).None?;
      assert FindAccount(out.state.dir, p.id, p.provider) == Some(ProviderAccount(p, newUserId, p.id));
    }
  }

  /**
    Corrected: after a successful first login, a second login with the same
    profile signs in the same user and creates no user and no account.
   */
  lemma LinkedReturningUserRecognised(
    s: AuthState, p: Profile, uid1: UserId, ok1: bool, uid2: UserId)
    requires WellFormed(s.dir)
    requires uid1 != "" && NotDangling(s.dir, p)
    requires ExtractProfileFromCodeLinked(s, Ok(p), uid1, ok1).result.Ok?
    ensures
      var first := ExtractProfileFromCodeLinked(s, Ok(p), uid1, ok1);
      var u := first.result.value.user;
      && first.state.session == Some(u.id)
      && ExtractProfileFromCodeLinked(first.state, Ok(p), uid2, true) ==
           Step(Ok(SignedIn(u)), first.state)
  {
    LinkedLoginLinksProfile(s, p, uid1, ok1);
  }
}
