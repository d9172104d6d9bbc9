/** Values shared by the authentication orchestrator and the stores it calls. */
module AuthTypes {

  type Email = string
  type UserId = string
  type AccountId = string

  /** The kinds of exception the orchestrator throws or lets through. */
  datatype ErrorKind = Conflict | NotFound | Unauthorized | Internal

  datatype Option<+T> = None | Some(value: T)

  /** The outcome of a call that yields a value or throws. */
  datatype Result<+T> = Ok(value: T) | Err(error: ErrorKind)

  /** The outcome of a call that yields nothing or throws. */
  datatype Outcome = Pass | Fail(error: ErrorKind)

  /** How a user was created: CREDENTIALS, or the upper-cased name of an identity provider. */
  datatype AuthMethod = AuthMethod(tag: string)

  const Credentials: AuthMethod := AuthMethod("CREDENTIALS")

  /** A user record. `password` holds the stored hash; the empty string means "no password". */
  datatype User = User(
    id: UserId,
    email: Email,
    password: string,
    displayName: string,
    picture: string,
    authMethod: AuthMethod,
    isVerified: bool,
    isTwoFactorEnabled: bool)

  /**
    A linked-account record, keyed in the store by its own `id`. `userId` is
    the empty string when the store holds no user id for the account.
   */
  datatype Account = Account(
    id: AccountId,
    userId: UserId,
    kind: string,
    provider: string,
    accessToken: string,
    refreshToken: string,
    expiresAt: int)

  /** The normalised profile an identity provider returns for an authorization code. */
  datatype Profile = Profile(
    id: string,
    provider: string,
    email: Email,
    name: string,
    picture: string,
    accessToken: string,
    refreshToken: string,
    expiresAt: int)

  /** A token handed to the mail collaborators: an email-confirmation link or a two-factor code. */
  datatype Mail = VerificationToken(to: Email) | TwoFactorToken(to: Email)

  /** What a flow returns when it does not throw. */
  datatype Reply = Registered | TwoFactorRequired | SignedIn(user: User)

  /** A lower-case ASCII letter. */
  predicate IsLowerAscii(c: char)
  {
    'a' <= c <= 'z'
  }

  /** ASCII upper-casing of one character: a lower-case letter becomes its capital, anything else is kept. */
  function UpperChar(c: char): (u: char)
    ensures !IsLowerAscii(u)
    ensures IsLowerAscii(c) ==> 'A' <= u <= 'Z' && u as int - 'A' as int == c as int - 'a' as int
    ensures !IsLowerAscii(c) ==> u == c
  {
    if 'a' <= c <= 'z' then (c as int - 32) as char else c
  }

  /** ASCII upper-casing, standing for JavaScript's toUpperCase. */
  function ToUpper(s: string): (r: string)
    ensures |r| == |s|
    ensures forall i :: 0 <= i < |r| ==> !IsLowerAscii(r[i])
    ensures forall i :: 0 <= i < |s| && !IsLowerAscii(s[i]) ==> r[i] == s[i]
    ensures forall i :: 0 <= i < |s| && IsLowerAscii(s[i]) ==>
      'A' <= r[i] <= 'Z' && r[i] as int - 'A' as int == s[i] as int - 'a' as int
  {
    seq(|s|, i requires 0 <= i < |s| => UpperChar(s[i]))
  }

  /**
    The creation method recorded for a user who first signs in through
    `provider`: the provider's name upper-cased, so no lower-case letter is left
    and every other character stays where it was.
   */
  function MethodForProvider(provider: string): (m: AuthMethod)
    ensures |m.tag| == |provider|
    ensures forall i :: 0 <= i < |m.tag| ==> !IsLowerAscii(m.tag[i])
    ensures forall i :: 0 <= i < |provider| && !IsLowerAscii(provider[i]) ==> m.tag[i] == provider[i]
    ensures forall i :: 0 <= i < |provider| && IsLowerAscii(provider[i]) ==>
      m.tag[i] as int == provider[i] as int - 32
  {
    AuthMethod(ToUpper(provider))
  }
}
