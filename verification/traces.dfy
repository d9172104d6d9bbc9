/**
  Any sequence of register, login and provider-login calls, and what holds
  after all of them: the directory stays well formed, no user or account record
  is removed or altered, the outbox only grows, every token goes to a
  registered email, and the session only ever names a stored user.

  Every request of a trace reads and writes the same `session`, so a trace is
  the calls of one client; requests from different clients, each with its own
  session, are not modelled here.
 */
module AuthTraces {
  import opened AuthTypes
  import opened UserDirectory
  import opened AuthFlows

  /** One call to the service, with the answers its collaborators give. */
  datatype Request =
    | RegisterRequest(email: Email, name: string, hash: string, newUserId: UserId)
    | LoginRequest(email: Email, password: string, code: string, codeCheck: Outcome, saveOk: bool)
    | ProviderRequest(exchange: Result<Profile>, newUserId: UserId, newAccountId: AccountId, saveOk: bool)

  /** The session, when set, names a stored user. */
  ghost predicate SessionKnown(s: AuthState)
  {
    s.session.Some? ==> s.session.value in s.dir.users
  }

  /** Every token in the outbox was sent to the email of a stored user. */
  ghost predicate OutboxAddressed(s: AuthState)
  {
    forall i :: 0 <= i < |s.outbox| ==> s.outbox[i].to in s.dir.byEmail
  }

  /** An email that belongs to a user in `d` belongs to a user in any `d'` that keeps `d`'s users. */
  lemma EmailsKept(d: Directory, d': Directory, e: Email)
    requires WellFormed(d) && WellFormed(d') && UsersKept(d, d')
    requires e in d.byEmail
    ensures e in d'.byEmail
  {
    var id := d.byEmail[e];
    assert d'.users[id].email == e;
  }

  function Apply(s: AuthState, pm: (string, string) -> bool, req: Request): (s': AuthState)
    requires WellFormed(s.dir)
    ensures WellFormed(s'.dir)
    ensures UsersKept(s.dir, s'.dir) && AccountsKept(s.dir, s'.dir)
    ensures s.outbox <= s'.outbox
    ensures SessionKnown(s) ==> SessionKnown(s')
  {
    match req
    case RegisterRequest(email, name, hash, newUserId) =>
      Register(s, email, name, hash, newUserId).state
    case LoginRequest(email, password, code, codeCheck, saveOk) =>
      Login(s, pm, email, password, code, codeCheck, saveOk).state
    case ProviderRequest(exchange, newUserId, newAccountId, saveOk) =>
      ExtractProfileFromCode(s, exchange, newUserId, newAccountId, saveOk).state
  }

  /** One call sends tokens only to emails of stored users. */
  lemma ApplyKeepsOutboxAddressed(s: AuthState, pm: (string, string) -> bool, req: Request)
    requires WellFormed(s.dir) && OutboxAddressed(s)
    ensures OutboxAddressed(Apply(s, pm, req))
  {
    var s' := Apply(s, pm, req);
    forall i | 0 <= i < |s'.outbox| ensures s'.outbox[i].to in s'.dir.byEmail {
      if i < |s.outbox| {
        EmailsKept(s.dir, s'.dir, s.outbox[i].to);
      } else {
        match req
        case RegisterRequest(email, _, _, _) =>
          assert s'.outbox[i].to == email;
          assert FindByEmail(s'.dir, email).Some?;
        case LoginRequest(email, password, _, _, _) =>
          assert s'.outbox[i].to == email;
          assert FindByEmail(s.dir, email).Some?;
        case ProviderRequest(_, _, _, _) =>
      }
    }
  }

  /** The state after serving `reqs` in order. */
  function Run(s: AuthState, pm: (string, string) -> bool, reqs: seq<Request>): (s': AuthState)
    requires WellFormed(s.dir)
    ensures WellFormed(s'.dir)
    decreases |reqs|
  {
    if reqs == [] then s else Run(Apply(s, pm, reqs[0]), pm, reqs[1..])
  }

  /** The service never deletes or rewrites a user or account record, and never takes back a token. */
  lemma {:induction false} RunKeepsRecords(s: AuthState, pm: (string, string) -> bool, reqs: seq<Request>)
    requires WellFormed(s.dir)
    ensures UsersKept(s.dir, Run(s, pm, reqs).dir)
    ensures AccountsKept(s.dir, Run(s, pm, reqs).dir)
    ensures s.outbox <= Run(s, pm, reqs).outbox
    decreases |reqs|
  {
    if reqs != [] {
      RunKeepsRecords(Apply(s, pm, reqs[0]), pm, reqs[1..]);
    }
  }

  /** Whatever the calls, the session names a stored user and every token went to a stored user's email. */
  lemma {:induction false} RunKeepsInvariants(s: AuthState, pm: (string, string) -> bool, reqs: seq<Request>)
    requires WellFormed(s.dir)
    requires SessionKnown(s) && OutboxAddressed(s)
    ensures SessionKnown(Run(s, pm, reqs)) && OutboxAddressed(Run(s, pm, reqs))
    decreases |reqs|
  {
    if reqs != [] {
      ApplyKeepsOutboxAddressed(s, pm, reqs[0]);
      RunKeepsInvariants(Apply(s, pm, reqs[0]), pm, reqs[1..]);
    }
  }
}
