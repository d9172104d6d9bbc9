# Authentication orchestrator: a Dafny model

This project models `AuthService` of the full-authorize backend, the component
that decides the outcome of three flows:

- **register**: refuses an email that is already taken. Otherwise it stores an
  unverified CREDENTIALS user and sends an email-confirmation token.
- **login**: a fixed sequence of gates. The user is looked up, then the password
  is checked, then email verification (a confirmation token is resent on
  failure), then the second factor (a code is sent, or the supplied one is
  validated). Only then is the session saved.
- **provider login** (`extractProfileFromCode`): looks up the linked account for
  the provider's profile. A returning user is signed in directly. Otherwise a
  verified user is created, plus an `oauth` account only when no account was
  found, and that user is signed in.

The state these flows touch is abstract:

- the user directory: users by id, an index by email, and accounts by their own id;
- an outbox of the tokens handed to the mail collaborators;
- the session's `userId`.

Collaborators become values the caller supplies:

- the argon2 password check is a pure function `(hash, password) -> bool`;
- the stored hash is a parameter;
- the two-factor validation is an `Outcome` (pass, or the exception it throws);
- the provider's code exchange is a `Result<Profile>`;
- the session store's answer to `save` is a `bool`;
- the ids the store generates are parameters.

Files:

- `types.dfy` (`AuthTypes`): records, error kinds, replies.
- `directory.dfy` (`UserDirectory`): the store's lookups and creates.
- `flows.dfy` (`AuthFlows`): each flow as a step function from state to reply
  and new state. Its contract holds the flow's properties.
- `service.dfy` (`Auth`): the `AuthService` class. Its methods update the
  fields in place, with an early return at each failing gate. Each method is
  proved to produce exactly the step function's reply and state.
- `traces.dfy` (`AuthTraces`): arbitrary sequences of calls and the
  invariants they keep.
- `provider_linking.dfy` (`ProviderLinking`): the account-linking finding below.

The model follows the code at three points where its behaviour is easy to misread:

- A failed two-factor validation propagates the validator's own exception kind.
  It is not mapped to Unauthorized.
- A store failure on create (a taken email or id) is not recovered or retried.
  It ends the call as an Internal error.
- The session's `userId` is assigned before the session store is asked to save
  (src/auth/auth.service.ts:153). After a failed save, the session still names
  the user, while the reply is an Internal error.

## Model

| member | source | states |
|---|---|---|
| AuthTypes.UpperChar | src/auth/auth.service.ts:117 | one character upper-cased: a lower-case ASCII letter becomes the capital at the same alphabet position, any other character is kept, and no lower-case letter comes out |
| AuthTypes.ToUpper | src/auth/auth.service.ts:117 | `toUpperCase` on ASCII: same length, no lower-case letter left, every non-lower-case character kept in place, each lower-case letter replaced by its capital |
| AuthTypes.MethodForProvider | src/auth/auth.service.ts:117 | the method tag of a provider-created user is the provider name upper-cased: same length, no lower-case ASCII letter left, other characters kept in place |
| UserDirectory.FindByEmail | src/auth/auth.service.ts:35 | finds a user iff some stored user has exactly that email, and returns that stored record |
| UserDirectory.FindById | src/auth/auth.service.ts:106-108 | finds a user iff one is stored under the id, and returns that record |
| UserDirectory.FindAccount | src/auth/auth.service.ts:100-105 | finds an account iff one whose own id equals the profile id has the same provider |
| UserDirectory.CreateUser | src/auth/auth.service.ts:41-48 | succeeds iff the id is unused and no user has the email; adds exactly that user, keeps every other record and the email index exact; a clash is an Internal error |
| UserDirectory.CreateAccount | src/auth/auth.service.ts:121-130 | succeeds iff the account id is unused; adds exactly that account and leaves users alone |
| AuthFlows.SaveSession | src/auth/auth.service.ts:151-166 | the session names the user whatever the store answers; the reply is the user iff the save succeeds, otherwise Internal |
| AuthFlows.Register | src/auth/auth.service.ts:31-56 | a taken email gives Conflict and changes nothing; otherwise exactly one unverified CREDENTIALS user with empty picture is added, one confirmation token goes to the email, the reply is the registration message; the session never changes |
| AuthFlows.Login | src/auth/auth.service.ts:57-92 | NotFound (no change) without a user or password; Unauthorized (no change, nothing sent) on a wrong password; one confirmation token and Unauthorized when unverified; one two-factor code and a message without a code; the validator's error on a bad code; the session is saved iff every gate passed; the directory never changes; nothing is sent unless the password was accepted |
| AuthFlows.LinkedUser | src/auth/auth.service.ts:100-108 | a provider login resolves to a user only when the account found by (profile id, provider) has a set (non-empty) userId naming a stored user, and then to exactly that user; otherwise to none |
| AuthFlows.ExtractProfileFromCode | src/auth/auth.service.ts:93-133 | an exchange failure changes nothing; a resolving account signs its user in and creates nothing; otherwise exactly one verified, password-less user with the provider's method tag is created, an oauth account only when none was found, and the session names the new user; a taken email fails with nothing changed; when the account create fails after the user create, the call ends in Internal with the new user stored, no account and the session unchanged; no token is ever sent; no existing record is altered |
| AuthFlows.RegisterConfirmLogin | src/auth/auth.service.ts:31-92 | register, login before confirming (Unauthorized, a second confirmation token, no session), then login after confirming signs the new user in |
| AuthFlows.TwoFactorTwoCalls | src/auth/auth.service.ts:81-91 | a login without a code sends one code and sets no session; a following login with a code signs the user in when the code validates and fails with the validator's error, session unchanged, when it does not |
| Auth.AuthService.constructor | src/auth/auth.service.ts:23-30 | the service starts with the given directory, an empty outbox and no session |
| Auth.AuthService.SaveSession | src/auth/auth.service.ts:151-166 | updates only the session field, exactly as AuthFlows.SaveSession |
| Auth.AuthService.Register | src/auth/auth.service.ts:31-56 | updates the directory and outbox in place to exactly the state and reply of AuthFlows.Register, keeping the directory well formed |
| Auth.AuthService.Login | src/auth/auth.service.ts:57-92 | updates the outbox and session in place to exactly the state and reply of AuthFlows.Login |
| Auth.AuthService.ExtractProfileFromCode | src/auth/auth.service.ts:93-133 | updates the directory and session in place to exactly the state and reply of AuthFlows.ExtractProfileFromCode |
| AuthTraces.Apply | src/auth/auth.service.ts:31-133 | any one call keeps the directory well formed, alters or removes no user or account, only appends to the outbox, and keeps the session naming a stored user |
| AuthTraces.ApplyKeepsOutboxAddressed | src/auth/auth.service.ts:50-83 | any one call sends tokens only to emails of stored users (the sends at lines 50, 74 and 83) |
| AuthTraces.Run | src/auth/auth.service.ts:31-133 | any sequence of calls keeps the directory well formed |
| AuthTraces.RunKeepsRecords | src/auth/auth.service.ts:41-131 | over any sequence of calls no user or account record is removed or altered and no sent token is taken back |
| AuthTraces.RunKeepsInvariants | src/auth/auth.service.ts:31-166 | over any sequence of calls the session only names stored users and every token went to a stored user's email |
| ProviderLinking.AsWrittenReturningUserNotRecognised | src/auth/auth.service.ts:100-130 | as written, after a first provider login creates its account under a store-chosen id, the profile no longer resolves to the user and a second login with the same profile fails with Internal, changing nothing |
| ProviderLinking.ExtractProfileFromCodeLinked | src/auth/auth.service.ts:121-130 | the corrected flow keeps the directory well formed and replies only with a signed-in user |
| ProviderLinking.LinkedLoginLinksProfile | src/auth/auth.service.ts:100-130 | corrected: a successful provider login leaves the profile resolving to the user it signed in, provided any account already found for the profile resolves to a user (an unresolving account still yields a new user and no account, so the profile stays unlinked) and the new user id is non-empty |
| ProviderLinking.LinkedReturningUserRecognised | src/auth/auth.service.ts:100-111 | corrected: a second login with the same profile signs in the same user and creates no user or account, provided any account already found for the profile resolves to a user (an unresolving account still yields a new user and no account, so the profile stays unlinked) the first login's new user id is non-empty, the first login succeeds, and the second login's session save succeeds |

## Left out

- `logout` (src/auth/auth.service.ts:135-150): its outcome depends on callback timing, because `resolve()` can run before the destroy-error callback. It has no stable sequential contract.
- The provider registry and code exchange (`findByService`, `findUserByCode`): a network exchange, given to the model as its result (a profile or an error kind).
- Password hashing inside the user service: the stored hash is a parameter. The argon2 check is an uninterpreted pure function.
- Token generation, expiry, storage and mail delivery of the confirmation and two-factor services: sending is an append to the outbox. Delivery failures are not modelled.
- Two-factor validation internals: validation is an outcome supplied per call. Single-use consumption of a code is the validator's business and is not modelled.
- The internals of the user service's `create` (hashing, defaults) are not modelled. Two assumptions stand in for them: a new user has two-factor off, and a store constraint violation surfaces as Internal.
- Whether an upper-cased provider name is a member of the store's method enum is not modelled. The schema is not part of this model.
- Unicode case mapping: `ToUpper` maps ASCII letters only.
- Session persistence: only the session's `userId` field and the save outcome are modelled, not the session store.
- Concurrency: two provider logins racing on one identity are not modelled. The code has no recovery for that case.
- Sessions of several clients: each request carries its own client's session, but the traces thread one session through every call, so they model the calls of a single client.
- Framework plumbing: Express request and response objects, configuration and the message texts. Replies are the tags `Registered` and `TwoFactorRequired`, and errors are the kinds Conflict, NotFound, Unauthorized and Internal.
- The email-confirmation step that marks a user verified is not part of the core. `UserDirectory.SetVerified` stands in for it only in `AuthFlows.RegisterConfirmLogin`.
- The mail confirmation template: it only interpolates a link into a string.
- Auth.AuthService.ExtractProfileFromCode: follows the code as written. The corrected, account-linking flow exists only as `ProviderLinking.ExtractProfileFromCodeLinked` with its lemmas, so the class keeps the defect recorded under Findings.

## Findings

| source | as written | input that shows it | evidently intended | confidence | as-written member | corrected member |
|---|---|---|---|---|---|---|
| src/auth/auth.service.ts:100-130 | the account is looked up by its own `id` equal to `profile.id`, but it is created without that id, so the store generates one | a first provider login for a new email succeeds; a second login with the same profile finds no account, tries to create a user with the now-taken email and fails | the created account is keyed by the profile's id, so a returning provider user resolves to the same user | medium, not executed (the account schema is not part of this model) | ProviderLinking.AsWrittenReturningUserNotRecognised | ProviderLinking.LinkedReturningUserRecognised |
