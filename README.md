# Refresh-token session lifecycle of the finance backend, in Dafny

This project models the authentication core of a NestJS finance backend:
how sessions are issued, rotated and revoked. A user row carries a nullable
`refreshTokenHash`:

- `register` and `login` issue an access/refresh token pair and store the
  hash of the refresh token;
- the refresh route checks a presented refresh token against that hash and
  then rotates it;
- `logout` nulls the hash, which revokes the session.

Two small companions are modelled too:

- the profile lookup `UsersService.findOne`, which projects out the secret columns;
- the account-number masking in `MailService.sendWelcomeEmail`, whose send never fails the caller.

Layout, one module per file:

| file | module | models |
|---|---|---|
| `wrappers.dfy` | `Wrappers` | `Option`, `Result` |
| `domain.dfy` | `Domain` | the role enum and the exception classes the services throw |
| `text.dfy` | `Text` | decimal text of numbers and its parser, as used in tokens and messages |
| `crypto.dfy` | `Crypto` | `bcrypt.hash` / `bcrypt.compare` |
| `jwt.dfy` | `Jwt` | `jwtService.signAsync` and passport-jwt's signature and expiry check |
| `store.dfy` | `Store` | the Prisma user table: a `Database` class with a `map<int, User>` and the id sequence |
| `auth.dfy` | `Auth` | `auth.service.ts`: `getTokens`, `updateRtHash`, `clearRtHash`, `register`, `login` |
| `rt_jwt_strategy.dfy` | `RtJwtStrategy` | `rt-jwt.strategy.ts`: `validate` |
| `auth_api.dfy` | `AuthApi` | `auth.controller.ts`: `register`, `login`, `refresh` (with its guard), `logout` |
| `users.dfy` | `Users` | `users.service.ts`: `findOne` |
| `mail.dfy` | `MailService` | `mail.service.ts`: the masking and `sendWelcomeEmail` |

How the model is built:

- **Services.** `AuthService` and `AuthController` are classes. Each method
  changes the `Database` it names in `modifies`. Each method's `ensures` ties
  its result and the new table to a pure function of the old table:
  `RegisterOutcome`, `LoginOutcome`, `RefreshOutcome`, `RefreshRouteOutcome`
  or `LogoutOutcome`. The properties are proved about those functions, and
  the lemmas that relate several operations are stated over them.
- **Inputs.** The clock (`now`, in whole seconds) is a parameter of every
  operation that signs. One `now` stands for all the clock reads of an
  operation: the source reads the clock separately for each of the two
  `signAsync` calls (`backend/src/modules/auth/auth.service.ts:23-40`), and
  the database's own clock supplies the `createdAt` default. No lemma relies
  on those reads agreeing. The configured `JWT_SECRET` is an `Option<string>`
  held by `AuthService`.
- **Hashing.** `Hash(x)` is `"hashed_" + x`, the shape of the test double at
  `backend/src/modules/auth/auth.service.spec.ts:46-53`, and
  `Compare(x, h)` is `h == Hash(x)`. The only fact the session lemmas use is
  `CompareHash`: `Compare(x, Hash(y))` holds exactly when `x == y`.
- **Tokens.** Under the one configured secret, a signed token is determined
  by its payload `{ id, role }`, its lifetime (`"3h"` or `"7d"`) and the
  second it was issued. `Sign` is an injective textual encoding of exactly
  that. `Decode` is its inverse in both directions: a string decodes to `c`
  exactly when it is `Sign(c)`. Any other string, including one whose fields
  read as claims but are spelled differently (a leading zero, say), does not
  decode; that stands for a token whose signature fails. `Verify` adds the
  expiry check (a token is refused once `now` reaches issue time plus
  lifetime).

Behaviour of the code that the model keeps as written:

- `register` returns `{ message: 'User registered', user }` and no tokens
  (`backend/src/modules/auth/auth.service.ts:80`). The service's own test
  expects an `access_token` in that result
  (`backend/src/modules/auth/auth.service.spec.ts:193`). The session hash
  is still stored, so the new user is logged in server-side. The client
  never receives that refresh token.
- The `user` that `register` returns is the created row as Prisma returns
  it. It includes the password hash, with the refresh-token hash still null
  (`RegisterOutcome`).
- `register` inserts the row before it signs tokens. With no usable secret,
  the row stays committed without a session hash and the signing error is
  re-thrown unchanged. The controller turns it into a 500. This and the other
  no-secret branches describe the services taken on their own: in the
  running application `RtJwtStrategy` is built with `secretOrKey` from the
  same setting (`backend/src/modules/auth/strategies/rt-jwt.strategy.ts:19`),
  and passport-jwt refuses to construct it without one, so the application
  does not start.
- No validation pipe is installed (`backend/src/main.ts:5-36`), so the
  request body reaches `prisma.user.create` through the `...dto` spread
  (`backend/src/modules/auth/auth.service.ts:72`). A body that carries
  `balance` or `createdAt` sets those columns of the new row
  (`RegisterOutcome`).
- The signer rejects an empty secret the same way as a missing one.
  `validate` treats an empty stored hash as revoked, because both values are
  falsy in JavaScript.
- Token signing is deterministic in payload, lifetime and issue second. A
  refresh made in the same second its refresh token was issued therefore
  re-issues the identical token, and the "rotated" token stays valid
  (`SameSecondReplayAccepted`). When the seconds differ, the model refuses
  the old token afterwards (`StaleRefreshTokenRejected`). That holds for the
  exact `Compare` of the model; see the bcrypt line under "Left out".
- An access token passes the refresh route's guard, because both kinds of
  token are signed with the same secret. The model's `validate` then refuses
  it as an invalid refresh token (`LoginStartsSession`). That too holds for
  the exact `Compare`; see the bcrypt line under "Left out".

## Model

| member | source | states |
|---|---|---|
| `Crypto.Hash` | backend/src/modules/auth/auth.service.spec.ts:47-51 | a stored hash is never empty and never equal to the plaintext it hashes |
| `Crypto.CompareHash` | backend/src/modules/auth/auth.service.spec.ts:52 | `compare(x, hash(y))` holds if and only if `x == y` |
| `Jwt.Decode` | backend/src/modules/auth/strategies/rt-jwt.strategy.ts:16-21 | a string that decodes is exactly the token signed over the claims it decodes to |
| `Jwt.DecodeExact` | backend/src/modules/auth/strategies/rt-jwt.strategy.ts:16-21 | a string decodes to claims `c` if and only if it is the token signed over `c` |
| `Jwt.NonCanonicalRefused` | backend/src/modules/auth/strategies/rt-jwt.strategy.ts:16-21 | a string whose fields read as valid claims but are not spelled as the signer spells them does not decode |
| `Jwt.LeadingZeroRefused` | backend/src/modules/auth/strategies/rt-jwt.strategy.ts:16-21 | an instance of that case: the string "rC05.1" reads as the claims that `Sign` writes as "rC5.1", and does not decode |
| `Jwt.DecodeSign` | backend/src/modules/auth/auth.service.ts:25-39 | verifying a signed token recovers exactly the payload, lifetime and issue time it was signed with |
| `Jwt.SignInjective` | backend/src/modules/auth/auth.service.ts:25-39 | two tokens are equal exactly when they were signed over equal claims |
| `Jwt.VerifySigned` | backend/src/modules/auth/strategies/rt-jwt.strategy.ts:16-21 | a signed token passes the guard with its own payload until issue time plus lifetime, and is refused from then on |
| `Store.FindByEmail` | backend/src/modules/auth/auth.service.ts:95 | finds the row with the given email, or reports that no row has it |
| `Store.SetRtHash` | backend/src/modules/auth/auth.service.ts:52-55 | only the `refreshTokenHash` column of row `id` changes; every other column and every other row is unchanged; the table invariant is kept |
| `Store.SetRtHashIdempotent` | backend/src/modules/auth/auth.service.ts:59-64 | clearing (or setting) the hash twice leaves the same table as doing it once |
| `Store.Row` | backend/src/modules/auth/auth.service.ts:71-73 | the created row takes name, email, password hash and role from the data; balance and creation time come from the data when given and otherwise default to 0 and now; the refresh-token hash starts null |
| `Store.Database.Create` | backend/src/modules/auth/auth.service.ts:71-73 | a taken email fails with P2002 and writes nothing; otherwise exactly the row `Row` builds, with the next id, is added and the sequence advances |
| `Store.Database.UpdateRefreshTokenHash` | backend/src/modules/auth/auth.service.ts:60-63 | a missing id fails with P2025 and writes nothing; otherwise only that row's hash column changes |
| `Auth.GetTokens` | backend/src/modules/auth/auth.service.ts:22-47 | returns `role` as given; the access token carries `{id, role}` with a 3-hour lifetime and the refresh token the same payload with 7 days, both issued now, and they differ; with no usable secret it fails with the signer's error |
| `Auth.RegisterOutcome` | backend/src/modules/auth/auth.service.ts:66-90 | a taken email gives Conflict("User with email already exists") and no write; otherwise one row is added with role CUSTOMER whatever the request says, `Hash(password)` as password, and the body's `balance` and `createdAt` when it carries them (0 and now otherwise); on success its hash is `Hash` of the refresh token issued for (id, CUSTOMER) and the response carries the created row; a signing failure is re-thrown unchanged and leaves the row without a session |
| `Auth.LoginOutcome` | backend/src/modules/auth/auth.service.ts:92-118 | an unknown email and a wrong password both give Unauthorized("Invalid credentials"); every failure leaves the table unchanged; success returns `getTokens` of the matching user's id and stored role and stores `Hash` of its refresh token; any other failure becomes "Dependency failure during login." |
| `Auth.AuthService.UpdateRtHash` | backend/src/modules/auth/auth.service.ts:50-56 | user `id`'s hash becomes `Hash(rt)` and nothing else changes; a missing user fails with P2025 |
| `Auth.AuthService.ClearRtHash` | backend/src/modules/auth/auth.service.ts:59-64 | user `id`'s hash becomes null and nothing else changes; a missing user fails with P2025 |
| `Auth.AuthService.Register` | backend/src/modules/auth/auth.service.ts:66-90 | result and new table are those of `RegisterOutcome`; the id sequence advances exactly when a row is inserted; the store invariant is kept |
| `Auth.AuthService.Login` | backend/src/modules/auth/auth.service.ts:92-118 | result and new table are those of `LoginOutcome`; the id sequence is unchanged; the store invariant is kept |
| `RtJwtStrategy.Validate` | backend/src/modules/auth/strategies/rt-jwt.strategy.ts:25-49 | a missing user or a null (or empty) hash gives Unauthorized("Session revoked or user not found"); a token that does not match the stored hash gives Unauthorized("Invalid refresh token."); it succeeds exactly when the stored hash is `Hash` of the presented token, and then returns the stored id and role with the raw token; it only reads the table |
| `RtJwtStrategy.ValidateAfterClear` | backend/src/modules/auth/strategies/rt-jwt.strategy.ts:29-33 | after `clearRtHash(id)` every token of user `id` is refused as a revoked session |
| `RtJwtStrategy.ValidateAfterUpdate` | backend/src/modules/auth/strategies/rt-jwt.strategy.ts:36-41 | after `updateRtHash(id, rt)`, user `id` is accepted with `rt` and every other token is refused as an invalid refresh token |
| `AuthApi.RegisterResponse` | backend/src/modules/auth/auth.controller.ts:13-21 | a success passes through unchanged; a Conflict becomes Conflict("A user with this email already exists."); every other error becomes the fixed internal-server-error message |
| `AuthApi.LoginResponse` | backend/src/modules/auth/auth.controller.ts:25-36 | a success passes through unchanged; an Unauthorized becomes Unauthorized("Invalid email or password."); every other error becomes the fixed internal-server-error message |
| `AuthApi.RefreshOutcome` | backend/src/modules/auth/auth.controller.ts:41-52 | issues `getTokens` for the guard-supplied id and role, stores `Hash` of exactly that refresh token and returns exactly those tokens; failures write nothing |
| `AuthApi.RefreshRouteOutcome` | backend/src/modules/auth/auth.controller.ts:39-52 | a token that fails signature or expiry is refused with 401 before `validate`; a success implies the token passed both the guard and `validate`; failures write nothing |
| `AuthApi.LogoutOutcome` | backend/src/modules/auth/auth.controller.ts:56-62 | nulls the hash of `req.user.id` and answers "Successfully logged out and session revoked."; a missing user fails with P2025 and writes nothing |
| `AuthApi.LogoutIdempotent` | backend/src/modules/auth/auth.controller.ts:56-62 | a second logout gives the same answer and the same table as the first |
| `AuthApi.LogoutRevokesSession` | backend/src/modules/auth/auth.controller.ts:59-60 | after logout, every refresh token of that user that passes the guard is refused as a revoked session, with no write |
| `AuthApi.RefreshRouteUnsigned` | backend/src/modules/auth/strategies/rt-jwt.strategy.ts:16-21 | a string that is not the signed token of any claims is refused by the guard with 401 "Unauthorized" before `validate` runs, and nothing is written |
| `AuthApi.RefreshRouteSigned` | backend/src/modules/auth/strategies/rt-jwt.strategy.ts:16-48 | the refresh route accepts a signed token if and only if it is unexpired, a secret is configured and its user's stored hash is `Hash` of that very token |
| `AuthApi.RefreshRotates` | backend/src/modules/auth/auth.controller.ts:48-49 | a refresh with a live refresh token succeeds; afterwards the user's stored hash is that of the new refresh token, and only that token is accepted for the user |
| `AuthApi.StaleRefreshTokenRejected` | backend/src/modules/auth/auth.controller.ts:45-49 | a live refresh token rotated at a later second than it was issued is accepted once; replaying it afterwards fails at any time, with Unauthorized("Invalid refresh token.") while it is unexpired, and writes nothing |
| `AuthApi.SameSecondReplayAccepted` | backend/src/modules/auth/auth.service.ts:33-39 | a refresh in the same second a live refresh token was issued succeeds and re-issues that identical token, which therefore stays accepted |
| `AuthApi.LoginFailuresIndistinguishable` | backend/src/modules/auth/auth.service.ts:97-98 | an unknown email and a wrong password get the identical answer from the login route, and neither writes |
| `AuthApi.LoginStartsSession` | backend/src/modules/auth/auth.service.ts:101-104 | the refresh token a successful login returns passes the refresh route; the access token presented in its place is refused as an invalid refresh token |
| `AuthApi.AuthController.Register` | backend/src/modules/auth/auth.controller.ts:12-22 | answer is `RegisterResponse` of the service outcome; the table is the service's; the id sequence advances exactly when a row is inserted |
| `AuthApi.AuthController.Login` | backend/src/modules/auth/auth.controller.ts:24-37 | answer is `LoginResponse` of the service outcome; the table is the service's; the id sequence is unchanged |
| `AuthApi.AuthController.Refresh` | backend/src/modules/auth/auth.controller.ts:41-52 | result and new table are those of `RefreshOutcome`; the id sequence is unchanged |
| `AuthApi.AuthController.RefreshRoute` | backend/src/modules/auth/auth.controller.ts:39-52 | result and new table are those of `RefreshRouteOutcome`; the id sequence is unchanged |
| `AuthApi.AuthController.Logout` | backend/src/modules/auth/auth.controller.ts:54-63 | result and new table are those of `LogoutOutcome`; the id sequence is unchanged |
| `Users.FindOne` | backend/src/modules/users/users.service.ts:10-29 | a missing id gives NotFound("User with ID <id> not found."); otherwise returns id, name, email, role, balance and createdAt, each equal to the stored column; the result type has no password or refresh-token hash |
| `Users.FindOneIgnoresSecrets` | backend/src/modules/users/users.service.ts:13-21 | changing any row's password hash or refresh-token hash changes no lookup's answer |
| `Users.NotFoundMessageNamesId` | backend/src/modules/users/users.service.ts:24-26 | different ids give different not-found messages |
| `MailService.LastFour` | backend/src/mail/mail.service.ts:18 | `slice(-4)`: the last four characters, or the whole string when it is shorter |
| `MailService.MaskAccountNumber` | backend/src/mail/mail.service.ts:18 | starts with "XXXX-XXXX-"; for 4 or more characters it has length 14 and ends with the last four; for fewer it is the prefix followed by the whole number |
| `MailService.MaskDependsOnLastFour` | backend/src/mail/mail.service.ts:18 | account numbers with the same last four characters are masked alike |
| `MailService.WelcomeMail` | backend/src/mail/mail.service.ts:21-34 | the message goes to the user's address with the welcome subject and shows the masked account number |
| `MailService.SendWelcomeEmail` | backend/src/mail/mail.service.ts:12-40 | never returns an error: a delivered message logs success and a failed send is only logged |

## Left out

- bcrypt's salt and cost factor. The model's `Hash` is deterministic and `Compare` is exact. bcrypt reads only the first 72 bytes of its input. For these tokens, those bytes cover the token header and roughly the first 26 bytes of the payload. The session lemmas therefore hold for the `Compare` axiom, not necessarily for the deployed library.
- The HMAC signature and the base64url layout of JWTs. `Sign` and `Decode` stand for them under the one configured secret.
- Failures of the database connection and Prisma errors other than P2002 (unique email) and P2025 (update of a missing row). `Database.Create` does not consume an id when it fails, unlike a database sequence.
- Concurrency: the `Promise.all` in `getTokens` and racing refreshes of one user. Operations run one at a time.
- The access-token guard (`JwtStrategy`) on `logout`. It passes the decoded payload through unchanged, so `Logout` takes the verified id directly.
- HTTP status codes and response serialisation. An exception the `refresh` and `logout` handlers do not catch is returned as it is; the framework would answer 500.
- The DTO decorators (`IsEmail`, `MinLength(8)`). No validation pipe is installed, so they never run, and the model puts no condition on the body's fields either.
- `Auth.RegisterOutcome`: of the columns the `...dto` spread can set, only `balance` and `createdAt` are modelled. A body that sets `id`, `refreshTokenHash` or `accountNumber`, or a field that is not a column (which Prisma rejects), is not modelled; the contract covers the four declared fields plus those two columns.
- Account-number generation and the welcome email during registration: `register` does neither.
- The SMTP send itself. `SendWelcomeEmail` takes the mailer's outcome as a function parameter.
- The exact whitespace of the HTML template. `WelcomeMail` keeps its text in order without indentation.
- The error object that `console.error` prints next to its message in `sendWelcomeEmail`.
- The log line `login` writes with `console.error("Critical Login Dependency Error:", error)` before it throws the generic error (`backend/src/modules/auth/auth.service.ts:113`).
- `MailService.LastFour`: counts Dafny characters, while JavaScript's `slice(-4)` counts UTF-16 code units; the two differ only for account numbers with characters outside the Basic Multilingual Plane.
- Savings, loans, users controller routes, module wiring, bootstrap and the whole frontend: no session logic is in them.
