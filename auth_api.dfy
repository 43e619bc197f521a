/** AuthController (backend/src/modules/auth/auth.controller.ts): the HTTP
    routes of the session lifecycle. `register` and `login` translate the
    service's exceptions into stable client-facing ones; `refresh` rotates the
    refresh token behind the refresh-token guard; `logout` revokes the session. */
module AuthApi {
  import opened Wrappers
  import opened Domain
  import opened Crypto
  import opened Jwt
  import opened Store
  import opened Auth
  import opened RtJwtStrategy

  const DuplicateEmail := "A user with this email already exists."
  const RegistrationFailed := "Registration failed due to an unexpected server error."
  const InvalidEmailOrPassword := "Invalid email or password."
  const LoginFailed := "Login failed due to an unexpected server error."
  const LoggedOut := "Successfully logged out and session revoked."
  /** The 401 passport answers with when a token fails signature or expiry checks. */
  const GuardRejected := "Unauthorized"

  /** The catch block of the `register` route. */
  function RegisterResponse(served: Result<Registered, Exception>): (r: Result<Registered, Exception>)
    ensures served.Ok? ==> r == served
    ensures r.Ok? <==> served.Ok?
    ensures r.Err? ==> (r.error == Conflict(DuplicateEmail) <==> served.error.Conflict?)
    ensures r.Err? ==> r.error in {Conflict(DuplicateEmail), InternalServerError(RegistrationFailed)}
  {
    match served
    case Ok(_) => served
    case Err(Conflict(_)) => Err(Conflict(DuplicateEmail))
    case Err(_) => Err(InternalServerError(RegistrationFailed))
  }

  /** The catch block of the `login` route. */
  function LoginResponse(served: Result<Tokens, Exception>): (r: Result<Tokens, Exception>)
    ensures served.Ok? ==> r == served
    ensures r.Ok? <==> served.Ok?
    ensures r.Err? ==> (r.error == Unauthorized(InvalidEmailOrPassword) <==> served.error.Unauthorized?)
    ensures r.Err? ==> r.error in {Unauthorized(InvalidEmailOrPassword), InternalServerError(LoginFailed)}
  {
    match served
    case Ok(_) => served
    case Err(Unauthorized(_)) => Err(Unauthorized(InvalidEmailOrPassword))
    case Err(_) => Err(InternalServerError(LoginFailed))
  }

  /** What the `refresh` handler returns and leaves in the table for the identity
      the guard attached to the request. Its exceptions are not caught. */
  function RefreshOutcome(users: map<int, User>, secret: Option<string>, user: RtUser, now: nat): (e: Effect<Tokens>)
    ensures e.result.Err? ==> e.users == users
    ensures e.result.Ok? <==> SecretConfigured(secret) && user.id in users
    ensures !SecretConfigured(secret) ==> e.result == Err(SigningError(MissingSecret))
    ensures SecretConfigured(secret) && user.id !in users ==> e.result == Err(KnownRequestError(RecordNotFound))
    // the tokens of the guard-supplied identity, and the hash of exactly the new refresh token is stored
    ensures e.result.Ok? ==>
      && GetTokens(secret, user.id, user.role, now) == e.result
      && e.users == SetRtHash(users, user.id, Some(Hash(e.result.value.refreshToken)))
  {
    match GetTokens(secret, user.id, user.role, now)
    case Err(err) => Effect(Err(err), users)
    case Ok(tokens) =>
      if user.id !in users then Effect(Err(KnownRequestError(RecordNotFound)), users)
      else Effect(Ok(tokens), SetRtHash(users, user.id, Some(Hash(tokens.refreshToken))))
  }

  /** The whole `POST /auth/refresh` pipeline for a presented refresh token:
      signature and expiry (the guard), then `validate`, then the handler. */
  function RefreshRouteOutcome(users: map<int, User>, secret: Option<string>, refreshToken: string, now: nat): (e: Effect<Tokens>)
    ensures e.result.Err? ==> e.users == users
    ensures Verify(refreshToken, now).None? ==> e.result == Err(Unauthorized(GuardRejected))
    ensures e.result.Ok? ==>
      && Verify(refreshToken, now).Some?
      && Validate(users, refreshToken, Verify(refreshToken, now).value).Ok?
  {
    match Verify(refreshToken, now)
    case None => Effect(Err(Unauthorized(GuardRejected)), users)
    case Some(payload) =>
      match Validate(users, refreshToken, payload)
      case Err(err) => Effect(Err(err), users)
      case Ok(user) => RefreshOutcome(users, secret, user, now)
  }

  /** A string that is not the token signed over any claims fails the
      signature check: the guard answers 401 before `validate` runs, and
      nothing is written. */
  lemma RefreshRouteUnsigned(users: map<int, User>, secret: Option<string>, token: string, now: nat)
    requires forall c :: token != Sign(c)
    ensures RefreshRouteOutcome(users, secret, token, now) == Effect(Err(Unauthorized(GuardRejected)), users)
  {
  }

  /** What the `logout` handler returns and leaves in the table for the id of
      the (already verified) access token. */
  function LogoutOutcome(users: map<int, User>, id: int): (e: Effect<string>)
    ensures e.result.Ok? <==> id in users
    ensures e.result.Ok? ==> e.result.value == LoggedOut && e.users == SetRtHash(users, id, None)
    ensures e.result.Err? ==> e.result.error == KnownRequestError(RecordNotFound) && e.users == users
  {
    if id !in users then Effect(Err(KnownRequestError(RecordNotFound)), users)
    else Effect(Ok(LoggedOut), SetRtHash(users, id, None))
  }

  /** Logging out twice answers and leaves the table as logging out once. */
  lemma LogoutIdempotent(users: map<int, User>, id: int)
    ensures LogoutOutcome(LogoutOutcome(users, id).users, id) == LogoutOutcome(users, id)
  {
  }

  /** After logout, every refresh token of that user that passes the guard is
      refused as a revoked session, and the table is left as it is. */
  lemma LogoutRevokesSession(users: map<int, User>, secret: Option<string>, id: int, refreshToken: string, now: nat)
    requires id in users
    requires Verify(refreshToken, now).Some? && Verify(refreshToken, now).value.id == id
    ensures var after := LogoutOutcome(users, id).users;
      RefreshRouteOutcome(after, secret, refreshToken, now) == Effect(Err(Unauthorized(SessionRevoked)), after)
  {
    ValidateAfterClear(users, id, refreshToken, Verify(refreshToken, now).value);
  }

  /** The refresh route accepts a signed token exactly when it is unexpired,
      a secret is configured and the token's user holds its hash. */
  lemma RefreshRouteSigned(users: map<int, User>, secret: Option<string>, c: Claims, now: nat)
    requires Consistent(users)
    ensures RefreshRouteOutcome(users, secret, Sign(c), now).result.Ok? <==>
      && now < c.iat + Seconds(c.expiresIn)
      && SecretConfigured(secret)
      && c.payload.id in users
      && users[c.payload.id].refreshTokenHash == Some(Hash(Sign(c)))
  {
    VerifySigned(c, now);
  }

  /** A refresh with a live refresh token succeeds; afterwards the user's stored
      hash is that of the new refresh token, and that token is the only one
      `validate` accepts for them. */
  lemma RefreshRotates(users: map<int, User>, secret: Option<string>, c: Claims, now: nat)
    requires Consistent(users)
    requires SecretConfigured(secret)
    requires c.payload.id in users && users[c.payload.id].refreshTokenHash == Some(Hash(Sign(c)))
    requires now < c.iat + Seconds(c.expiresIn)
    ensures RefreshRouteOutcome(users, secret, Sign(c), now).result.Ok?
    ensures var e := RefreshRouteOutcome(users, secret, Sign(c), now);
      var id := c.payload.id;
      && id in e.users
      && e.users[id].refreshTokenHash == Some(Hash(e.result.value.refreshToken))
      && forall t: string, q: Payload | q.id == id :: Validate(e.users, t, q).Ok? <==> t == e.result.value.refreshToken
  {
    RefreshRouteSigned(users, secret, c, now);
    VerifySigned(c, now);
    var e := RefreshRouteOutcome(users, secret, Sign(c), now);
    var id := c.payload.id;
    forall t: string, q: Payload | q.id == id
      ensures Validate(e.users, t, q).Ok? <==> t == e.result.value.refreshToken
    {
      ValidateAfterUpdate(users, id, e.result.value.refreshToken, t, q);
    }
  }

  /** A refresh token that was rotated away at a later second than it was issued
      is refused from then on: replaying it fails. */
  lemma StaleRefreshTokenRejected(users: map<int, User>, secret: Option<string>, c: Claims, now: nat, later: nat)
    requires Consistent(users)
    requires SecretConfigured(secret)
    requires c.payload.id in users && users[c.payload.id].refreshTokenHash == Some(Hash(Sign(c)))
    requires now < c.iat + Seconds(c.expiresIn)
    requires c.iat != now
    ensures RefreshRouteOutcome(users, secret, Sign(c), now).result.Ok?
    ensures var after := RefreshRouteOutcome(users, secret, Sign(c), now).users;
      && RefreshRouteOutcome(after, secret, Sign(c), later).result.Err?
      && RefreshRouteOutcome(after, secret, Sign(c), later).users == after
    ensures Verify(Sign(c), later).Some? ==>
      RefreshRouteOutcome(RefreshRouteOutcome(users, secret, Sign(c), now).users, secret, Sign(c), later).result
        == Err(Unauthorized(InvalidRefreshToken))
  {
    RefreshRouteSigned(users, secret, c, now);
    var e := RefreshRouteOutcome(users, secret, Sign(c), now);
    VerifySigned(c, now);
    var id := c.payload.id;
    var rotated := Claims(Payload(id, users[id].role), SevenDays, now);
    DecodeSign(rotated);
    SignInjective(c, rotated);
    assert Decode(e.result.value.refreshToken) == Some(rotated);
    assert e.result.value.refreshToken != Sign(c);
    VerifySigned(c, later);
    if Verify(Sign(c), later).Some? {
      ValidateAfterUpdate(users, id, e.result.value.refreshToken, Sign(c), c.payload);
    }
  }

  /** Signing is deterministic in the payload, the lifetime and the whole second
      of issue: a refresh token rotated within the second it was issued is
      replaced by an identical token, so replaying it still succeeds. */
  lemma SameSecondReplayAccepted(users: map<int, User>, secret: Option<string>, c: Claims, now: nat)
    requires Consistent(users)
    requires SecretConfigured(secret)
    requires c.payload.id in users && users[c.payload.id].refreshTokenHash == Some(Hash(Sign(c)))
    requires users[c.payload.id].role == c.payload.role
    requires c.iat == now && c.expiresIn == SevenDays
    ensures RefreshRouteOutcome(users, secret, Sign(c), now).result.Ok?
    ensures RefreshRouteOutcome(users, secret, Sign(c), now).result.value.refreshToken == Sign(c)
    ensures RefreshRouteOutcome(RefreshRouteOutcome(users, secret, Sign(c), now).users, secret, Sign(c), now).result.Ok?
  {
    RefreshRouteSigned(users, secret, c, now);
    VerifySigned(c, now);
    assert c == Claims(Payload(c.payload.id, users[c.payload.id].role), SevenDays, now);
    ValidateAfterUpdate(users, c.payload.id, Sign(c), Sign(c), c.payload);
  }

  /** An unknown email and a wrong password are answered identically by the
      `login` route, and neither writes to the table. */
  lemma LoginFailuresIndistinguishable(users: map<int, User>, secret: Option<string>, unknown: LoginDto, wrong: LoginDto, now: nat)
    requires Consistent(users)
    requires !EmailTaken(users, unknown.email)
    requires EmailTaken(users, wrong.email) && !CredentialsMatch(users, wrong)
    ensures LoginResponse(LoginOutcome(users, secret, unknown, now).result)
         == LoginResponse(LoginOutcome(users, secret, wrong, now).result)
         == Err(Unauthorized(InvalidEmailOrPassword))
    ensures LoginOutcome(users, secret, unknown, now).users == users
    ensures LoginOutcome(users, secret, wrong, now).users == users
  {
  }

  /** A successful login starts a session: its refresh token passes the refresh
      route, and its access token presented as a refresh token does not. */
  lemma LoginStartsSession(users: map<int, User>, secret: Option<string>, dto: LoginDto, now: nat)
    requires Consistent(users)
    requires LoginOutcome(users, secret, dto, now).result.Ok?
    ensures var e := LoginOutcome(users, secret, dto, now);
      RefreshRouteOutcome(e.users, secret, e.result.value.refreshToken, now).result.Ok?
    ensures var e := LoginOutcome(users, secret, dto, now);
      RefreshRouteOutcome(e.users, secret, e.result.value.accessToken, now).result
        == Err(Unauthorized(InvalidRefreshToken))
  {
    var e := LoginOutcome(users, secret, dto, now);
    var id :| id in users && users[id].email == dto.email
      && GetTokens(secret, id, users[id].role, now) == e.result
      && e.users == SetRtHash(users, id, Some(Hash(e.result.value.refreshToken)));
    var tokens := e.result.value;
    var payload := Payload(id, users[id].role);
    VerifySigned(Claims(payload, SevenDays, now), now);
    VerifySigned(Claims(payload, ThreeHours, now), now);
    DecodeSign(Claims(payload, SevenDays, now));
    DecodeSign(Claims(payload, ThreeHours, now));
    SignInjective(Claims(payload, SevenDays, now), Decode(tokens.refreshToken).value);
    SignInjective(Claims(payload, ThreeHours, now), Decode(tokens.accessToken).value);
    assert Verify(tokens.refreshToken, now) == Some(payload);
    assert Verify(tokens.accessToken, now) == Some(payload);
    ValidateAfterUpdate(users, id, tokens.refreshToken, tokens.refreshToken, payload);
    ValidateAfterUpdate(users, id, tokens.refreshToken, tokens.accessToken, payload);
  }

  class AuthController {
    const auth: AuthService

    constructor (auth: AuthService)
      ensures this.auth == auth
    {
      this.auth := auth;
    }

    /** `POST /auth/register`. */
    method Register(dto: RegisterDto, now: nat) returns (r: Result<Registered, Exception>)
      requires auth.db.Valid()
      modifies auth.db
      ensures auth.db.Valid()
      ensures r == RegisterResponse(RegisterOutcome(old(auth.db.users), old(auth.db.nextId), auth.secret, dto, now).result)
      ensures auth.db.users == RegisterOutcome(old(auth.db.users), old(auth.db.nextId), auth.secret, dto, now).users
      ensures auth.db.nextId == if EmailTaken(old(auth.db.users), dto.email) then old(auth.db.nextId) else old(auth.db.nextId) + 1
    {
      var served := auth.Register(dto, now);
      r := RegisterResponse(served);
    }

    /** `POST /auth/login`. */
    method Login(dto: LoginDto, now: nat) returns (r: Result<Tokens, Exception>)
      requires auth.db.Valid()
      modifies auth.db
      ensures auth.db.Valid()
      ensures r == LoginResponse(LoginOutcome(old(auth.db.users), auth.secret, dto, now).result)
      ensures auth.db.users == LoginOutcome(old(auth.db.users), auth.secret, dto, now).users
      ensures auth.db.nextId == old(auth.db.nextId)
    {
      var served := auth.Login(dto, now);
      r := LoginResponse(served);
    }

    /** The `refresh` handler, given the `req.user` the guard attached. */
    method Refresh(user: RtUser, now: nat) returns (r: Result<Tokens, Exception>)
      requires auth.db.Valid()
      modifies auth.db
      ensures auth.db.Valid()
      ensures Effect(r, auth.db.users) == RefreshOutcome(old(auth.db.users), auth.secret, user, now)
      ensures auth.db.nextId == old(auth.db.nextId)
    {
      var tokens := GetTokens(auth.secret, user.id, user.role, now);
      if tokens.Err? {
        r := Err(tokens.error);
        return;
      }
      var stored := auth.UpdateRtHash(user.id, tokens.value.refreshToken);
      if stored.Err? {
        r := Err(stored.error);
        return;
      }
      r := Ok(tokens.value);
    }

    /** `POST /auth/refresh` with `refresh_token` in the body: the guard, the
        strategy's `validate`, then the handler. */
    method RefreshRoute(refreshToken: string, now: nat) returns (r: Result<Tokens, Exception>)
      requires auth.db.Valid()
      modifies auth.db
      ensures auth.db.Valid()
      ensures Effect(r, auth.db.users) == RefreshRouteOutcome(old(auth.db.users), auth.secret, refreshToken, now)
      ensures auth.db.nextId == old(auth.db.nextId)
    {
      var payload := Verify(refreshToken, now);
      if payload.None? {
        r := Err(Unauthorized(GuardRejected));
        return;
      }
      var user := Validate(auth.db.users, refreshToken, payload.value);
      if user.Err? {
        r := Err(user.error);
        return;
      }
      r := Refresh(user.value, now);
    }

    /** `POST /auth/logout` for the id of the verified access token. */
    method Logout(id: int) returns (r: Result<string, Exception>)
      requires auth.db.Valid()
      modifies auth.db
      ensures auth.db.Valid()
      ensures Effect(r, auth.db.users) == LogoutOutcome(old(auth.db.users), id)
      ensures auth.db.nextId == old(auth.db.nextId)
    {
      var cleared := auth.ClearRtHash(id);
      if cleared.Err? {
        r := Err(cleared.error);
        return;
      }
      r := Ok(LoggedOut);
    }
  }
}
