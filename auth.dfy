/** AuthService (backend/src/modules/auth/auth.service.ts): token issuance,
    storage of the refresh-token hash, registration and login. */
module Auth {
  import opened Wrappers
  import opened Domain
  import opened Crypto
  import opened Jwt
  import opened Store

  const UserRegistered := "User registered"
  const EmailInUse := "User with email already exists"
  const InvalidCredentials := "Invalid credentials"
  const LoginDependencyFailure := "Dependency failure during login."

  /** `{ access_token, refresh_token, role }`. */
  datatype Tokens = Tokens(accessToken: string, refreshToken: string, role: Role)

  /** The registration body. No validation pipe is installed, so the raw body
      is spread into the created row: besides the declared fields it may carry
      the `balance` and `createdAt` columns. `role` is overridden by the service. */
  datatype RegisterDto = RegisterDto(name: string, email: string, password: string, role: Option<Role>,
                                     balance: Option<int>, createdAt: Option<nat>)

  datatype LoginDto = LoginDto(email: string, password: string)

  /** `{ message, user }`: what `register` returns on success. */
  datatype Registered = Registered(message: string, user: User)

  /** `configService.get('JWT_SECRET')` yields something the signer accepts:
      the signer rejects an absent and an empty secret alike. */
  predicate SecretConfigured(secret: Option<string>) {
    secret.Some? && secret.value != ""
  }

  /** `getTokens(userId, role)`: an access token valid for three hours and a
      refresh token valid for seven days, both over `{ id, role }` and issued at
      second `now`. */
  function GetTokens(secret: Option<string>, userId: int, role: Role, now: nat): (r: Result<Tokens, Exception>)
    ensures r.Ok? <==> SecretConfigured(secret)
    ensures r.Err? ==> r.error == SigningError(MissingSecret)
    ensures r.Ok? ==>
      && r.value.role == role
      && Decode(r.value.accessToken) == Some(Claims(Payload(userId, role), ThreeHours, now))
      && Decode(r.value.refreshToken) == Some(Claims(Payload(userId, role), SevenDays, now))
      && r.value.accessToken != r.value.refreshToken
  {
    if !SecretConfigured(secret) then
      Err(SigningError(MissingSecret))
    else
      var access := Claims(Payload(userId, role), ThreeHours, now);
      var refresh := Claims(Payload(userId, role), SevenDays, now);
      DecodeSign(access);
      DecodeSign(refresh);
      Ok(Tokens(Sign(access), Sign(refresh), role))
  }

  /** The catch block of `register`: a unique-constraint violation becomes a
      ConflictException, anything else is re-thrown unchanged. */
  function RegisterCatch(e: Exception): Exception {
    if e == KnownRequestError(UniqueConstraintFailed) then Conflict(EmailInUse) else e
  }

  /** What `register` returns and leaves in the table, from table `users` whose
      id sequence stands at `nextId`. */
  function RegisterOutcome(users: map<int, User>, nextId: int, secret: Option<string>, dto: RegisterDto, now: nat): (e: Effect<Registered>)
    requires nextId !in users
    // a taken email is a conflict and writes nothing
    ensures e.result == Err(Conflict(EmailInUse)) <==> EmailTaken(users, dto.email)
    ensures EmailTaken(users, dto.email) ==> e.users == users
    // otherwise exactly one row is added, whatever happens after the insert
    ensures !EmailTaken(users, dto.email) ==>
      && e.users.Keys == users.Keys + {nextId}
      && (forall id | id in users :: e.users[id] == users[id])
      && e.users[nextId].id == nextId
      && e.users[nextId].name == dto.name
      && e.users[nextId].email == dto.email
      && e.users[nextId].password == Hash(dto.password)
      && e.users[nextId].role == CUSTOMER
      // the spread lets the body choose the balance and creation time
      && (dto.balance.None? ==> e.users[nextId].balance == 0)
      && (dto.balance.Some? ==> e.users[nextId].balance == dto.balance.value)
      && (dto.createdAt.None? ==> e.users[nextId].createdAt == now)
      && (dto.createdAt.Some? ==> e.users[nextId].createdAt == dto.createdAt.value)
    ensures e.result.Ok? <==> !EmailTaken(users, dto.email) && SecretConfigured(secret)
    // on success the new row holds the hash of the refresh token issued for (id, CUSTOMER) ...
    ensures e.result.Ok? ==>
      e.users[nextId].refreshTokenHash == Some(Hash(GetTokens(secret, nextId, CUSTOMER, now).value.refreshToken))
    // ... and the response carries the row as it was created, password hash included
    ensures e.result.Ok? ==>
      && e.result.value.message == UserRegistered
      && e.result.value.user == e.users[nextId].(refreshTokenHash := None)
    // a signing failure after the insert is re-thrown and leaves the row without a session
    ensures !EmailTaken(users, dto.email) && !SecretConfigured(secret) ==>
      && e.result == Err(SigningError(MissingSecret))
      && e.users[nextId].refreshTokenHash == None
  {
    if EmailTaken(users, dto.email) then
      Effect(Err(RegisterCatch(KnownRequestError(UniqueConstraintFailed))), users)
    else
      var row := Row(nextId, NewUser(dto.name, dto.email, Hash(dto.password), CUSTOMER, dto.balance, dto.createdAt), now);
      var created := users[nextId := row];
      match GetTokens(secret, nextId, CUSTOMER, now)
      case Err(err) => Effect(Err(RegisterCatch(err)), created)
      case Ok(tokens) =>
        Effect(Ok(Registered(UserRegistered, row)), SetRtHash(created, nextId, Some(Hash(tokens.refreshToken))))
  }

  /** Some row has this email and the password matches its hash. */
  predicate CredentialsMatch(users: map<int, User>, dto: LoginDto) {
    exists id | id in users :: users[id].email == dto.email && Compare(dto.password, users[id].password)
  }

  /** What `login` returns and leaves in the table. */
  function LoginOutcome(users: map<int, User>, secret: Option<string>, dto: LoginDto, now: nat): (e: Effect<Tokens>)
    requires Consistent(users)
    // a failed login issues nothing and writes nothing
    ensures e.result.Err? ==> e.users == users
    ensures e.result.Err? ==>
      e.result.error == Unauthorized(InvalidCredentials) || e.result.error == GenericError(LoginDependencyFailure)
    // an unknown email and a wrong password are the same error
    ensures e.result == Err(Unauthorized(InvalidCredentials)) <==> !CredentialsMatch(users, dto)
    ensures e.result.Ok? <==> CredentialsMatch(users, dto) && SecretConfigured(secret)
    // on success: the tokens of that user's id and stored role, and the hash of the new refresh token is stored
    ensures e.result.Ok? ==>
      exists id | id in users && users[id].email == dto.email ::
        && GetTokens(secret, id, users[id].role, now) == e.result
        && e.users == SetRtHash(users, id, Some(Hash(e.result.value.refreshToken)))
  {
    match FindByEmail(users, dto.email)
    case None => Effect(Err(Unauthorized(InvalidCredentials)), users)
    case Some(id) =>
      if !Compare(dto.password, users[id].password) then
        Effect(Err(Unauthorized(InvalidCredentials)), users)
      else
        match GetTokens(secret, users[id].id, users[id].role, now)
        case Err(_) => Effect(Err(GenericError(LoginDependencyFailure)), users)
        case Ok(tokens) => Effect(Ok(tokens), SetRtHash(users, users[id].id, Some(Hash(tokens.refreshToken))))
  }

  class AuthService {
    const db: Database
    /** The configured `JWT_SECRET`, if any. */
    const secret: Option<string>

    constructor (db: Database, secret: Option<string>)
      ensures this.db == db && this.secret == secret
    {
      this.db := db;
      this.secret := secret;
    }

    /** `updateRtHash(userId, rt)`: store the hash of `rt` as the user's refresh-token hash. */
    method UpdateRtHash(userId: int, rt: string) returns (r: Result<(), Exception>)
      requires db.Valid()
      modifies db
      ensures db.Valid() && db.nextId == old(db.nextId)
      ensures userId in old(db.users) ==> r.Ok? && db.users == SetRtHash(old(db.users), userId, Some(Hash(rt)))
      ensures userId !in old(db.users) ==> r == Err(KnownRequestError(RecordNotFound)) && db.users == old(db.users)
    {
      var hash := Hash(rt);
      var updated := db.UpdateRefreshTokenHash(userId, Some(hash));
      r := if updated.Ok? then Ok(()) else Err(updated.error);
    }

    /** `clearRtHash(userId)`: null the user's refresh-token hash, revoking the session. */
    method ClearRtHash(userId: int) returns (r: Result<(), Exception>)
      requires db.Valid()
      modifies db
      ensures db.Valid() && db.nextId == old(db.nextId)
      ensures userId in old(db.users) ==> r.Ok? && db.users == SetRtHash(old(db.users), userId, None)
      ensures userId !in old(db.users) ==> r == Err(KnownRequestError(RecordNotFound)) && db.users == old(db.users)
    {
      var updated := db.UpdateRefreshTokenHash(userId, None);
      r := if updated.Ok? then Ok(()) else Err(updated.error);
    }

    /** `register(dto)`. */
    method Register(dto: RegisterDto, now: nat) returns (r: Result<Registered, Exception>)
      requires db.Valid()
      modifies db
      ensures db.Valid()
      ensures Effect(r, db.users) == RegisterOutcome(old(db.users), old(db.nextId), secret, dto, now)
      ensures db.nextId == if EmailTaken(old(db.users), dto.email) then old(db.nextId) else old(db.nextId) + 1
    {
      var role := CUSTOMER;  // whatever dto.role says
      var hashed := Hash(dto.password);
      var created := db.Create(NewUser(dto.name, dto.email, hashed, role, dto.balance, dto.createdAt), now);
      if created.Err? {
        r := Err(RegisterCatch(created.error));
        return;
      }
      var user := created.value;
      var tokens := GetTokens(secret, user.id, role, now);
      if tokens.Err? {
        r := Err(RegisterCatch(tokens.error));
        return;
      }
      var stored := UpdateRtHash(user.id, tokens.value.refreshToken);
      assert stored.Ok?;
      r := Ok(Registered(UserRegistered, user));
    }

    /** `login(dto)`. */
    method Login(dto: LoginDto, now: nat) returns (r: Result<Tokens, Exception>)
      requires db.Valid()
      modifies db
      ensures db.Valid() && db.nextId == old(db.nextId)
      ensures Effect(r, db.users) == LoginOutcome(old(db.users), secret, dto, now)
    {
      var found := FindByEmail(db.users, dto.email);
      if found.None? || !Compare(dto.password, db.users[found.value].password) {
        r := Err(Unauthorized(InvalidCredentials));
        return;
      }
      var user := db.users[found.value];
      var tokens := GetTokens(secret, user.id, user.role, now);
      if tokens.Err? {
        r := Err(GenericError(LoginDependencyFailure));
        return;
      }
      var stored := UpdateRtHash(user.id, tokens.value.refreshToken);
      assert stored.Ok?;
      r := Ok(tokens.value);
    }
  }
}
