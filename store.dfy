/** The user table as the services see it through Prisma: rows keyed by an
    auto-incremented id, with a unique email column. */
module Store {
  import opened Wrappers
  import opened Domain

  /** One row of the user table (the columns the core reads or writes). */
  datatype User = User(
    id: int,
    name: string,
    email: string,
    password: string,                   // the password hash
    role: Role,
    balance: int,
    createdAt: nat,
    refreshTokenHash: Option<string>)   // null when no session is live

  /** The data `register` passes to `prisma.user.create`; `balance` and
      `createdAt` are given only when the request body carried them. */
  datatype NewUser = NewUser(name: string, email: string, password: string, role: Role,
                             balance: Option<int>, createdAt: Option<nat>)

  /** The row the database creates: a column the data leaves out takes its
      default (a zero balance, the creation time, no refresh-token hash). */
  function Row(id: int, data: NewUser, now: nat): (u: User)
    ensures u.id == id && u.name == data.name && u.email == data.email
    ensures u.password == data.password && u.role == data.role && u.refreshTokenHash == None
    ensures data.balance.None? ==> u.balance == 0
    ensures data.balance.Some? ==> u.balance == data.balance.value
    ensures data.createdAt.None? ==> u.createdAt == now
    ensures data.createdAt.Some? ==> u.createdAt == data.createdAt.value
  {
    var balance := match data.balance case Some(b) => b case None => 0;
    var createdAt := match data.createdAt case Some(t) => t case None => now;
    User(id, data.name, data.email, data.password, data.role, balance, createdAt, None)
  }

  /** What an operation returned together with the table it left behind. */
  datatype Effect<T> = Effect(result: Result<T, Exception>, users: map<int, User>)

  /** Every row is stored under its own id and no two rows share an email. */
  ghost predicate Consistent(users: map<int, User>) {
    && (forall id | id in users :: users[id].id == id)
    && (forall a, b | a in users && b in users && a != b :: users[a].email != users[b].email)
  }

  predicate EmailTaken(users: map<int, User>, email: string) {
    exists id | id in users :: users[id].email == email
  }

  /** `prisma.user.findUnique({ where: { email } })`: the id of the row with this email. */
  function FindByEmail(users: map<int, User>, email: string): (r: Option<int>)
    requires Consistent(users)
    ensures r.Some? ==> r.value in users && users[r.value].email == email
    ensures r.None? <==> !EmailTaken(users, email)
  {
    if EmailTaken(users, email) then
      Some(var id :| id in users && users[id].email == email; id)
    else
      None
  }

  /** The table after `refreshTokenHash` of row `id` is set to `hash`: that one
      column of that one row changes and nothing else does. */
  function SetRtHash(users: map<int, User>, id: int, hash: Option<string>): (r: map<int, User>)
    requires id in users
    ensures r.Keys == users.Keys
    ensures r[id].refreshTokenHash == hash
    ensures r[id].(refreshTokenHash := users[id].refreshTokenHash) == users[id]
    ensures forall k | k in users && k != id :: r[k] == users[k]
    ensures Consistent(users) ==> Consistent(r)
  {
    users[id := users[id].(refreshTokenHash := hash)]
  }

  /** Clearing a hash twice leaves the same table as clearing it once; so does
      storing the same hash twice. */
  lemma SetRtHashIdempotent(users: map<int, User>, id: int, hash: Option<string>)
    requires id in users
    ensures SetRtHash(SetRtHash(users, id, hash), id, hash) == SetRtHash(users, id, hash)
  {
  }

  /** The database: the user table and the next value of the id sequence. */
  class Database {
    var users: map<int, User>
    var nextId: int

    ghost predicate Valid()
      reads this
    {
      && Consistent(users)
      && nextId >= 1
      && forall id | id in users :: 1 <= id < nextId
    }

    constructor ()
      ensures Valid() && users == map[] && nextId == 1
    {
      users := map[];
      nextId := 1;
    }

    /** `prisma.user.create`: fails with P2002 when the email is already taken. */
    method Create(data: NewUser, now: nat) returns (r: Result<User, Exception>)
      requires Valid()
      modifies this
      ensures Valid()
      ensures EmailTaken(old(users), data.email) ==>
        && r == Err(KnownRequestError(UniqueConstraintFailed))
        && users == old(users) && nextId == old(nextId)
      ensures !EmailTaken(old(users), data.email) ==>
        && r == Ok(Row(old(nextId), data, now))
        && users == old(users)[old(nextId) := r.value]
        && nextId == old(nextId) + 1
    {
      if EmailTaken(users, data.email) {
        r := Err(KnownRequestError(UniqueConstraintFailed));
      } else {
        var row := Row(nextId, data, now);
        users := users[nextId := row];
        nextId := nextId + 1;
        r := Ok(row);
      }
    }

    /** `prisma.user.update({ where: { id }, data: { refreshTokenHash } })`:
        fails with P2025 when no row has this id. */
    method UpdateRefreshTokenHash(id: int, hash: Option<string>) returns (r: Result<User, Exception>)
      requires Valid()
      modifies this
      ensures Valid() && nextId == old(nextId)
      ensures id !in old(users) ==> r == Err(KnownRequestError(RecordNotFound)) && users == old(users)
      ensures id in old(users) ==> users == SetRtHash(old(users), id, hash) && r == Ok(users[id])
    {
      if id !in users {
        r := Err(KnownRequestError(RecordNotFound));
      } else {
        users := SetRtHash(users, id, hash);
        r := Ok(users[id]);
      }
    }
  }
}
