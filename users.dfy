/** UsersService.findOne (backend/src/modules/users/users.service.ts): the
    profile lookup, which selects only non-sensitive columns. */
module Users {
  import opened Wrappers
  import opened Domain
  import opened Text
  import opened Store

  /** The selected columns `id, name, email, role, balance, createdAt`; the type
      has no place for the password hash or the refresh-token hash. */
  datatype Profile = Profile(id: int, name: string, email: string, role: Role, balance: int, createdAt: nat)

  function NotFoundMessage(id: int): string {
    "User with ID " + IntText(id) + " not found."
  }

  /** `findOne(id)`. It only reads the table. */
  function FindOne(users: map<int, User>, id: int): (r: Result<Profile, Exception>)
    ensures r.Ok? <==> id in users
    ensures r.Err? ==> r.error == NotFound(NotFoundMessage(id))
    ensures r.Ok? ==>
      && r.value.id == users[id].id
      && r.value.name == users[id].name
      && r.value.email == users[id].email
      && r.value.role == users[id].role
      && r.value.balance == users[id].balance
      && r.value.createdAt == users[id].createdAt
  {
    if id !in users then
      Err(NotFound(NotFoundMessage(id)))
    else
      var u := users[id];
      Ok(Profile(u.id, u.name, u.email, u.role, u.balance, u.createdAt))
  }

  /** The profile reveals nothing of the secrets: changing any row's password
      hash or refresh-token hash leaves every lookup's answer unchanged. */
  lemma FindOneIgnoresSecrets(users: map<int, User>, k: int, password: string, rtHash: Option<string>, id: int)
    requires k in users
    ensures FindOne(users[k := users[k].(password := password, refreshTokenHash := rtHash)], id) == FindOne(users, id)
  {
  }

  /** The not-found message names the id that was asked for. */
  lemma NotFoundMessageNamesId(a: int, b: int)
    ensures NotFoundMessage(a) == NotFoundMessage(b) <==> a == b
  {
    var prefix := "User with ID ";
    var suffix := " not found.";
    if NotFoundMessage(a) == NotFoundMessage(b) {
      var ma := NotFoundMessage(a);
      var mb := NotFoundMessage(b);
      assert |IntText(a)| == |IntText(b)|;
      assert IntText(a) == ma[|prefix|..|ma| - |suffix|];
      assert IntText(b) == mb[|prefix|..|mb| - |suffix|];
      ParseIntText(a);
      ParseIntText(b);
    }
  }
}
