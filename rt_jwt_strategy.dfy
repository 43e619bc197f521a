/** RtJwtStrategy (backend/src/modules/auth/strategies/rt-jwt.strategy.ts):
    the check run on a refresh token after its signature and expiry verified. */
module RtJwtStrategy {
  import opened Wrappers
  import opened Domain
  import opened Crypto
  import opened Jwt
  import opened Store

  const SessionRevoked := "Session revoked or user not found"
  const InvalidRefreshToken := "Invalid refresh token."

  /** `req.user` for the refresh route: the stored id and role and the raw token. */
  datatype RtUser = RtUser(id: int, role: Role, refreshToken: string)

  /** JavaScript truthiness of the `refreshTokenHash` column: null and "" are both falsy. */
  predicate Live(hash: Option<string>) {
    hash.Some? && hash.value != ""
  }

  /** `validate(req, payload)`, where `refreshToken` is `req.body.refresh_token`.
      It only reads the table. */
  function Validate(users: map<int, User>, refreshToken: string, payload: Payload): (r: Result<RtUser, Exception>)
    ensures r == Err(Unauthorized(SessionRevoked)) <==>
      !(payload.id in users && Live(users[payload.id].refreshTokenHash))
    ensures r == Err(Unauthorized(InvalidRefreshToken)) <==>
      && payload.id in users && Live(users[payload.id].refreshTokenHash)
      && !Compare(refreshToken, users[payload.id].refreshTokenHash.value)
    ensures r.Ok? <==> payload.id in users && users[payload.id].refreshTokenHash == Some(Hash(refreshToken))
    // identity comes from the stored row, not from the token's payload
    ensures r.Ok? ==> r.value == RtUser(users[payload.id].id, users[payload.id].role, refreshToken)
  {
    if payload.id !in users || !Live(users[payload.id].refreshTokenHash) then
      Err(Unauthorized(SessionRevoked))
    else if !Compare(refreshToken, users[payload.id].refreshTokenHash.value) then
      Err(Unauthorized(InvalidRefreshToken))
    else
      Ok(RtUser(users[payload.id].id, users[payload.id].role, refreshToken))
  }

  /** After `clearRtHash(id)` every token of user `id` is refused as revoked. */
  lemma ValidateAfterClear(users: map<int, User>, id: int, refreshToken: string, payload: Payload)
    requires id in users && payload.id == id
    ensures Validate(SetRtHash(users, id, None), refreshToken, payload) == Err(Unauthorized(SessionRevoked))
  {
  }

  /** After `updateRtHash(id, rt)` user `id` is accepted with `rt` and with no other token. */
  lemma ValidateAfterUpdate(users: map<int, User>, id: int, rt: string, presented: string, payload: Payload)
    requires id in users && payload.id == id
    ensures Validate(SetRtHash(users, id, Some(Hash(rt))), presented, payload).Ok? <==> presented == rt
    ensures presented != rt ==>
      Validate(SetRtHash(users, id, Some(Hash(rt))), presented, payload) == Err(Unauthorized(InvalidRefreshToken))
  {
    CompareHash(presented, rt);
  }
}
