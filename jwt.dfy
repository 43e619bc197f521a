/** The JWT signer and verifier behind `jwtService.signAsync` and passport-jwt.
    Under the single configured secret a signed token is determined by its
    payload, its lifetime and the whole second at which it was issued; `Sign`
    is modelled as an injective textual encoding of exactly that, and `Decode`
    as its inverse. Strings outside the image of `Sign` do not decode, which
    stands for a failed signature check. */
module Jwt {
  import opened Wrappers
  import opened Domain
  import opened Text

  /** The two lifetimes the service signs with: "3h" and "7d". */
  datatype Expiry = ThreeHours | SevenDays

  function Seconds(e: Expiry): nat {
    match e
    case ThreeHours => 3 * 60 * 60
    case SevenDays => 7 * 24 * 60 * 60
  }

  /** The claims the service signs: `{ id, role }`. */
  datatype Payload = Payload(id: int, role: Role)

  /** Everything a signed token carries: the payload, its lifetime and `iat`. */
  datatype Claims = Claims(payload: Payload, expiresIn: Expiry, iat: nat)

  function ExpiryTag(e: Expiry): char {
    match e
    case ThreeHours => 'a'
    case SevenDays => 'r'
  }

  function ExpiryOfTag(c: char): Option<Expiry> {
    if c == 'a' then Some(ThreeHours) else if c == 'r' then Some(SevenDays) else None
  }

  function RoleTag(r: Role): char {
    match r
    case CUSTOMER => 'C'
    case ADMIN => 'A'
  }

  function RoleOfTag(c: char): Option<Role> {
    if c == 'C' then Some(CUSTOMER) else if c == 'A' then Some(ADMIN) else None
  }

  /** The token `signAsync` returns for these claims. */
  function Sign(c: Claims): string {
    [ExpiryTag(c.expiresIn), RoleTag(c.payload.role)] + NatText(c.iat) + "." + IntText(c.payload.id)
  }

  /** Reads the fields of a token laid out as `Sign` lays it out. The reader
      also accepts non-canonical spellings such as leading zeros, which `Decode`
      then refuses. */
  function Parse(token: string): Option<Claims> {
    if |token| < 2 then None
    else
      match (ExpiryOfTag(token[0]), RoleOfTag(token[1]), IndexOf(token[2..], '.'))
      case (Some(e), Some(role), Some(k)) =>
        (match (ParseNat(token[2..2 + k]), ParseInt(token[3 + k..]))
         case (Some(iat), Some(id)) => Some(Claims(Payload(id, role), e, iat))
         case _ => None)
      case _ => None
  }

  /** The claims of a token this service signed; `None` for any other string,
      since only a token signed with the secret passes the signature check. */
  function Decode(token: string): (r: Option<Claims>)
    ensures r.Some? ==> Sign(r.value) == token
  {
    match Parse(token)
    case Some(c) => if Sign(c) == token then Some(c) else None
    case None => None
  }

  /** The reader recovers exactly the claims that were signed. */
  lemma ParseSign(c: Claims)
    ensures Parse(Sign(c)) == Some(c)
  {
    var t := NatText(c.iat);
    var u := IntText(c.payload.id);
    var s := Sign(c);
    assert s[2..] == t + "." + u;
    IndexOfAfterDigits(t, u);
    assert s[2..2 + |t|] == t;
    assert s[3 + |t|..] == u;
    DigitsValueNatText(c.iat);
    ParseIntText(c.payload.id);
  }

  /** Verification recovers exactly the claims that were signed. */
  lemma DecodeSign(c: Claims)
    ensures Decode(Sign(c)) == Some(c)
  {
    ParseSign(c);
  }

  /** A token decodes to `c` exactly when it is the token signed over `c`:
      `Decode` and `Sign` are inverse to each other. */
  lemma DecodeExact(token: string, c: Claims)
    ensures Decode(token) == Some(c) <==> token == Sign(c)
  {
    if token == Sign(c) {
      DecodeSign(c);
    }
  }

  /** A string whose fields the reader accepts, but which is not spelled the
      way `Sign` spells those claims, does not decode. */
  lemma NonCanonicalRefused(token: string)
    requires Parse(token).Some? && Sign(Parse(token).value) != token
    ensures Decode(token) == None
  {
  }

  /** A leading zero in the issue time is not how `Sign` writes it, so the
      string is refused even though its fields read as valid claims. */
  lemma LeadingZeroRefused()
    ensures Parse("rC05.1") == Some(Claims(Payload(1, CUSTOMER), SevenDays, 5))
    ensures Decode("rC05.1") == None
  {
    var t := "rC05.1";
    assert t[2..] == "05" + "." + "1";
    IndexOfAfterDigits("05", "1");
    assert t[2..4] == "05";
    assert t[5..] == "1";
    assert DigitsValue("05") == 5 by {
      assert "05"[..1] == "0";
      assert "0"[..0] == [];
    }
    assert ParseInt("1") == Some(1) by {
      assert "1"[..0] == [];
    }
    var c := Claims(Payload(1, CUSTOMER), SevenDays, 5);
    assert Sign(c) == "rC5.1";
  }

  /** Two tokens are equal exactly when they were signed over equal claims. */
  lemma SignInjective(a: Claims, b: Claims)
    ensures Sign(a) == Sign(b) <==> a == b
  {
    DecodeSign(a);
    DecodeSign(b);
  }

  /** What passport-jwt hands to a strategy for a token presented at second
      `now`: the payload of a token signed with the secret that has not yet
      expired (it rejects once `now` reaches `iat` plus the lifetime). */
  function Verify(token: string, now: nat): Option<Payload> {
    match Decode(token)
    case None => None
    case Some(c) => if now < c.iat + Seconds(c.expiresIn) then Some(c.payload) else None
  }

  /** A signed token verifies, with its own payload, until it expires. */
  lemma VerifySigned(c: Claims, now: nat)
    ensures Verify(Sign(c), now) == if now < c.iat + Seconds(c.expiresIn) then Some(c.payload) else None
  {
    DecodeSign(c);
  }
}
