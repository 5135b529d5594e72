/** Password hashing and JSON Web Tokens. bcrypt and the JWT library are
    abstract: a `PasswordScheme` is a pair hash/verify and a `Signer` an
    encode/decode pair for one secret key and one algorithm (HS256, section
    3.2 of RFC 7518). What the model relies on about them is stated as the
    predicates `SoundScheme` and `SoundSigner`. */
module Security {
  import opened Wrappers
  import Text

  const ACCESS_TOKEN_EXPIRE_MINUTES := 15
  const REFRESH_TOKEN_EXPIRE_DAYS := 7
  const SECONDS_PER_MINUTE := 60
  const SECONDS_PER_DAY := 86400

  // ---------- Passwords ----------

  datatype PasswordScheme = PasswordScheme(hash: string -> string, verify: (string, string) -> bool)

  /** bcrypt's promise: a password verifies against its own hash. */
  ghost predicate SoundScheme(s: PasswordScheme) {
    forall p :: s.verify(p, s.hash(p))
  }

  /** `get_password_hash`: what is stored in place of the password. */
  function HashPassword(s: PasswordScheme, password: string): (h: string)
    ensures SoundScheme(s) ==> s.verify(password, h)
  {
    s.hash(password)
  }

  /** `verify_password`: true for the password a stored hash was made from. */
  function VerifyPassword(s: PasswordScheme, password: string, hashed: string): (ok: bool)
    ensures SoundScheme(s) && hashed == s.hash(password) ==> ok
  {
    s.verify(password, hashed)
  }

  lemma VerifyHashed(s: PasswordScheme, password: string)
    requires SoundScheme(s)
    ensures VerifyPassword(s, password, HashPassword(s, password))
  {
  }

  // ---------- Tokens ----------

  /** The claims of a token: `sub` (section 4.1.2 of RFC 7519), `iat`
      (section 4.1.6), `exp` (section 4.1.4) and the private claims `role`
      and `typ`. A decoded payload may lack any of the optional ones. */
  datatype Claims = Claims(
    sub: Option<string>,
    iat: int,
    exp: int,
    role: Option<string>,
    typ: Option<string>)

  /** `decode(token, now)` yields the payload, or None for a bad signature,
      a malformed token or an expired one. */
  datatype Signer = Signer(encode: Claims -> string, decode: (string, int) -> Option<Claims>)

  /** The signer's promise: a token it made is never empty, decodes to its
      own claims when it decodes at all (the signature binds the payload),
      does decode from its issuance up to (not including) its expiry, and
      fails from then on. */
  ghost predicate SoundSigner(s: Signer) {
    && (forall c: Claims :: s.encode(c) != "")
    && (forall c: Claims, now: int :: s.decode(s.encode(c), now).Some? ==> s.decode(s.encode(c), now) == Some(c))
    && (forall c: Claims, now: int :: c.iat <= now < c.exp ==> s.decode(s.encode(c), now) == Some(c))
    && (forall c: Claims, now: int :: c.exp <= now ==> s.decode(s.encode(c), now) == None)
  }

  /** The payload `_create_token` builds at time `now` (whole seconds). */
  function TokenClaims(subject: int, lifetime: int, role: string, typ: string, now: int): (c: Claims)
    ensures c.sub.Some? && Text.ParseInt(c.sub.value) == Some(subject)
    ensures c.iat == now && c.exp - c.iat == lifetime
    ensures c.role == Some(role) && c.typ == Some(typ)
  {
    Text.ParseIntOfIntToString(subject);
    Claims(Some(Text.IntToString(subject)), now, now + lifetime, Some(role), Some(typ))
  }

  /** `_create_token`: the signed payload. It is never empty, decodes to
      its payload at issuance when the lifetime is positive, and no longer
      decodes once the lifetime has passed. */
  function CreateToken(s: Signer, subject: int, lifetime: int, role: string, typ: string, now: int): (t: string)
    ensures SoundSigner(s) ==> t != ""
    ensures SoundSigner(s) && lifetime > 0 ==> s.decode(t, now) == Some(TokenClaims(subject, lifetime, role, typ, now))
    ensures SoundSigner(s) && lifetime >= 0 ==> s.decode(t, now + lifetime) == None
  {
    s.encode(TokenClaims(subject, lifetime, role, typ, now))
  }

  function AccessClaims(userId: int, role: string, minutes: int, now: int): (c: Claims)
    ensures c.typ == Some("access") && c.role == Some(role)
    ensures c.iat == now && c.exp == now + minutes * SECONDS_PER_MINUTE
    ensures c.sub.Some? && Text.ParseInt(c.sub.value) == Some(userId)
  {
    TokenClaims(userId, minutes * SECONDS_PER_MINUTE, role, "access", now)
  }

  function RefreshClaims(userId: int, role: string, days: int, now: int): (c: Claims)
    ensures c.typ == Some("refresh") && c.role == Some(role)
    ensures c.iat == now && c.exp == now + days * SECONDS_PER_DAY
    ensures c.sub.Some? && Text.ParseInt(c.sub.value) == Some(userId)
  {
    TokenClaims(userId, days * SECONDS_PER_DAY, role, "refresh", now)
  }

  /** `create_access_token`: decodes to its access claims when issued and
      is expired `minutes` minutes later. */
  function CreateAccessToken(s: Signer, userId: int, role: string, minutes: int, now: int): (t: string)
    ensures SoundSigner(s) && minutes > 0 ==> s.decode(t, now) == Some(AccessClaims(userId, role, minutes, now))
    ensures SoundSigner(s) && minutes >= 0 ==> s.decode(t, now + minutes * SECONDS_PER_MINUTE) == None
  {
    CreateToken(s, userId, minutes * SECONDS_PER_MINUTE, role, "access", now)
  }

  /** `create_refresh_token`: decodes to its refresh claims when issued and
      is expired `days` days later. */
  function CreateRefreshToken(s: Signer, userId: int, role: string, days: int, now: int): (t: string)
    ensures SoundSigner(s) && days > 0 ==> s.decode(t, now) == Some(RefreshClaims(userId, role, days, now))
    ensures SoundSigner(s) && days >= 0 ==> s.decode(t, now + days * SECONDS_PER_DAY) == None
  {
    CreateToken(s, userId, days * SECONDS_PER_DAY, role, "refresh", now)
  }

  /** `decode_token`: a token the signer made from a payload decodes to
      that payload or to nothing, and to nothing once it has expired. */
  function DecodeToken(s: Signer, token: string, now: int): (r: Option<Claims>)
    ensures SoundSigner(s) ==> forall c: Claims :: token == s.encode(c) ==> (r.Some? ==> r == Some(c))
    ensures SoundSigner(s) ==> forall c: Claims :: token == s.encode(c) ==> (c.exp <= now ==> r == None)
  {
    s.decode(token, now)
  }

  /** An access token decodes to its claims during its lifetime and fails after it. */
  lemma AccessTokenLifetime(s: Signer, userId: int, role: string, minutes: int, now: int, at: int)
    requires SoundSigner(s)
    ensures now <= at < now + minutes * SECONDS_PER_MINUTE ==>
              DecodeToken(s, CreateAccessToken(s, userId, role, minutes, now), at) == Some(AccessClaims(userId, role, minutes, now))
    ensures now + minutes * SECONDS_PER_MINUTE <= at ==>
              DecodeToken(s, CreateAccessToken(s, userId, role, minutes, now), at) == None
  {
  }

  /** A refresh token decodes to its claims during its lifetime and fails after it. */
  lemma RefreshTokenLifetime(s: Signer, userId: int, role: string, days: int, now: int, at: int)
    requires SoundSigner(s)
    ensures now <= at < now + days * SECONDS_PER_DAY ==>
              DecodeToken(s, CreateRefreshToken(s, userId, role, days, now), at) == Some(RefreshClaims(userId, role, days, now))
    ensures now + days * SECONDS_PER_DAY <= at ==>
              DecodeToken(s, CreateRefreshToken(s, userId, role, days, now), at) == None
  {
  }
}
