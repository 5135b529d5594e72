/** Request authentication: where the token is taken from, how it is
    checked, and role gating. Each raised `HTTPException` is an `Err`. */
module Dependency {
  import opened Wrappers
  import opened Models
  import opened Web
  import Text
  import Security
  import Crud

  const BEARER_PREFIX := "bearer "
  const ACCESS_COOKIE := "access_token"

  const NOT_AUTHENTICATED := HttpError(401, "Not authenticated")
  const INVALID_TOKEN := HttpError(401, "Invalid or expired token")
  const USER_NOT_FOUND := HttpError(401, "User not found or inactive")
  const FORBIDDEN := HttpError(403, "Forbidden")

  /** The header's value is a bearer credential ("Bearer", in any case). */
  predicate IsBearer(authorization: Option<string>) {
    authorization.Some? && Text.StartsWith(Text.Lower(authorization.value), BEARER_PREFIX)
  }

  /** `_get_token_from_request`: with a bearer `Authorization` header, the
      text after its first space and the cookie is not looked at; otherwise
      the `access_token` cookie, if any. */
  function TokenFromRequest(req: Request): (r: Option<string>)
    ensures IsBearer(req.authorization) ==> r == Some(req.authorization.value[|BEARER_PREFIX|..])
    ensures !IsBearer(req.authorization) ==> r == Get(req.cookies, ACCESS_COOKIE)
  {
    if req.authorization.Some? && req.authorization.value != ""
       && Text.StartsWith(Text.Lower(req.authorization.value), BEARER_PREFIX)
    then
      Text.AfterFirstSpaceOfPrefix(req.authorization.value, BEARER_PREFIX);
      Text.AfterFirstSpace(req.authorization.value)
    else Get(req.cookies, ACCESS_COOKIE)
  }

  /** The `try` block of `get_current_user`: the id an access token names.
      A failed decode, a `typ` other than "access" and a missing or
      non-integer `sub` all fail alike, since the bare `except` swallows the
      inner "Invalid token type" error. */
  function AccessSubject(s: Security.Signer, token: string, now: int): (r: Option<int>)
    ensures r.Some? <==> && Security.DecodeToken(s, token, now).Some?
                         && Security.DecodeToken(s, token, now).value.typ == Some("access")
                         && Security.DecodeToken(s, token, now).value.sub.Some?
                         && Text.ParseInt(Security.DecodeToken(s, token, now).value.sub.value).Some?
    ensures r.Some? ==> r == Text.ParseInt(Security.DecodeToken(s, token, now).value.sub.value)
  {
    match Security.DecodeToken(s, token, now)
    case None => None
    case Some(claims) =>
      if claims.typ != Some("access") || claims.sub.None? then None
      else Text.ParseInt(claims.sub.value)
  }

  /** `get_current_user` once the token has been taken from the request:
      401 "Not authenticated" without a token (an empty one included), 401
      "Invalid or expired token" when it does not name a user through an
      access token, 401 "User not found or inactive" when the named user is
      missing or inactive, and that user otherwise. */
  function CheckToken(token: Option<string>, store: Crud.Store, s: Security.Signer, now: int): (r: Result<User, HttpError>)
    reads store
    ensures r.Err? ==> r.error.status == 401
    ensures (token.None? || token == Some("")) <==> r == Err(NOT_AUTHENTICATED)
    ensures r == Err(INVALID_TOKEN) <==> token.Some? && token.value != "" && AccessSubject(s, token.value, now).None?
    ensures r.Ok? <==> && token.Some? && token.value != ""
                       && var subject := AccessSubject(s, token.value, now);
                          subject.Some? && subject.value in store.users && store.users[subject.value].isActive
    ensures r.Ok? ==> r.value.isActive && r == Ok(store.users[AccessSubject(s, token.value, now).value])
  {
    if token.None? || token.value == "" then Err(NOT_AUTHENTICATED)
    else
      match AccessSubject(s, token.value, now)
      case None => Err(INVALID_TOKEN)
      case Some(userId) =>
        match store.GetUserById(userId)
        case None => Err(USER_NOT_FOUND)
        case Some(user) => if !user.isActive then Err(USER_NOT_FOUND) else Ok(user)
  }

  /** `get_current_user`: a bearer header is judged by the text after
      "bearer " whatever the cookies hold, and otherwise the `access_token`
      cookie is; every failure is a 401, and the request is authenticated
      exactly when it carries a non-empty access token naming an active
      stored user, who is then the result. */
  function GetCurrentUser(req: Request, store: Crud.Store, s: Security.Signer, now: int): (r: Result<User, HttpError>)
    reads store
    ensures IsBearer(req.authorization) ==>
              r == CheckToken(Some(req.authorization.value[|BEARER_PREFIX|..]), store, s, now)
    ensures !IsBearer(req.authorization) ==> r == CheckToken(Get(req.cookies, ACCESS_COOKIE), store, s, now)
    ensures r.Err? ==> r.error.status == 401
    ensures r.Ok? <==> var token := TokenFromRequest(req);
                       && token.Some? && token.value != ""
                       && var subject := AccessSubject(s, token.value, now);
                          subject.Some? && subject.value in store.users && store.users[subject.value].isActive
    ensures r.Ok? ==> r.value.isActive && r == Ok(store.users[AccessSubject(s, TokenFromRequest(req).value, now).value])
  {
    CheckToken(TokenFromRequest(req), store, s, now)
  }

  /** `require_roles(*roles)`: a failure of `get_current_user` passes through;
      an authenticated user whose role is not listed gets 403; otherwise the
      user is returned unchanged. */
  function RequireRoles(roles: seq<string>, current: Result<User, HttpError>): (r: Result<User, HttpError>)
    ensures current.Err? ==> r == current
    ensures current.Ok? && current.value.role in roles ==> r == current
    ensures current.Ok? && current.value.role !in roles ==> r == Err(FORBIDDEN)
  {
    match current
    case Err(e) => Err(e)
    case Ok(user) => if user.role in roles then Ok(user) else Err(FORBIDDEN)
  }

  // ---------- Properties across the token service and the dependency ----------

  /** A bearer header `"Bearer " + token` yields exactly `token`. */
  lemma BearerHeaderYieldsToken(token: string, cookies: map<string, string>)
    ensures TokenFromRequest(Request(Some("Bearer " + token), cookies)) == Some(token)
  {
    var header := "Bearer " + token;
    assert Text.Lower(header)[..7] == BEARER_PREFIX;
    assert header[7..] == token;
  }

  /** With a bearer header the cookies play no part in the outcome. */
  lemma BearerHeaderIgnoresCookies(header: string, cookies: map<string, string>, other: map<string, string>,
                                   store: Crud.Store, s: Security.Signer, now: int)
    requires IsBearer(Some(header))
    ensures GetCurrentUser(Request(Some(header), cookies), store, s, now)
            == GetCurrentUser(Request(Some(header), other), store, s, now)
  {
  }

  /** A request carrying, as a bearer header, an access token issued for an
      active user is authenticated as that user for the token's lifetime. */
  lemma IssuedAccessTokenAuthenticates(store: Crud.Store, s: Security.Signer, user: User,
                                       minutes: int, issuedAt: int, now: int, cookies: map<string, string>)
    requires Security.SoundSigner(s)
    requires user.id in store.users && store.users[user.id] == user && user.isActive
    requires issuedAt <= now < issuedAt + minutes * Security.SECONDS_PER_MINUTE
    ensures GetCurrentUser(Request(Some("Bearer " + Security.CreateAccessToken(s, user.id, user.role, minutes, issuedAt)), cookies),
                           store, s, now) == Ok(user)
  {
    var token := Security.CreateAccessToken(s, user.id, user.role, minutes, issuedAt);
    BearerHeaderYieldsToken(token, cookies);
    Security.AccessTokenLifetime(s, user.id, user.role, minutes, issuedAt, now);
    assert AccessSubject(s, token, now) == Some(user.id);
  }

  /** A refresh token is never accepted where an access token is required,
      whenever and however it reaches the server. */
  lemma RefreshTokenNotAccepted(store: Crud.Store, s: Security.Signer, token: Option<string>, userId: int, role: string,
                                days: int, issuedAt: int, now: int)
    requires Security.SoundSigner(s)
    requires token == Some(Security.CreateRefreshToken(s, userId, role, days, issuedAt))
    ensures CheckToken(token, store, s, now) == Err(INVALID_TOKEN)
  {
    assert AccessSubject(s, token.value, now).None?;
  }

  /** An expired access token is rejected with "Invalid or expired token". */
  lemma ExpiredAccessTokenRejected(store: Crud.Store, s: Security.Signer, token: Option<string>, userId: int, role: string,
                                   minutes: int, issuedAt: int, now: int)
    requires Security.SoundSigner(s)
    requires token == Some(Security.CreateAccessToken(s, userId, role, minutes, issuedAt))
    requires issuedAt + minutes * Security.SECONDS_PER_MINUTE <= now
    ensures CheckToken(token, store, s, now) == Err(INVALID_TOKEN)
  {
    Security.AccessTokenLifetime(s, userId, role, minutes, issuedAt, now);
  }
}
