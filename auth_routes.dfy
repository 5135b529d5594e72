/** The `/auth` routes: registration, login (server-side session plus two
    token cookies), access-token refresh and logout. */
module AuthRoutes {
  import opened Wrappers
  import opened Models
  import opened Web
  import Security
  import Text
  import Crud
  import Dependency

  const ACCESS_COOKIE := "access_token"
  const REFRESH_COOKIE := "refresh_token"
  const INTERNAL_ERROR := HttpError(500, "Internal Server Error")
  const INVALID_CREDENTIALS := HttpError(400, "Invalid credentials")
  const INVALID_REFRESH := HttpError(401, "Invalid or expired refresh token")

  /** The `role` form field as the form parsing reads it: a field that is
      absent or sent empty is treated as missing and takes the default. */
  function FormRole(role: Option<string>): (r: string)
    ensures r != ""
    ensures role.Some? && role.value != "" ==> r == role.value
    ensures r == DEFAULT_ROLE <==> role.None? || role.value in {"", DEFAULT_ROLE}
  {
    if role.None? || role.value == "" then DEFAULT_ROLE else role.value
  }

  /** `POST /auth/register`: creates the user (role "user" when the form
      leaves it out or sends it empty) and redirects to the login page with 303. The unique
      email index raises on a duplicate, which nothing catches: a 500. */
  method Register(store: Crud.Store, scheme: Security.PasswordScheme, email: string, password: string,
                  role: Option<string>, now: Timestamp)
    returns (r: Result<Redirect, HttpError>)
    requires store.Valid()
    modifies store
    ensures store.Valid()
    ensures old(store.EmailTaken(email)) <==> r.Err?
    ensures r.Err? ==> r == Err(INTERNAL_ERROR)
    ensures old(store.EmailTaken(email)) ==> unchanged(store)
    ensures r.Ok? ==> && r.value == Redirect("/auth/login", 303, [])
                      && var user := NewUser(old(store.nextUserId), email, Security.HashPassword(scheme, password),
                                             FormRole(role), now);
                         store.users == old(store.users)[user.id := user]
    ensures r.Ok? ==> && store.conversations == old(store.conversations)
                      && store.nextUserId == old(store.nextUserId) + 1
                      && store.nextConversationId == old(store.nextConversationId)
                      && (old(store.nextUserId) in old(store.configs) ==> store.configs == old(store.configs))
                      && (old(store.nextUserId) !in old(store.configs) ==>
                            store.configs == old(store.configs)[old(store.nextUserId) := UserConfig(old(store.nextUserId), map[])])
  {
    var created := store.CreateUser(scheme, email, password, FormRole(role), now);
    if created.Err? {
      return Err(INTERNAL_ERROR);
    }
    r := Ok(Redirect("/auth/login", 303, []));
  }

  /** The redirect a successful login answers with: to `/chat`, setting the
      access cookie (15 minutes) and the refresh cookie (7 days). */
  function LoginResponse(s: Security.Signer, user: User, now: int): (r: Redirect)
    ensures r.url == "/chat" && r.status == 303 && |r.cookies| == 2
    ensures r.cookies[0] == SetCookie(ACCESS_COOKIE, Security.CreateAccessToken(s, user.id, user.role, Security.ACCESS_TOKEN_EXPIRE_MINUTES, now))
    ensures r.cookies[1] == SetCookie(REFRESH_COOKIE, Security.CreateRefreshToken(s, user.id, user.role, Security.REFRESH_TOKEN_EXPIRE_DAYS, now))
  {
    var access := Security.CreateAccessToken(s, user.id, user.role, Security.ACCESS_TOKEN_EXPIRE_MINUTES, now);
    var refresh := Security.CreateRefreshToken(s, user.id, user.role, Security.REFRESH_TOKEN_EXPIRE_DAYS, now);
    Redirect("/chat", 303, [SetCookie(ACCESS_COOKIE, access), SetCookie(REFRESH_COOKIE, refresh)])
  }

  /** `POST /auth/login`: with credentials that verify, records the user's id
      and role in the session and answers with `LoginResponse`; otherwise
      400 "Invalid credentials" and the session is untouched. Whether the
      user is active is not looked at here. */
  method Login(store: Crud.Store, scheme: Security.PasswordScheme, s: Security.Signer, session: WebSession,
               email: string, password: string, now: int)
    returns (r: Result<Redirect, HttpError>)
    requires store.Valid()
    modifies session
    ensures (r == Err(INVALID_CREDENTIALS) && unchanged(session)) || r.Ok?
    ensures r.Ok? <==> exists id | id in store.users :: store.users[id].email == email
                                                      && Security.VerifyPassword(scheme, password, store.users[id].passwordHash)
    ensures r.Ok? ==> exists id | id in store.users ::
                        && store.users[id].email == email
                        && Security.VerifyPassword(scheme, password, store.users[id].passwordHash)
                        && r.value == LoginResponse(s, store.users[id], now)
                        && session.entries == old(session.entries)["user_id" := SInt(id)]["role" := SStr(store.users[id].role)]
  {
    var found := store.AuthenticateUser(scheme, email, password);
    if found.None? {
      return Err(INVALID_CREDENTIALS);
    }
    var user := found.value;
    session.entries := session.entries["user_id" := SInt(user.id)]["role" := SStr(user.role)];
    r := Ok(LoginResponse(s, user, now));
  }

  /** The body and cookie of a successful `POST /auth/refresh`. */
  datatype RefreshResponse = RefreshResponse(accessToken: string, tokenType: string, cookie: CookieOp)

  /** `POST /auth/refresh`: a refresh token that decodes, has `typ`
      "refresh", an integer `sub` and a `role` buys a new 15-minute access
      token for that id and role, returned and set as the access cookie.
      Every failure, the wrong `typ` included, is 401 "Invalid or expired
      refresh token", since the bare `except` replaces the inner error. */
  function Refresh(s: Security.Signer, refreshToken: string, now: int): (r: Result<RefreshResponse, HttpError>)
    ensures r.Err? ==> r == Err(INVALID_REFRESH)
    ensures r.Ok? <==> && Security.DecodeToken(s, refreshToken, now).Some?
                       && var c := Security.DecodeToken(s, refreshToken, now).value;
                          c.typ == Some("refresh") && c.sub.Some? && Text.ParseInt(c.sub.value).Some? && c.role.Some?
    ensures r.Ok? ==> && var c := Security.DecodeToken(s, refreshToken, now).value;
                       var access := Security.CreateAccessToken(s, Text.ParseInt(c.sub.value).value, c.role.value,
                                                                Security.ACCESS_TOKEN_EXPIRE_MINUTES, now);
                       r.value == RefreshResponse(access, "bearer", SetCookie(ACCESS_COOKIE, access))
  {
    match Security.DecodeToken(s, refreshToken, now)
    case None => Err(INVALID_REFRESH)
    case Some(c) =>
      if c.typ != Some("refresh") || c.sub.None? || c.role.None? then Err(INVALID_REFRESH)
      else
        match Text.ParseInt(c.sub.value)
        case None => Err(INVALID_REFRESH)
        case Some(userId) =>
          var access := Security.CreateAccessToken(s, userId, c.role.value, Security.ACCESS_TOKEN_EXPIRE_MINUTES, now);
          Ok(RefreshResponse(access, "bearer", SetCookie(ACCESS_COOKIE, access)))
  }

  /** `POST /auth/logout`: empties the session and deletes both token
      cookies on the way back to the guest chat. */
  method Logout(session: WebSession) returns (r: Redirect)
    modifies session
    ensures session.entries == map[]
    ensures session.LoggedInUser() == None
    ensures r == Redirect("/chat", 303, [DeleteCookie(ACCESS_COOKIE), DeleteCookie(REFRESH_COOKIE)])
  {
    session.entries := map[];
    r := Redirect("/chat", 303, [DeleteCookie(ACCESS_COOKIE), DeleteCookie(REFRESH_COOKIE)]);
  }

  // ---------- Properties across login, refresh and authentication ----------

  /** The access cookie a login sets authenticates an active user, on a
      request with no `Authorization` header, until it expires. */
  lemma LoginCookieAuthenticates(store: Crud.Store, s: Security.Signer, user: User, issuedAt: int, now: int)
    requires Security.SoundSigner(s)
    requires user.id in store.users && store.users[user.id] == user && user.isActive
    requires issuedAt <= now < issuedAt + Security.ACCESS_TOKEN_EXPIRE_MINUTES * Security.SECONDS_PER_MINUTE
    ensures var cookie := LoginResponse(s, user, issuedAt).cookies[0];
            Dependency.GetCurrentUser(Request(None, map[cookie.name := cookie.value]), store, s, now) == Ok(user)
  {
    var token := Security.CreateAccessToken(s, user.id, user.role, Security.ACCESS_TOKEN_EXPIRE_MINUTES, issuedAt);
    assert Dependency.TokenFromRequest(Request(None, map[ACCESS_COOKIE := token])) == Some(token);
    Security.AccessTokenLifetime(s, user.id, user.role, Security.ACCESS_TOKEN_EXPIRE_MINUTES, issuedAt, now);
    assert Dependency.AccessSubject(s, token, now) == Some(user.id);
  }

  /** The session a login leaves behind names that user as logged in. */
  lemma LoginSessionNamesUser(session: WebSession, before: map<string, SessionValue>, id: int, role: string)
    requires id != 0
    requires session.entries == before["user_id" := SInt(id)]["role" := SStr(role)]
    ensures session.LoggedInUser() == Some(id)
  {
    assert "user_id" != "role" by { assert |"user_id"| != |"role"|; }
  }

  /** Logging in with the email and password of a stored user logs in
      exactly that user: emails are unique, so no other user can match. */
  method LoginAsStoredUser(store: Crud.Store, scheme: Security.PasswordScheme, s: Security.Signer, session: WebSession,
                           id: int, password: string, now: int)
    returns (r: Result<Redirect, HttpError>)
    requires store.Valid() && Security.SoundScheme(scheme)
    requires id in store.users && store.users[id].passwordHash == Security.HashPassword(scheme, password)
    modifies session
    ensures r == Ok(LoginResponse(s, store.users[id], now))
    ensures session.LoggedInUser() == Some(id)
  {
    var user := store.users[id];
    Security.VerifyHashed(scheme, password);
    assert Security.VerifyPassword(scheme, password, store.users[id].passwordHash);
    ghost var before := session.entries;
    r := Login(store, scheme, s, session, user.email, password, now);
    ghost var other :| && other in store.users && store.users[other].email == user.email
                       && r.value == LoginResponse(s, store.users[other], now)
                       && session.entries == before["user_id" := SInt(other)]["role" := SStr(store.users[other].role)];
    assert other == id;
    LoginSessionNamesUser(session, before, id, store.users[id].role);
  }

  /** Registering with an email no one has and then logging in with the
      same email and password succeeds and logs in the new user, whose
      tokens the answer carries; registering that email again is a 500. */
  method RegisterThenLogin(store: Crud.Store, scheme: Security.PasswordScheme, s: Security.Signer, session: WebSession,
                           email: string, password: string, role: Option<string>, now: Timestamp)
    returns (registered: Result<Redirect, HttpError>, loggedIn: Result<Redirect, HttpError>,
             again: Result<Redirect, HttpError>)
    requires store.Valid() && Security.SoundScheme(scheme) && !store.EmailTaken(email)
    modifies store, session
    ensures store.Valid()
    ensures registered == Ok(Redirect("/auth/login", 303, []))
    ensures var user := NewUser(old(store.nextUserId), email, Security.HashPassword(scheme, password),
                                FormRole(role), now);
            loggedIn == Ok(LoginResponse(s, user, now))
    ensures session.LoggedInUser() == Some(old(store.nextUserId))
    ensures again == Err(INTERNAL_ERROR)
  {
    var id := store.nextUserId;
    registered := Register(store, scheme, email, password, role, now);
    var user := store.users[id];
    assert store.EmailTaken(email);
    loggedIn := LoginAsStoredUser(store, scheme, s, session, id, password, now);
    again := Register(store, scheme, email, password, role, now);
  }

  /** Refreshing an issued refresh token within its lifetime yields an access
      token for the same id and role, as if freshly issued now. */
  lemma RefreshOfIssuedToken(s: Security.Signer, userId: int, role: string, days: int, issuedAt: int, now: int)
    requires Security.SoundSigner(s)
    requires issuedAt <= now < issuedAt + days * Security.SECONDS_PER_DAY
    ensures var access := Security.CreateAccessToken(s, userId, role, Security.ACCESS_TOKEN_EXPIRE_MINUTES, now);
            Refresh(s, Security.CreateRefreshToken(s, userId, role, days, issuedAt), now)
              == Ok(RefreshResponse(access, "bearer", SetCookie(ACCESS_COOKIE, access)))
  {
    Security.RefreshTokenLifetime(s, userId, role, days, issuedAt, now);
  }

  /** An expired refresh token buys nothing. */
  lemma ExpiredRefreshRejected(s: Security.Signer, userId: int, role: string, days: int, issuedAt: int, now: int)
    requires Security.SoundSigner(s)
    requires issuedAt + days * Security.SECONDS_PER_DAY <= now
    ensures Refresh(s, Security.CreateRefreshToken(s, userId, role, days, issuedAt), now) == Err(INVALID_REFRESH)
  {
    Security.RefreshTokenLifetime(s, userId, role, days, issuedAt, now);
  }

  /** An access token is never accepted as a refresh token. */
  lemma AccessTokenNotRefreshable(s: Security.Signer, userId: int, role: string, minutes: int, issuedAt: int, now: int)
    requires Security.SoundSigner(s)
    ensures Refresh(s, Security.CreateAccessToken(s, userId, role, minutes, issuedAt), now) == Err(INVALID_REFRESH)
  {
    var c := Security.AccessClaims(userId, role, minutes, issuedAt);
    assert Security.CreateAccessToken(s, userId, role, minutes, issuedAt) == s.encode(c);
  }
}
