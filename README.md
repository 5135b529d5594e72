# The studio's accounts, chats and news feed, in Dafny

This project models the sequential core of the studio web application. Several parts sit around the same store:

- **The store.** It holds users, their configuration blobs and their conversations. Every conversation operation is scoped by (conversation id, owner id).
- **Configuration loading.** The stored configuration is merged over the defaults.
- **Tokens.** Access and refresh tokens (JSON Web Tokens, RFC 7519) are built and checked.
- **Request authentication.** A request is authenticated from its bearer header or its cookie.
- **The `/auth` routes.** Register, login, refresh and logout.
- **The chat routes.**
  - Title derivation.
  - The send sequence: validate, resolve or create the conversation, ask the model, then append the user's and the assistant's messages.
  - The markdown export.
  - Deletion.
  - The guest send.
- **The `/api/news` endpoint.**
  - A five-minute time-to-live cache.
  - The NewsAPI and RSS fetchers.
  - The provider fallback chain.

The modules follow the program's files:

| module | file | form |
|---|---|---|
| `Models` | `studio/services/models.py` | datatypes and default-filling constructors |
| `Crud` | `studio/services/crud.py` | class `Store` over three maps and two id counters; methods with `modifies` |
| `ConfigManager` | `studio/services/config_manager.py` | functions |
| `Security` | `studio/services/security.py` | functions over an abstract password scheme and token signer |
| `Dependency` | `studio/dependency.py` | functions returning `Result<User, HttpError>` |
| `AuthRoutes` | `studio/routes/auth_routes.py` | methods for the session-changing routes, a function for refresh |
| `ChatText`, `ChatRoutes` | `studio/routes/chat_routes.py` | pure text helpers; methods that sequence the store changes |
| `NewsRoutes` | `studio/routes/newsdata_routes.py` | class `NewsCache` over a map; the fetch loops as methods; pure chain as functions |

There are also three helper modules:

- `Wrappers`: `Option` and `Result`.
- `Text`: the Python `str` operations the code uses (`lower`, `strip`, `capitalize`, `str(int)`, `int(str)`, `split(" ", 1)`, `join`).
- `Web`: requests, the server-side session, redirects and HTTP errors.

### Abstract collaborators

The external collaborators are function values passed in as parameters:

- **bcrypt** is a `PasswordScheme(hash, verify)`. `SoundScheme` states that a password verifies against its own hash.
- **The JWT library** is a `Signer(encode, decode)`. `SoundSigner` states that a token is non-empty and that the signature binds the claims. It also states that a token decodes from `iat` up to, but not including, `exp`, and fails from then on.
- **The model handler** is a `Gateway` that gives a reply or raises.
- **feedparser** is an `RssReader`. **The NewsAPI HTTP call** is a `NewsApiClient`. Each gives the data, or `Failed` when it raises.

### Clocks and HTTP errors

- Clocks are parameters: whole seconds for the store and for tokens, and `real` seconds for the news cache.
- Every `HTTPException` is an `Err(HttpError(status, detail))`. So is an unhandled exception, which gives status 500.

### Where the model follows the code rather than the documented intent

- `get_current_user` has no anonymous case: a request without a token is refused with 401. Guests are served only by the routes that do not depend on it, such as the guest chat.
- Sending a message to a conversation the user does not own is a 500, not the 404 the code appears to raise (see Findings). The send route is modelled with the intended 404.
- When the model call fails after a new conversation has been created, the empty conversation stays stored.
- Registering an email twice is a 500 (the unique index raises; nothing catches it).

## Model

| member | source | states |
|---|---|---|
| Models.ToRead | studio/services/models.py:47-51 | the read view carries exactly the conversation's id, name and messages |
| Models.NewUser | studio/services/models.py:17-22 | a new user has the given id, email, hash and role, is active, and is created at the given time |
| Models.NewConversation | studio/services/models.py:36-45 | a new conversation has the given id, owner and name, the default prompt and temperature, no messages, and created and updated at the given time |
| Crud.Store.CreateUser | studio/services/crud.py:16-26 | a taken email is refused with no change; otherwise a fresh id, the password's hash (not the password), the given role, active, an empty config unless one already exists under that id, and nothing else changes |
| Crud.Store.AuthenticateUser | studio/services/crud.py:28-33 | Some exactly when a stored user has the email and the password verifies against its hash, and then it is that stored user |
| Crud.Store.CreateThenAuthenticate | studio/services/crud.py:16-33 | under a sound password scheme, a user created with an unused email is found again by authenticating with the same email and password, and a second creation with that email is refused |
| Crud.Store.GetUserById | studio/services/crud.py:35-37 | Some exactly when the id is stored, and then the stored user |
| Crud.Store.GetUserConfig | studio/services/crud.py:39-42 | the stored blob, or the empty map when there is none |
| Crud.Store.SetUserConfig | studio/services/crud.py:44-54 | the blob is replaced whole or created (last write wins), the new blob is returned, and the users and conversations are untouched |
| Crud.Store.CreateConversation | studio/services/crud.py:56-64 | a fresh id owned by the user, "New Conversation" for an empty name, default prompt and temperature, no messages; only that entry is added |
| Crud.SortIsSorted | studio/services/crud.py:66-68 | the ordering used for listing puts later `updatedAt` first |
| Crud.SortKeepsDistinct | studio/services/crud.py:66-68 | the ordering never duplicates a conversation |
| Crud.Store.GetConversationsByUser | studio/services/crud.py:66-68 | exactly the user's stored conversations, each once, sorted by `updatedAt` descending |
| Crud.Store.GetConversation | studio/services/crud.py:70-74 | Some exactly when id and owner both match; a foreign conversation is indistinguishable from a missing one |
| Crud.Store.UpdateConversationSettings | studio/services/crud.py:78-87 | on an owned conversation only prompt, temperature and `updatedAt` change; otherwise None and no change |
| Crud.Store.AppendMessage | studio/services/crud.py:89-100 | on an owned conversation the log becomes the old log plus {role, content} and `updatedAt` is refreshed, nothing else changes; otherwise None and no change |
| Crud.Store.UpdateConversation | studio/services/crud.py:102-108 | the conversation is written back with a new `updatedAt`; nothing else changes |
| Crud.Store.DeleteConversation | studio/services/crud.py:110-117 | true exactly when the conversation is owned; then only it is removed and later lookups of it find nothing; otherwise no change |
| ConfigManager.Merge | studio/services/config_manager.py:14 | the key set is the union; stored values override defaults and default-only keys keep their default |
| ConfigManager.LoadUserConfig | studio/services/config_manager.py:11-14 | the stored blob merged over the defaults, or the defaults alone when nothing is stored; it reads the store only |
| ConfigManager.SaveUserConfig | studio/services/config_manager.py:16-18 | returns the data it was given, and every later load yields that data merged over the defaults |
| ConfigManager.MergeIsShallow | studio/services/config_manager.py:14 | a stored nested object replaces the default's nested object whole, so a nested key only the default has is lost |
| ConfigManager.MergeIdempotent | studio/services/config_manager.py:14 | merging the same stored blob twice equals merging it once |
| Security.VerifyHashed | studio/services/security.py:13-19 | a password verifies against its own hash under a sound scheme |
| Security.HashPassword | studio/services/security.py:13-15 | under a sound scheme the stored hash verifies the password it was made from |
| Security.VerifyPassword | studio/services/security.py:17-19 | under a sound scheme a password is accepted against its own hash |
| Security.CreateToken | studio/services/security.py:21-30 | under a sound signer the token is non-empty, decodes at issuance to the payload `TokenClaims` describes when the lifetime is positive, and is refused once the lifetime has passed |
| Security.TokenClaims | studio/services/security.py:21-30 | `sub` reads back as the user id, `iat` is the issuance second, `exp - iat` is the lifetime, and role and type are as given |
| Security.AccessClaims | studio/services/security.py:32-34 | type "access", the role, and a lifetime of `minutes` minutes |
| Security.CreateAccessToken | studio/services/security.py:32-34 | under a sound signer the token decodes at issuance to its access claims and is refused `minutes` minutes later |
| Security.CreateRefreshToken | studio/services/security.py:36-38 | under a sound signer the token decodes at issuance to its refresh claims and is refused `days` days later |
| Security.DecodeToken | studio/services/security.py:40-42 | under a sound signer a token made from a payload decodes to that payload or to nothing, and to nothing once the payload's `exp` has passed |
| Security.RefreshClaims | studio/services/security.py:36-38 | type "refresh", the role, and a lifetime of `days` days |
| Security.AccessTokenLifetime | studio/services/security.py:40-42 | an access token decodes to its claims before `exp` and fails from `exp` on |
| Security.RefreshTokenLifetime | studio/services/security.py:40-42 | a refresh token decodes to its claims before `exp` and fails from `exp` on |
| Dependency.TokenFromRequest | studio/dependency.py:14-20 | with a "bearer " header (any case) the text after its first space, and the cookie is ignored; otherwise the `access_token` cookie |
| Dependency.AccessSubject | studio/dependency.py:31-37 | an id exactly when the token decodes with type "access" and an integer `sub`, and then that integer |
| Dependency.CheckToken | studio/dependency.py:22-42 | every failure is 401; "Not authenticated" exactly for a missing or empty token; "Invalid or expired token" exactly when no access subject is found; success exactly for an active stored subject, and then that stored user |
| Dependency.GetCurrentUser | studio/dependency.py:22-42 | a "bearer " header is judged by the text after the prefix whatever the cookies hold, otherwise the `access_token` cookie; every failure is 401; success exactly when the carried token is non-empty and names, as an access token, an active stored user, who is then the result |
| Dependency.BearerHeaderIgnoresCookies | studio/dependency.py:17-19 | with a bearer header, changing the cookies never changes the outcome |
| Dependency.RequireRoles | studio/dependency.py:44-50 | a failure passes through; a listed role returns the user unchanged; any other role is 403 "Forbidden" |
| Dependency.BearerHeaderYieldsToken | studio/dependency.py:17-19 | the header "Bearer " + t yields exactly t |
| Dependency.IssuedAccessTokenAuthenticates | studio/dependency.py:22-42 | a bearer access token issued for an active stored user authenticates that user for the token's lifetime |
| Dependency.RefreshTokenNotAccepted | studio/dependency.py:31-37 | a refresh token is rejected as "Invalid or expired token" at any time |
| Dependency.ExpiredAccessTokenRejected | studio/dependency.py:31-37 | an expired access token is rejected as "Invalid or expired token" |
| AuthRoutes.FormRole | studio/routes/auth_routes.py:46 | an absent or empty `role` field reads as "user", any other value as itself; the role is never empty |
| AuthRoutes.Register | studio/routes/auth_routes.py:41-51 | fails exactly for a duplicate email, and then with a 500 and no change; otherwise the user is created with role "user" when the field is absent or empty, and the answer is a 303 to /auth/login |
| AuthRoutes.LoginResponse | studio/routes/auth_routes.py:66-76 | a 303 to /chat that sets the 15-minute access token and the 7-day refresh token for the user's id and role |
| AuthRoutes.Login | studio/routes/auth_routes.py:54-76 | 400 "Invalid credentials" with the session untouched, or success exactly when a stored user's password verifies; then the session gets that user's id and role and the answer is `LoginResponse` |
| AuthRoutes.LoginSessionNamesUser | studio/routes/auth_routes.py:70-71 | the session a login writes names that user as logged in |
| AuthRoutes.LoginAsStoredUser | studio/routes/auth_routes.py:54-76 | logging in with a stored user's email and password succeeds as exactly that user, since emails are unique |
| AuthRoutes.RegisterThenLogin | studio/routes/auth_routes.py:41-76 | registering an unused email and then logging in with the same credentials succeeds with the new user's tokens and session; registering it again is a 500 |
| AuthRoutes.Refresh | studio/routes/auth_routes.py:79-93 | success exactly for a decodable refresh token with an integer `sub` and a role, giving a new 15-minute access token for that id and role, as body and as cookie; every failure is 401 "Invalid or expired refresh token" |
| AuthRoutes.Logout | studio/routes/auth_routes.py:96-102 | the session is emptied (no user is logged in) and both token cookies are deleted on the 303 to /chat |
| AuthRoutes.LoginCookieAuthenticates | studio/routes/auth_routes.py:66-75 | the access cookie a login sets authenticates that active user until it expires |
| AuthRoutes.RefreshOfIssuedToken | studio/routes/auth_routes.py:79-93 | a refresh token within its lifetime yields an access token for the same id and role |
| AuthRoutes.ExpiredRefreshRejected | studio/routes/auth_routes.py:82-89 | an expired refresh token is refused with 401 |
| AuthRoutes.AccessTokenNotRefreshable | studio/routes/auth_routes.py:83-89 | an access token is refused by refresh with 401 |
| Web.WebSession.SessionUser | studio/routes/chat_routes.py:248 | the integer the session holds under "user_id", if any |
| Web.WebSession.LoggedInUser | studio/routes/chat_routes.py:181-183 | the session's user id when it is a non-zero integer (`if not user_id`) |
| ChatText.Prefix | studio/routes/chat_routes.py:196 | `s[:n]`: the first n characters (all when shorter), a prefix of s |
| ChatText.DeriveTitle | studio/routes/chat_routes.py:189-199 | never empty; a non-blank stripped name is used; a long input (judged unstripped) gives its stripped first 30 characters plus "..."; a short input gives the stripped input, which is at most 30 characters and strip-stable; an input that strips to nothing gives "Chat " + the time |
| ChatText.EllipsisWhenPaddedPastLimit | studio/routes/chat_routes.py:196 | an input longer than 30 characters only because of surrounding whitespace keeps all its stripped text and still gets "..." |
| ChatText.EllipsisWithoutTruncation | studio/routes/chat_routes.py:196 | two concrete instances of the same quirk: "hello" padded to 31 characters gives "hello...", and 31 spaces give "..." |
| ChatText.Turn | studio/routes/chat_routes.py:213-214 | two messages, the user's input and then the assistant's reply |
| ChatText.ExportMarkdown | studio/routes/chat_routes.py:253-257 | no messages export to the empty text and one message to its single line; longer logs are described by `ExportAppend` and `ExportAfterTurn` |
| ChatText.ExportAppend | studio/routes/chat_routes.py:255-257 | appending a message adds a blank line and its line to the export, keeping everything before |
| ChatText.RenderRole | studio/routes/chat_routes.py:256 | a message line is `**Role**: content` with the role capitalized |
| ChatText.Render | studio/routes/chat_routes.py:256 | a message line opens with `**`, ends with the message's content, and is six characters longer than role and content together |
| ChatText.RenderAll | studio/routes/chat_routes.py:255-257 | one rendered line per message, in the log's order |
| ChatText.RenderTurnLines | studio/routes/chat_routes.py:256 | the turn's lines are `**User**: input` and `**Assistant**: reply` |
| ChatText.ExportAfterTurn | studio/routes/chat_routes.py:253-257 | after a turn the export is the previous export, a blank line, the user's line, a blank line and the assistant's line |
| ChatRoutes.AskModel | chat_client/generic_model_config.py:24-28 | a reply exactly when the registry holds a truthy configuration for the key and the call does not raise |
| ChatRoutes.ResolveExistingAsWritten | studio/routes/chat_routes.py:204-207 | as written, a missing or foreign conversation ends in 500 |
| ChatRoutes.ResolveExisting | studio/routes/chat_routes.py:204-207 | as intended, a missing or foreign conversation is 404 "Conversation not found" |
| ChatRoutes.NotFoundUnreachableAsWritten | studio/routes/chat_routes.py:204-207 | as written the 404 is never produced; both readings agree on owned conversations |
| ChatRoutes.AppendTurn | studio/routes/chat_routes.py:213-214 | the owned conversation's log gains exactly the user's and then the assistant's message; nothing else changes |
| ChatRoutes.SendInNewConversation | studio/routes/chat_routes.py:201-216 | a fresh conversation with the title is created; with a reply it holds exactly the turn and its id is returned; without a reply 500 and it stays empty |
| ChatRoutes.SendInExistingConversation | studio/routes/chat_routes.py:203-216 | a conversation the user does not own gets 404 and nothing changes; without a reply 500 and nothing changes; otherwise it gains exactly the turn |
| ChatRoutes.PostChatMessage | studio/routes/chat_routes.py:172-216 | 403 without login and 400 "Invalid model id" for an unknown model, both with no store change; then the new-conversation or existing-conversation outcome above |
| ChatRoutes.ExportSession | studio/routes/chat_routes.py:240-267 | 404 unless the session's user owns the conversation; then "md" gives the markdown of its messages and any other format 400 |
| ChatRoutes.DeleteConversationRoute | studio/routes/chat_routes.py:271-291 | 403 without login, 404 when not owned (no change in either); success exactly otherwise, removing only that conversation and redirecting to the default model |
| ChatRoutes.GuestChatSend | studio/routes/chat_routes.py:161-167 | the default model's reply with the input, or 500 when there is none; nothing is stored |
| NewsRoutes.NewsCache.constructor | studio/routes/newsdata_routes.py:33 | the cache starts empty |
| NewsRoutes.NewsCache.Lookup | studio/routes/newsdata_routes.py:40-48 | the stored payload exactly when the key is present and at most 300 seconds old |
| NewsRoutes.NewsCache.GetCache | studio/routes/newsdata_routes.py:40-48 | returns the lookup; a stale entry is removed and nothing else changes |
| NewsRoutes.NewsCache.SetCache | studio/routes/newsdata_routes.py:50-51 | only that key is overwritten with (now, payload), which is then a hit |
| NewsRoutes.CacheFreshness | studio/routes/newsdata_routes.py:45 | an entry exactly 300 seconds old still answers; any older one does not |
| NewsRoutes.GoogleNewsRss | studio/routes/newsdata_routes.py:113-116 | the feed URL built from the lower-cased region's parameters, the US ones for an unknown region |
| NewsRoutes.NewsApiCountry | studio/routes/newsdata_routes.py:122 | the lower-cased region when supported, else "us"; always a supported code |
| NewsRoutes.RegionCaseInsensitive | studio/routes/newsdata_routes.py:115 | lower-casing the region first changes neither the feed nor the country |
| NewsRoutes.UnknownRegionIsUs | studio/routes/newsdata_routes.py:115 | an unknown region gets the US feed and the US country |
| NewsRoutes.SliceEnd | studio/routes/newsdata_routes.py:109 | the length of `s[:limit]`: never more than the length, and the limit when it is not negative and smaller |
| NewsRoutes.OrDefault | studio/routes/newsdata_routes.py:133-135 | `value or default` on an optional string |
| NewsRoutes.NormalizeEntry | studio/routes/newsdata_routes.py:98-104 | a missing title becomes "Untitled", a missing link "", and a missing or empty date falls back to the update date |
| NewsRoutes.NormalizeArticle | studio/routes/newsdata_routes.py:132-137 | a missing, null or empty field gets its default, so the title is never empty |
| NewsRoutes.RssItems | studio/routes/newsdata_routes.py:106-111 | fails exactly when parsing fails; otherwise the first `limit` entries normalised, in order |
| NewsRoutes.NewsApiItems | studio/routes/newsdata_routes.py:118-138 | fails exactly when the request fails; otherwise the first `limit` articles (none when absent) normalised, in order |
| NewsRoutes.FetchRss | studio/routes/newsdata_routes.py:106-111 | the append loop yields `RssItems` |
| NewsRoutes.FetchNewsApi | studio/routes/newsdata_routes.py:118-138 | the append loop yields `NewsApiItems` |
| NewsRoutes.FetchersRespectLimit | studio/routes/newsdata_routes.py:109 | a fetcher returns at most `limit` items for a limit that is not negative |
| NewsRoutes.EmptyTitleDefaults | studio/routes/newsdata_routes.py:100 | RSS keeps an empty title while NewsAPI replaces it with "Untitled" |
| NewsRoutes.ErrorPayload | studio/routes/newsdata_routes.py:219-224 | no news, source "error", the region |
| NewsRoutes.Response | studio/routes/newsdata_routes.py:140-141 | the payload carries exactly the given news, source and region |
| NewsRoutes.CacheKey | studio/routes/newsdata_routes.py:161 | the key starts with the region and a colon and ends with a colon and the provider |
| NewsRoutes.CacheKeyDistinguishesQueries | studio/routes/newsdata_routes.py:161 | when neither region holds a colon, two queries share a cache key only if region, limit and provider are all equal |
| NewsRoutes.Explicit | studio/routes/newsdata_routes.py:169-190 | an explicit provider's items, or the error payload when it fails |
| NewsRoutes.AutoChain | studio/routes/newsdata_routes.py:192-217 | NewsAPI (with a key) when it succeeds, else Google News when it succeeds, else NYT, else the error payload |
| NewsRoutes.NewsFor | studio/routes/newsdata_routes.py:168-224 | the region is echoed, the source is one of the four, an error payload has no news, and at most `limit` items come back |
| NewsRoutes.ExplicitProviderNoFallback | studio/routes/newsdata_routes.py:169-190 | an explicit provider answers itself or the error payload, never another provider |
| NewsRoutes.AutoChainOrder | studio/routes/newsdata_routes.py:192-217 | in the chain a later source answers only when every earlier one was skipped or failed |
| NewsRoutes.DefaultQueryRunsAutoChain | studio/routes/newsdata_routes.py:146-149 | a request with every query parameter left out ("us", 6, "auto") passes validation and runs the auto chain |
| NewsRoutes.FetchNews | studio/routes/newsdata_routes.py:168-217 | the early-return sequence yields the payload `NewsFor` describes |
| NewsRoutes.LimitError | studio/routes/newsdata_routes.py:148 | 422 exactly when the limit is outside 1..20 |
| NewsRoutes.GetNews | studio/routes/newsdata_routes.py:146-224 | 422 for a bad limit with no cache change; a fresh entry under "region:limit:provider" is answered with no fetch and no change; otherwise the fetched payload (the error payload included) is stored under the key and returned |

## Left out

- Template rendering, the HTML pages, the frontend, project and settings routes, and the application's middleware are not part of this model.
- The LLM provider clients are not modelled. A model call is the abstract `Gateway`; only the registry check of the handler lookup is kept.
- bcrypt and the JWT library are abstract. Their behaviour is assumed only through `SoundScheme` and `SoundSigner`, as preconditions of the lemmas that need them. The secret key, regenerated per process, is part of the signer.
- Image extraction, HTML unescaping of RSS titles, feedparser and the HTTP requests are not modelled. The image is an opaque value, the title is taken as it is, and each fetch is a parameter.
- The export file written to /tmp and the `FileResponse` are not modelled. `ExportSession` yields the text that would be written.
- The PDF branch of the export does nothing and ends in 400, as modelled.
- `save_system_prompt` is not modelled. It passes a keyword that `update_conversation` does not accept, so it always raises.
- `/me/config` in the application module is not modelled. It indexes a `User` object as a dictionary.
- The in-memory `conversations_store` dictionaries are unused and not modelled.
- Single sign-on, RAG, documentation and markdown tools are not part of this model.
- Database engine and session lifecycle, transactions and concurrent requests are not modelled. The store is single-threaded, and each method is one committed step.
- Foreign keys are not enforced by SQLite and not modelled. A conversation or config may name a user id that does not exist.
- The model does not capture SQLite rowid reuse after deleting the highest id. Ids come from counters that only grow.
- Clocks are parameters. Timestamps in the store and in tokens are whole seconds. The news cache uses `real` seconds: `now` for the lookup and `fetchedAt` for the store.
- `temperature` is an exact `real`, never computed with.
- Cookie attributes (the domain, secure and http-only flags) are not modelled. Cookies are (name, value) or a deletion.
- The bodies of FastAPI's 422 validation errors are not modelled beyond the status and the message.
- AuthRoutes.Register: an `email` or `password` form field sent empty is treated by FastAPI's form parsing as missing, which is a 422 before the handler runs; the member takes the field as given. An empty `role` does take its default, as `FormRole` models.
- AuthRoutes.Login: an empty `email` or `password` field is a 422 before the handler runs; the member takes the field as given.
- AuthRoutes.Refresh: an empty `refresh_token` field is a 422 before the handler runs; the member takes the field as given.
- ChatRoutes.PostChatMessage: an empty `user_input` field is a 422 before the handler runs; the member takes the field as given.
- ChatRoutes.GuestChatSend: an empty `user_input` field is a 422 before the handler runs; the member takes the field as given.
- `NEWSAPI_KEY` is read from the environment at import; here it is a parameter, already stripped.
- Text.Lower: lower-cases ASCII letters only, where Python's `str.lower` is Unicode-wide. Region codes and the "bearer " prefix are ASCII.
- Text.Capitalize: upper-cases only an ASCII first letter and lower-cases only ASCII letters after it, where Python's `str.capitalize` is Unicode-wide (and title-cases some characters). The roles the chat stores are "user" and "assistant".
- Models.Json: numbers are integers only. A floating-point value in a configuration blob cannot be represented; the merge never looks at values, so nothing it promises depends on this.
- Text.ParseInt: accepts an optional sign, decimal digits with single underscores between them, and surrounding whitespace. Non-ASCII digits are not accepted, though Python's `int()` accepts them.
- Web.WebSession.SessionUser: the session's `user_id` is taken as an integer only. A string stored there by other code is treated as no user.
- Crud.Store.UpdateConversation: requires a conversation that is already stored. A new, unsaved object passed in would be inserted by `session.add`. The only caller is `save_system_prompt`, which is left out.

## Findings

| source | as written | input that shows it | evidently intended | confidence | as-written member | corrected member |
|---|---|---|---|---|---|---|
| studio/routes/chat_routes.py:204-207 | the retrieved conversation's messages are printed before `if not conv` is tested, so `None.messages` raises and the request fails with 500 | a logged-in user posts to an existing model with a `conversation_id` that does not exist or belongs to another user | 404 "Conversation not found", with nothing stored and no model call | high (not executed) | ChatRoutes.ResolveExistingAsWritten, ChatRoutes.NotFoundUnreachableAsWritten | ChatRoutes.ResolveExisting, used by ChatRoutes.SendInExistingConversation |
