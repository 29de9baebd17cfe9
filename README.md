# Vagabond: authentication, sessions and the small rules around them

Vagabond is a real-estate web app: an Express + tRPC server over MongoDB and Redis, and a React
client. This project models its authentication and session lifecycle in Dafny and proves
properties of the model. It also models the pure rules around that lifecycle: the user Zod
schemas, the featured-list toggle, the search filter, the client route guard, the client store
and the file-selection step of the image uploader.

## The session lifecycle

A request is identified in `deserializeUser` (`DeserializeUser.DeserializeUser`):

1. The access token comes from an `Authorization: Bearer …` header, or else from the
   `access_token` cookie.
2. The token is verified under the access public key.
3. The session for its `sub` is read from Redis.
4. The user is loaded afresh from Mongo by the `_id` stored in that session.

Every early exit gives an anonymous context. Two exits are errors instead:

- a session value that is not JSON gives BAD_REQUEST;
- a store or database that does not answer gives INTERNAL_SERVER_ERROR.

`signToken` mints both tokens and puts the session under the user's id for 3600 s. The auth
handlers are methods of the class `AuthController.AuthHandlers`, which holds:

- the cookie jar of the response;
- the session store (`RedisStore.Store`);
- the user collection (`UserModel.Users`).

What the handlers do:

- Login writes three cookies.
- Refresh writes `access_token` and `logged_in`, nothing else.
- Logout deletes the session and clears the three cookies.

`Server.Call` puts the six gated procedures behind `isAuthorized`.

Scenario lemmas follow the browser across requests with `AuthController.Receive`, which keeps a
cookie or drops it by its expiry:

- login, then an authenticated request;
- login, then refresh;
- logout, then an anonymous request, and a refresh that fails.

### Abstractions

- **JWT signing and verification.** `utils/jws` is not part of this model. Signing and
  verification are the two function fields of a `Jws.Codec`. The server relies on three facts
  about them, collected in `Jws.Sound` and required wherever they matter:
  - a signed token is non-empty;
  - at issue time it verifies to its subject under its own kind's key;
  - it never verifies under the other kind's key.

  `Jws.SoundCodecExists` shows that these facts can hold together.
- **bcrypt.** `compare` and `hash` are function parameters.
- **Time.** `Date.now()` is the parameter `now`, in milliseconds. An entry's Redis TTL is its
  expiry instant.
- **Redis.**
  - A store that is not reachable models connection failure.
  - A value is either the JSON of a user document or other text.
  - `redisClient.set` in `signToken` is not awaited. Its effect is taken to have happened, iff the
    store answers, when `signToken` returns. Its failure never reaches the caller.
- **Mongo.** The collection is a sequence of documents in natural order. `findOne` returns the
  first match. The unique indexes on `email` and `phonenumber` become `DuplicateKey` (code 11000).
- **Zod's email regex.** It is the parameter `isEmail`. It is applied to the untrimmed string,
  because `.email()` comes before `.trim()` in the chain.

## Behaviour worth noting

The model follows the code in each of these cases:

- **Logout without a user.** Logout does not always succeed. The code calls
  `redisClient.del(user?._id.toString())`, which with no user is `del(undefined)`. The Redis
  client rejects that argument, so an anonymous logout ends in INTERNAL_SERVER_ERROR with no
  cookie cleared (`AuthController.AuthHandlers.Logout`).
- **Toggling twice.** Toggling a featured id twice restores the list only when the id was absent,
  or was already the last element. A present id is spliced out and then pushed back at the end
  (`UserService.ToggleTwicePresent`, `UserService.ToggleTwiceRestoresIffLast`,
  `UserService.ToggleTwiceReorders`). The contents are restored
  as a multiset in every case.
- **Inner errors are swallowed.** The handlers throw BAD_REQUEST and FORBIDDEN inside their `try`
  blocks, but their own `catch` replaces each with the handler's INTERNAL_SERVER_ERROR, and the
  model states only that outer error.
- **Where '+' may appear.** The phone regex accepts '+' at any position, although its message says
  "at the beginning" (`UserSchema.PlusAnywhere`).
- **The route guard's roles.** The routes pass `Roles.USER || Roles.ADMIN`, which is `"user"`. An
  administrator with the cookie set is therefore redirected to /unauthorized
  (`UserRequire.AdminIsUnauthorized`).

## Model

| member | source | states |
|---|---|---|
| `Text.Contains` | app/client/src/components/UserRequire.tsx:39 | `includes` is true iff the substring occurs at some index |
| `Text.Split` | app/server/src/middleware/deserializeUser.ts:18 | `split(" ")` yields at least one part and no part holds the separator |
| `Text.JoinSplit` | app/server/src/middleware/deserializeUser.ts:18 | joining the parts of `split(d)` with `d` gives the string back |
| `Text.SplitTwoParts` | app/server/src/middleware/deserializeUser.ts:18 | `a + d + b` with no `d` in `a` or `b` splits into exactly `[a, b]` |
| `Text.SplitNone` | app/server/src/middleware/deserializeUser.ts:18 | a string without the separator splits into itself alone |
| `Text.Slice` | app/server/src/schemas/user.schema.ts:24-27 | `slice(start, end)` is the characters from `start` up to `end` clamped to the length; an end before the start, or a start past the end of the string, gives "" |
| `Text.TrimStart` | app/server/src/schemas/user.schema.ts:9 | the result is a suffix that does not start with white space, and everything cut off is white space |
| `Text.TrimEnd` | app/server/src/schemas/user.schema.ts:9 | the result is a prefix that does not end with white space, and everything cut off is white space |
| `Text.TrimIdempotent` | app/server/src/schemas/user.schema.ts:9-11 | trimming a trimmed string changes nothing |
| `Text.ToLower` | app/server/src/schemas/user.schema.ts:7 | same length; each character lower-cased on its own |
| `Jws.SoundCodecExists` | app/server/src/services/user.service.ts:62-68 | the key-separation assumptions are satisfiable together |
| `UserModel.NewDocument` | app/server/src/model/user.model.ts:38-51 | a new document gets role "user", empty featured list, the given id, email, phone and hashed password |
| `UserModel.Users.Create` | app/server/src/model/user.model.ts:26-42 | an invalid document is a validation error (connection or not); a valid one fails without a connection, then on a duplicate email or phone (each iff); on success the document is appended and nothing else changes |
| `RedisStore.Get` | app/server/src/middleware/deserializeUser.ts:44 | `GET` fails iff the store does not answer; it returns the stored value iff the key is present and not expired |
| `RedisStore.Falsy` | app/server/src/middleware/deserializeUser.ts:46 | no contract; characterized by `DeserializeUser.NoSessionIsAnonymous` and `AuthController.RefreshFailsWhen` |
| `RedisStore.Store.Set` | app/server/src/services/user.service.ts:70-72 | an unawaited `SET … EX`: overwrites the key with the expiry `now + ttl·1000` when the store answers, else changes nothing |
| `RedisStore.Store.Del` | app/server/src/controllers/auth.controller.ts:166 | `DEL` of an undefined key is refused, an unreachable store fails, otherwise exactly that key is removed |
| `UserService.WithoutPassword` | app/server/src/services/user.service.ts:9-13 | the document without its password, every other field unchanged |
| `UserService.IndexWhere` | app/server/src/services/user.service.ts:42 | `findOne`: the index of the first matching document, or none iff none matches |
| `UserService.FindUserById` | app/server/src/services/user.service.ts:16-18 | the first document with that `_id`, without its password; none iff no document has it |
| `UserService.FindUserByEmail` | app/server/src/services/user.service.ts:24-29 | the first document with that email, password included; none iff no document has it |
| `UserService.CreateUser` | app/server/src/services/user.service.ts:11-14 | returns the stored document with the password removed; succeeds iff reachable, valid and not a duplicate |
| `UserService.IndexOf` | app/server/src/services/user.service.ts:45 | `indexOf`: the first index holding the id, or -1 iff absent |
| `UserService.Toggle` | app/server/src/services/user.service.ts:45-51 | no contract; characterized by `UserService.ToggleAbsent`, `UserService.TogglePresent` and the toggle-twice lemmas |
| `UserService.ToggleAbsent` | app/server/src/services/user.service.ts:47-48 | an absent id is appended and nothing else changes |
| `UserService.TogglePresent` | app/server/src/services/user.service.ts:49-51 | a present id loses its first occurrence only: length minus one, multiset minus one copy |
| `UserService.ToggleTwiceAbsent` | app/server/src/services/user.service.ts:45-51 | from a list without the id two toggles restore the list |
| `UserService.ToggleTwicePresent` | app/server/src/services/user.service.ts:45-51 | from a duplicate-free list holding the id two toggles move it to the end, restoring the contents as a multiset |
| `UserService.ToggleTwiceRestoresIffLast` | app/server/src/services/user.service.ts:45-51 | from a duplicate-free list holding the id two toggles restore the list iff the id is last |
| `UserService.ToggleTwiceReorders` | app/server/src/services/user.service.ts:45-51 | `["a","b","c"]` toggled twice on "b" is `["a","c","b"]` |
| `UserService.AddToFeatured` | app/server/src/services/user.service.ts:39-57 | null and no change iff no user has the email; otherwise exactly the first such user's featured list is toggled and saved |
| `UserService.IssuedTokensCarrySubject` | app/server/src/services/user.service.ts:60-68 | both tokens are non-empty and carry `sub` = the user's id under their own key, and fail under the other kind's key |
| `UserService.OneSessionPerUser` | app/server/src/services/user.service.ts:70-72 | a second session put for the same user leaves one entry, the later one, and no other key changed |
| `UserService.SignToken` | app/server/src/services/user.service.ts:59-75 | returns the two issued tokens and puts the user's session under its id for 3600 s when the store answers |
| `UserService.SignTokenTwice` | app/server/src/services/user.service.ts:70-72 | two `signToken` calls for one user leave a single session, the later one, with every other session unchanged; nothing changes when the store does not answer |
| `DeserializeUser.DeserializeUser` | app/server/src/middleware/deserializeUser.ts:7-82 | req and res pass through; the only errors are BAD_REQUEST "Invalid JSON data" and INTERNAL_SERVER_ERROR; a user implies a verified token, a live session and a stored record without password whose id is its `_id` |
| `DeserializeUser.AccessToken` | app/server/src/middleware/deserializeUser.ts:14-21 | no contract; characterized by `DeserializeUser.BearerHeaderWins`, `DeserializeUser.BearerToken` and `DeserializeUser.CookieFallback` |
| `DeserializeUser.VerifiedSubject` | app/server/src/middleware/deserializeUser.ts:23-42 | no contract; characterized by `DeserializeUser.NoTokenIsAnonymous`, `DeserializeUser.UnverifiedIsAnonymous` and `DeserializeUser.RefreshTokenIsNotAccess` |
| `DeserializeUser.BearerHeaderWins` | app/server/src/middleware/deserializeUser.ts:14-18 | with a Bearer header the token is the second space-separated part and the cookies play no part |
| `DeserializeUser.BearerToken` | app/server/src/middleware/deserializeUser.ts:18 | `Bearer <token>` yields exactly the token |
| `DeserializeUser.CookieFallback` | app/server/src/middleware/deserializeUser.ts:19-21 | without a Bearer header the token is the non-empty `access_token` cookie |
| `DeserializeUser.NoTokenIsAnonymous` | app/server/src/middleware/deserializeUser.ts:23-29 | no token gives an anonymous context whatever the stores hold |
| `DeserializeUser.UnverifiedIsAnonymous` | app/server/src/middleware/deserializeUser.ts:31-42 | a token that fails access verification gives an anonymous context, not an error |
| `DeserializeUser.RefreshTokenIsNotAccess` | app/server/src/middleware/deserializeUser.ts:31-34 | a refresh token in the access cookie is anonymous |
| `DeserializeUser.NoSessionIsAnonymous` | app/server/src/middleware/deserializeUser.ts:44-52 | an absent, expired or empty session gives an anonymous context |
| `DeserializeUser.UserIsLoadedFresh` | app/server/src/middleware/deserializeUser.ts:54-68 | the user is the stored record found by the snapshot's `_id`, with `id = _id`; anonymous iff no record has that id |
| `DeserializeUser.SnapshotContentIgnored` | app/server/src/middleware/deserializeUser.ts:54 | two snapshots naming the same `_id` give the same context |
| `DeserializeUser.ErrorsAreDistinct` | app/server/src/middleware/deserializeUser.ts:69-80 | a non-JSON session is BAD_REQUEST, an unreachable store or database is INTERNAL_SERVER_ERROR |
| `UserSchema.RemoveDashesConcat` | app/server/src/schemas/user.schema.ts:22-28 | removing dashes distributes over concatenation |
| `UserSchema.RemoveDashesNone` | app/server/src/schemas/user.schema.ts:22-28 | a string without dashes is unchanged |
| `UserSchema.RemoveDashesDash` | app/server/src/schemas/user.schema.ts:22-28 | removing dashes from `x-y` removes the joining dash and those of both sides |
| `UserSchema.FormatPhoneParts` | app/server/src/schemas/user.schema.ts:22-28 | on 13 characters each `slice` of the transform is the plain subsequence |
| `UserSchema.FormatPhoneShape` | app/server/src/schemas/user.schema.ts:22-28 | on 13 characters the transform has 17, with dashes at 3, 7, 11 and 14 |
| `UserSchema.PhoneAcceptedIff` | app/server/src/schemas/user.schema.ts:17-21 | a phone number has no issue iff it has 13 characters, each a digit or '+' |
| `UserSchema.PlusAnywhere` | app/server/src/schemas/user.schema.ts:19-21 | '+' is accepted at the end and in the middle |
| `UserSchema.PhoneRoundTrip` | app/server/src/schemas/user.schema.ts:22-28 | the transform gives 17 characters with dashes at 3, 7, 11, 14, and removing them gives the input back |
| `UserSchema.FormatPhone` | app/server/src/schemas/user.schema.ts:22-28 | no contract; characterized by `UserSchema.FormatPhoneParts`, `UserSchema.FormatPhoneShape` and `UserSchema.PhoneRoundTrip` |
| `UserSchema.PhoneIssues` | app/server/src/schemas/user.schema.ts:17-21 | no contract; characterized by `UserSchema.PhoneAcceptedIff` and `UserSchema.PlusAnywhere` |
| `UserSchema.CreateUserIssues` | app/server/src/schemas/user.schema.ts:3-37 | no contract; characterized by `UserSchema.CreateUserAcceptedIff`, `UserSchema.CreateUserMismatch` and `UserSchema.CreateUserInfoTooLong` |
| `UserSchema.ParseCreateUser` | app/server/src/schemas/user.schema.ts:3-37 | no contract; characterized by `UserSchema.CreateUserAcceptedIff` |
| `UserSchema.ParseLoginUser` | app/server/src/schemas/user.schema.ts:39-47 | no contract; characterized by `UserSchema.LoginAcceptedIff` |
| `UserSchema.ParseUpdateUser` | app/server/src/schemas/user.schema.ts:53-84 | no contract; characterized by `UserSchema.UpdateEmptyBodyAccepted` and `UserSchema.UpdatePasswordPair` |
| `UserSchema.CreateUserAcceptedIff` | app/server/src/schemas/user.schema.ts:3-37 | registration input is accepted iff email, 8..32 trimmed password, phone, info ≤ 500 and matching confirmation all hold; then the parsed value keeps those bounds and a dashed phone |
| `UserSchema.CreateUserMismatch` | app/server/src/schemas/user.schema.ts:34-37 | differing passwords are refused with "Passwords don't match" on `passwordConfirm` |
| `UserSchema.CreateUserInfoTooLong` | app/server/src/schemas/user.schema.ts:29-31 | an `info` over 500 characters is refused with its message |
| `UserSchema.LoginAcceptedIff` | app/server/src/schemas/user.schema.ts:39-47 | login input is accepted iff the email matches and the trimmed password has at least 8 characters; every issue says "Wrong email or password" |
| `UserSchema.UpdateEmptyBodyAccepted` | app/server/src/schemas/user.schema.ts:53-84 | an update with every body field absent is accepted |
| `UserSchema.UpdatePasswordPair` | app/server/src/schemas/user.schema.ts:81-84 | the refine is silent when both passwords are absent and refuses when exactly one is present |
| `AuthController.AccessCookieOptions` | app/server/src/controllers/auth.controller.ts:15-24 | HTTP-only, same-site lax, secure in production, expiring at load time + 60 min |
| `AuthController.RefreshCookieOptions` | app/server/src/controllers/auth.controller.ts:26-31 | HTTP-only, same-site lax, secure in production, expiring at load time + 60 min |
| `AuthController.LoginCookieTriple` | app/server/src/controllers/auth.controller.ts:88-93 | login sets exactly the three cookies; both tokens HTTP-only lax; `logged_in` is "true" with the access options but readable |
| `AuthController.RefreshKeepsRefreshCookie` | app/server/src/controllers/auth.controller.ts:139-143 | refresh writes only `access_token` and `logged_in`; `refresh_token` is untouched |
| `AuthController.LogoutClearsAll` | app/server/src/controllers/auth.controller.ts:157-161 | logout sets the three cookies to "" with `maxAge: -1` and touches no other |
| `AuthController.RegisterError` | app/server/src/controllers/auth.controller.ts:52-63 | CONFLICT iff the error code is 11000, INTERNAL_SERVER_ERROR otherwise |
| `AuthController.RegisterHandler` | app/server/src/controllers/auth.controller.ts:33-64 | succeeds iff the collection answers, the five fields pass validation and neither email nor phone is taken, storing exactly the new document; CONFLICT iff the email or phone is taken; every other failure INTERNAL_SERVER_ERROR with nothing stored |
| `AuthController.SetLoginCookies` | app/server/src/controllers/auth.controller.ts:88-93 | no contract; characterized by `AuthController.LoginCookieTriple` |
| `AuthController.SetRefreshedCookies` | app/server/src/controllers/auth.controller.ts:139-143 | no contract; characterized by `AuthController.RefreshKeepsRefreshCookie` |
| `AuthController.ClearAuthCookies` | app/server/src/controllers/auth.controller.ts:157-161 | no contract; characterized by `AuthController.LogoutClearsAll` |
| `AuthController.LoginUser` | app/server/src/controllers/auth.controller.ts:74-84 | no contract; characterized by `AuthController.LoginFailuresAlike` and `AuthController.AuthHandlers.Login` |
| `AuthController.RefreshUser` | app/server/src/controllers/auth.controller.ts:108-133 | no contract; characterized by `AuthController.RefreshFailsWhen`, `AuthController.RefreshSucceedsOnlyWith` and `AuthController.AccessTokenCannotRefresh` |
| `AuthController.AuthHandlers.constructor` | app/server/src/controllers/auth.controller.ts:21-31 | the cookie options are computed once, from the load time |
| `AuthController.AuthHandlers.Login` | app/server/src/controllers/auth.controller.ts:66-104 | on valid credentials returns the access token, puts the session and sets the three cookies; any failure is the one login error with nothing written |
| `AuthController.AuthHandlers.Refresh` | app/server/src/controllers/auth.controller.ts:106-155 | on success signs an access token for the user's `_id` and writes only `access_token` and `logged_in`; any failure is the one refresh error with nothing written |
| `AuthController.AuthHandlers.Logout` | app/server/src/controllers/auth.controller.ts:163-175 | succeeds iff there is a context user and the store answers; then the session is deleted and the cookies cleared; otherwise nothing changes |
| `AuthController.LoginFailuresAlike` | app/server/src/controllers/auth.controller.ts:76-84 | an unknown email and a wrong password both fail the login |
| `AuthController.RefreshFailsWhen` | app/server/src/controllers/auth.controller.ts:108-133 | a missing or empty cookie, a token failing refresh verification, a falsy session, or a user not found each fail the refresh, with that failure |
| `AuthController.RefreshSucceedsOnlyWith` | app/server/src/controllers/auth.controller.ts:108-133 | a successful refresh implies a non-empty refresh-verified cookie, a live JSON session, a reachable collection holding the user the session names, and that user as the result |
| `AuthController.AccessTokenCannotRefresh` | app/server/src/controllers/auth.controller.ts:115-122 | an access token in the refresh cookie fails verification |
| `AuthController.Receive` | app/server/src/controllers/auth.controller.ts:158-160 | environment model, not code of the server: the browser's cookie jar receiving these cookies keeps a cookie iff it is not expired, and keeps every cookie the response does not set |
| `AuthController.LoginThenCurrentUser` | app/server/src/controllers/auth.controller.ts:86-93 | within the access lifetime after load, the cookies of a login authenticate the next request as that user |
| `AuthController.LateLoginCookiesExpired` | app/server/src/controllers/auth.controller.ts:21-24 | a login 60 min or more after load sets already-expired `access_token` and `logged_in`; the next request is anonymous |
| `AuthController.FreshLoginThenCurrentUser` | app/server/src/controllers/auth.controller.ts:21-31 | with expiries counted from the login, every login is followed by an authenticated request |
| `AuthController.LoginThenRefresh` | app/server/src/controllers/auth.controller.ts:124-133 | the refresh token set by a login refreshes, finding the stored user |
| `AuthController.LogoutThenAnonymous` | app/server/src/controllers/auth.controller.ts:163-168 | after logout a still-valid access token is anonymous and the browser holds none of the three cookies |
| `AuthController.LogoutThenRefreshFails` | app/server/src/controllers/auth.controller.ts:124-127 | after logout the old refresh token meets no session |
| `AuthController.LoginThenRefreshHandlers` | app/server/src/controllers/auth.controller.ts:66-143 | through the handlers: the login succeeds iff the credentials are accepted and stores this user's session; the refresh with the login's refresh cookie then succeeds whenever the user is found by id; a failed login changes nothing and no refresh is attempted |
| `AuthController.SessionLifecycle` | app/server/src/controllers/auth.controller.ts:66-175 | through the handlers: the login succeeds iff the credentials are accepted; after it, the refresh with its refresh cookie succeeds whenever the user is found by id, and logout leaves the store as it was minus this user's session, with all three cookies cleared; a failed login changes nothing |
| `Server.GatedProcedures` | app/server/src/server.ts:77-117 | exactly getUser, updateUser, addToFeatured, updateProperty, deleteProperty and getPropertiesByAuthor are gated, the other seven not |
| `Server.IsAuthorized` | app/server/src/server.ts:65-73 | UNAUTHORIZED "You must be logged in to have access!" iff there is no user; otherwise the context unchanged |
| `Server.GatedAnonymousRejected` | app/server/src/server.ts:65-75 | a gated procedure called anonymously fails with UNAUTHORIZED whatever its resolver would do |
| `Server.ResolverRunsOnContext` | app/server/src/server.ts:52-63 | public procedures, and gated ones with a user, run their resolver on the unchanged context |
| `Server.CreateContext` | app/server/src/server.ts:45-46 | no contract; characterized by `Server.ContextErrorFailsEveryProcedure` |
| `Server.ContextErrorFailsEveryProcedure` | app/server/src/server.ts:136-142 | when `deserializeUser` fails every procedure, public ones included, fails with its error; otherwise the procedure is called on exactly its context |
| `Server.BrokenSessionFailsLogin` | app/server/src/server.ts:136-142 | with a verified token, an unreachable session store or a non-JSON session fails even `userLogin` |
| `Server.BuilderOf` | app/server/src/server.ts:52-118 | no contract; the router table, characterized by `Server.GatedProcedures` |
| `Server.Call` | app/server/src/server.ts:65-75 | no contract; characterized by `Server.GatedAnonymousRejected` and `Server.ResolverRunsOnContext` |
| `Server.Handle` | app/server/src/server.ts:136-142 | no contract; characterized by `Server.ContextErrorFailsEveryProcedure`, `Server.BrokenSessionFailsLogin` and `Server.GatedNeedsSession` |
| `Server.GatedNeedsSession` | app/server/src/server.ts:75-117 | without a verified token or live session a gated procedure is UNAUTHORIZED |
| `Server.ErrorHandler` | app/server/src/server.ts:149-158 | an HttpError keeps its status and message; anything else is 500 "An unknown error occured!" |
| `Server.UnknownRouteIs404` | app/server/src/server.ts:144-146 | an unmatched route is answered 404 "Endpoint not found!" |
| `Search.KeepIffMatches` | app/client/src/pages/Search.tsx:81-114 | the early-return chain keeps a property iff every given criterion holds (type, state exact; address substring; inclusive bounds; rooms equal) |
| `Search.Keep` | app/client/src/pages/Search.tsx:82-113 | no contract; characterized by `Search.KeepIffMatches` |
| `Search.FilterProperties` | app/client/src/pages/Search.tsx:81 | a property is in the result iff it is in the input and passes the filter |
| `Search.FilterIsSubsequence` | app/client/src/pages/Search.tsx:81-114 | the result is a subsequence of the input, in order |
| `Search.FilterMultiplicity` | app/client/src/pages/Search.tsx:81-114 | each property occurs in the result as often as in the input, or not at all |
| `Search.ResetKeepsAll` | app/client/src/pages/Search.tsx:366-378 | with every criterion empty the result is the input |
| `Search.KeptSatisfies` | app/client/src/pages/Search.tsx:82-111 | a kept property satisfies every given criterion |
| `UserRequire.Decide` | app/client/src/components/UserRequire.tsx:38-45 | Outlet iff (cookie or user) and the roles contain the user's role; /unauthorized iff not that but cookie and user; else /login; both with the location |
| `UserRequire.RoleArgument` | app/client/src/components/UserRequire.tsx:39 | no contract; characterized by `UserRequire.NoUserNeverRenders` and `UserRequire.Decide` |
| `UserRequire.NoUserNeverRenders` | app/client/src/components/UserRequire.tsx:38-39 | without a stored user the guard redirects to /login |
| `UserRequire.RouteRoles` | app/client/src/router/index.tsx:37 | `Roles.USER || Roles.ADMIN` is "user" |
| `UserRequire.AdminIsUnauthorized` | app/client/src/components/UserRequire.tsx:39-42 | an admin with the cookie is sent to /unauthorized on the guarded routes |
| `UserRequire.UserRenders` | app/client/src/components/UserRequire.tsx:38-40 | a "user" renders the guarded routes with or without the cookie |
| `ClientStore.Store.constructor` | app/client/src/store/store.ts:14-16 | no user, no search parameters, dark mode on |
| `ClientStore.Store.SetAuthorizedUser` | app/client/src/store/store.ts:17-18 | replaces the user only |
| `ClientStore.Store.SetSearchParams` | app/client/src/store/store.ts:19-20 | replaces the search parameters only |
| `ClientStore.Store.ToggleDarkMode` | app/client/src/store/store.ts:21-22 | negates dark mode only |
| `ClientStore.ToggleTwiceRestores` | app/client/src/store/store.ts:21-22 | toggling dark mode twice restores the whole store state |
| `FileUpload.UnanchoredMatch` | app/client/src/components/FileUpload.tsx:29 | the image-type match is unanchored |
| `FileUpload.ImageFiles` | app/client/src/components/FileUpload.tsx:37-39 | a file is kept iff its type contains image/png, image/jpg or image/jpeg; the kept files are a subsequence of the selection, each as often as it was selected |
| `FileUpload.SliceEnd` | app/client/src/components/FileUpload.tsx:42 | the end of `slice(0, n)`: clamped to the length, counted from the back when negative |
| `FileUpload.SelectImages` | app/client/src/components/FileUpload.tsx:37-51 | the alert iff no image file; otherwise the prefix of the image files that `slice(0, maxUploads)` keeps, at most `maxUploads` of them |
| `FileUpload.SelectionKeepsOrder` | app/client/src/components/FileUpload.tsx:41-42 | the kept files are a prefix of the image files and a subsequence of the selection, in its order |
| `Sequences.PrefixOfSubsequence` | app/client/src/components/FileUpload.tsx:42 | cutting a subsequence short keeps it a subsequence |
| `FileUpload.IsImageType` | app/client/src/components/FileUpload.tsx:29 | no contract; characterized by `FileUpload.UnanchoredMatch` and `FileUpload.ImageFiles` |
| `FileUpload.FileUploader.HandleFileChange` | app/client/src/components/FileUpload.tsx:31-52 | a null list does nothing; no image keeps the files and alerts; otherwise the selection replaces them |
| `FileUpload.RenderIcons` | app/client/src/components/FileUpload.tsx:137-149 | exactly `maxUploads` placeholders (none if negative), keyed 0 to `maxUploads - 1`, size 200 |

## Findings

| source | as written | input that shows it | evidently intended | confidence | as-written member | corrected member |
|---|---|---|---|---|---|---|
| app/server/src/controllers/auth.controller.ts:21-31 | cookie expiries are `Date.now()` when the module loads + 60 min, shared by every later login and refresh | a login 60 minutes or more after the server started: the new `access_token` and `logged_in` cookies are already expired, so the browser drops them and the next request is anonymous | an expiry counted from each login (or refresh) | not executed | `AuthController.LateLoginCookiesExpired` | `AuthController.FreshLoginThenCurrentUser` |

`AuthController.AuthHandlers` keeps the load-time options, as the code has them.
`AuthController.AccessCookieOptionsAt` and `AuthController.RefreshCookieOptionsAt` are the
corrected per-login options. `AuthController.FreshLoginThenCurrentUser` proves that the next
request is authenticated for every login time.

## Left out

- Redis connection handling, reconnects and error events are left out. A store is either
  reachable or not.
- The Mongo connection is left out. A collection is either reachable or not.
- The internals of JWT signing and verification (`utils/jws`, which is not part of this model)
  are left out, and so is bcrypt. They are function parameters, constrained only by `Jws.Sound`.
- The token expiry inside a JWT is left out. `Jws.Sound` says only what holds at the moment a
  token is issued, so the scenario lemmas make their request at the login instant.
- The asynchrony of the unawaited `redisClient.set` is left out. The write counts as done when
  `signToken` returns.
- `Date.now()` is left out. Time is a parameter in milliseconds.
- Zod's email regex is left out. It is the predicate parameter `isEmail`.
- Zod issues raised by a missing required field (`required_error`) are left out. The raw inputs
  are always strings, and absence is modelled only where a field is `.optional()` or
  `.partial()`.
- `Number()` parsing of the search form is left out. The numeric criteria are optional integers,
  and a non-numeric string (NaN) is not modelled.
- JSON serialization of the session is left out. The session value is the user document itself,
  or text that is not JSON. Valid JSON that is not a user document is not modelled: "null" would
  make reading `._id` throw (INTERNAL_SERVER_ERROR), and "{}" would look up an undefined id (an
  anonymous context). The model only has non-JSON text, which gives BAD_REQUEST.
- Image compression and FileReader in FileUpload.tsx are left out. They are asynchronous browser
  I/O, so the selected files are stored as selected.
- Rendering, the client's refresh-retry flow and the property and user CRUD controllers are
  left out.
- `Text.ToLower`: lowercases ASCII letters only. JavaScript's full Unicode case mapping is not
  modelled.
- `Text.Slice`: lengths count characters, not UTF-16 code units. The same holds for every length
  check in `UserSchema`.
- `UserService.AddToFeatured`: a failure of `save()` on a reachable database is not modelled.
