/**
  controllers/auth.controller.ts: register, login, refresh and logout. The handlers work by side
  effect on the session store (`redisClient.set` via `signToken`, `redisClient.del`) and on the
  response's cookie jar (`ctx.res.cookie`); every failure inside a handler's `try` is caught and
  re-thrown as one INTERNAL_SERVER_ERROR per handler.
 */
module AuthController {
  import opened Outcomes
  import opened Config
  import opened Jws
  import opened Http
  import opened Trpc
  import opened UserModel
  import opened RedisStore
  import opened UserService
  import opened UserSchema
  import opened DeserializeUser

  // ---------------------------------------------------------------------------------------------
  // Cookie options and the cookie writes

  /** `cookieOptions`: HTTP-only, secure in production, same-site lax. */
  function BaseCookieOptions(production: bool, expiry: Expiry): CookieOptions {
    CookieOptions(true, production, Lax, expiry)
  }

  /** `accessTokenCookieOptions`, built once when the module loads at `loadTime`. */
  function AccessCookieOptions(loadTime: int, production: bool): (o: CookieOptions)
    ensures o.httpOnly && o.sameSite == Lax && o.secure == production
    ensures o.expiry == ExpiresAt(loadTime + AccessTokenExpiresIn * MsPerMinute)
  {
    BaseCookieOptions(production, ExpiresAt(loadTime + AccessTokenExpiresIn * MsPerMinute))
  }

  /** `refreshTokenCookieOptions`, built once when the module loads at `loadTime`. */
  function RefreshCookieOptions(loadTime: int, production: bool): (o: CookieOptions)
    ensures o.httpOnly && o.sameSite == Lax && o.secure == production
    ensures o.expiry == ExpiresAt(loadTime + RefreshTokenExpiresIn * MsPerMinute)
  {
    BaseCookieOptions(production, ExpiresAt(loadTime + RefreshTokenExpiresIn * MsPerMinute))
  }

  /** `{ ...accessTokenCookieOptions, httpOnly: false }` for the `logged_in` flag. */
  function LoggedInOptions(access: CookieOptions): CookieOptions {
    access.(httpOnly := false)
  }

  /** The three writes of a successful login. */
  function SetLoginCookies(jar: map<string, Cookie>, tokens: Tokens, access: CookieOptions, refresh: CookieOptions)
    : map<string, Cookie>
  {
    jar[AccessCookie := Cookie(tokens.access, access)]
       [RefreshCookie := Cookie(tokens.refresh, refresh)]
       [LoggedInCookie := Cookie("true", LoggedInOptions(access))]
  }

  /** The two writes of a successful refresh. */
  function SetRefreshedCookies(jar: map<string, Cookie>, accessToken: string, access: CookieOptions)
    : map<string, Cookie>
  {
    jar[AccessCookie := Cookie(accessToken, access)][LoggedInCookie := Cookie("true", LoggedInOptions(access))]
  }

  /** `res.cookie(name, "", { maxAge: -1 })`. */
  const ClearedCookie := Cookie("", CookieOptions(false, false, Unset, MaxAge(-1)))

  /** `logout({ ctx })`: the three cookies overwritten with "" and `maxAge: -1`. */
  function ClearAuthCookies(jar: map<string, Cookie>): map<string, Cookie> {
    jar[AccessCookie := ClearedCookie][RefreshCookie := ClearedCookie][LoggedInCookie := ClearedCookie]
  }

  /**
    A login writes exactly the three cookies: both tokens HTTP-only and same-site lax, and a readable
    `logged_in = "true"` that carries the access cookie's expiry, not the refresh cookie's.
   */
  lemma LoginCookieTriple(jar: map<string, Cookie>, tokens: Tokens, loadTime: int, production: bool)
    ensures var a := AccessCookieOptions(loadTime, production);
      var out := SetLoginCookies(jar, tokens, a, RefreshCookieOptions(loadTime, production));
      && out.Keys == jar.Keys + {AccessCookie, RefreshCookie, LoggedInCookie}
      && (forall n :: n in jar && n !in {AccessCookie, RefreshCookie, LoggedInCookie} ==> out[n] == jar[n])
      && out[AccessCookie].value == tokens.access && out[RefreshCookie].value == tokens.refresh
      && out[AccessCookie].options.httpOnly && out[RefreshCookie].options.httpOnly
      && out[AccessCookie].options.sameSite == Lax && out[RefreshCookie].options.sameSite == Lax
      && out[LoggedInCookie] == Cookie("true", a.(httpOnly := false))
      && out[LoggedInCookie].options.expiry == out[AccessCookie].options.expiry
  {
  }

  /** A refresh writes `access_token` and `logged_in` only: the refresh cookie is left as it was, or absent. */
  lemma RefreshKeepsRefreshCookie(jar: map<string, Cookie>, accessToken: string, access: CookieOptions)
    ensures var out := SetRefreshedCookies(jar, accessToken, access);
      && out.Keys == jar.Keys + {AccessCookie, LoggedInCookie}
      && (RefreshCookie in out <==> RefreshCookie in jar)
      && (RefreshCookie in jar ==> out[RefreshCookie] == jar[RefreshCookie])
  {
  }

  /** Logout clears all three cookies whatever the response held before, and touches no other cookie. */
  lemma LogoutClearsAll(jar: map<string, Cookie>)
    ensures var out := ClearAuthCookies(jar);
      && (forall n :: n in {AccessCookie, RefreshCookie, LoggedInCookie} ==> n in out && out[n] == ClearedCookie)
      && (forall n :: n in jar && n !in {AccessCookie, RefreshCookie, LoggedInCookie} ==> n in out && out[n] == jar[n])
  {
  }

  // ---------------------------------------------------------------------------------------------
  // The decision steps of the handlers (the part of each `try` before its writes)

  /** Where a login stops: the collection did not answer, no user has the email, or the password does not match. */
  datatype LoginFailure = DbDown | UnknownEmail | WrongPassword

  /**
    `findUserByField({ email })` then `user.comparePasswords(user.password, input.password)`;
    `compare(plain, hash)` is `bcrypt.compare`, false on a missing hash.
   */
  function LoginUser(db: Db, input: LoginUserInput, compare: (string, string) -> bool): Result<UserRecord, LoginFailure> {
    if !db.reachable then Err(DbDown)
    else match FindUserByEmail(db.records, input.email)
      case None => Err(UnknownEmail)
      case Some(user) =>
        if user.password.Some? && compare(input.password, user.password.value) then Ok(user) else Err(WrongPassword)
  }

  /** Where a refresh stops; each of these ends in the same error. */
  datatype RefreshFailure = NoRefreshCookie | BadRefreshToken | StoreDown | NoSession | SessionNotJson | UsersDown | NoUser

  /**
    The checks of `refreshAccessTokenHandler` before it signs: a non-empty `refresh_token` cookie
    that verifies under the refresh public key, a live session for its `sub`, and the user whose
    `_id` that session holds.
   */
  function RefreshUser(req: Request, codec: Codec, now: int, store: StoreView, db: Db): Result<UserRecord, RefreshFailure> {
    if RefreshCookie !in req.cookies || req.cookies[RefreshCookie] == "" then Err(NoRefreshCookie)
    else match codec.verify(req.cookies[RefreshCookie], Refresh, now)
      case None => Err(BadRefreshToken)
      case Some(sub) =>
        match Get(store, sub, now)
        case Err(_) => Err(StoreDown)
        case Ok(session) =>
          if Falsy(session) then Err(NoSession)
          else match session.value
            case Text(_) => Err(SessionNotJson)
            case Json(snapshot) =>
              if !db.reachable then Err(UsersDown)
              else match FindUserById(db.records, snapshot.oid)
                case None => Err(NoUser)
                case Some(user) => Ok(user)
  }

  const RegisterConflict := TrpcError(Conflict, "This email address already registered!")
  const RegisterFailed := TrpcError(InternalServerError, "An error occurred while registering the user.")
  const LoginFailed := TrpcError(InternalServerError, "An error occurred while logging in.")
  const RefreshFailed := TrpcError(InternalServerError, "An error occurred while refreshing the access token.")
  const LogoutFailed := TrpcError(InternalServerError, "An error occurred while logging out.")

  /** The `catch` of `registerHandler`: duplicate key (code 11000) is CONFLICT, anything else INTERNAL_SERVER_ERROR. */
  function RegisterError(e: DbError): (t: TrpcError)
    ensures t == RegisterConflict <==> ErrorCode(e) == Some(11000)
    ensures t != RegisterConflict ==> t == RegisterFailed
  {
    if ErrorCode(e) == Some(11000) then RegisterConflict else RegisterFailed
  }

  /** `registerHandler({ input })`: `createUser` with the five fields it passes, errors mapped. */
  method RegisterHandler(users: Users, input: CreateUserInput, oid: string, hash: string -> string)
    returns (r: Result<UserRecord, TrpcError>)
    requires users.Valid()
    requires forall i :: 0 <= i < |users.records| ==> users.records[i].oid != oid
    modifies users
    ensures users.Valid()
    ensures var u := NewUser(input.email, input.password, input.name, input.surname, input.phonenumber);
      && (r.Ok? ==> users.records == old(users.records) + [NewDocument(u, oid, hash)]
                    && r.value == WithoutPassword(NewDocument(u, oid, hash)))
      && (r.Err? ==> users.records == old(users.records))
      && (r.Ok? <==> old(users.reachable) && PassesValidation(u) && !Conflicts(old(users.records), u))
      && (r == Err(RegisterConflict) <==> old(users.reachable) && PassesValidation(u) && Conflicts(old(users.records), u))
      && (r.Err? && r.error != RegisterConflict ==> r.error == RegisterFailed)
  {
    var u := NewUser(input.email, input.password, input.name, input.surname, input.phonenumber);
    var created := CreateUser(users, u, oid, hash);
    match created
    case Ok(user) => r := Ok(user);
    case Err(e) => r := Err(RegisterError(e));
  }

  /**
    The auth handlers of one server process. The cookie options are fixed when the module loads;
    `cookies` is the cookie jar of the response being built; the session store and the user
    collection are shared with the rest of the server.
   */
  class AuthHandlers {
    const codec: Codec
    const compare: (string, string) -> bool
    const accessCookieOptions: CookieOptions
    const refreshCookieOptions: CookieOptions
    const store: Store
    const users: Users
    var cookies: map<string, Cookie>

    constructor (codec: Codec, compare: (string, string) -> bool, loadTime: int, production: bool, store: Store, users: Users)
      ensures this.codec == codec && this.compare == compare && this.store == store && this.users == users
      ensures accessCookieOptions == AccessCookieOptions(loadTime, production)
      ensures refreshCookieOptions == RefreshCookieOptions(loadTime, production)
      ensures cookies == map[]
    {
      this.codec := codec;
      this.compare := compare;
      this.store := store;
      this.users := users;
      accessCookieOptions := AccessCookieOptions(loadTime, production);
      refreshCookieOptions := RefreshCookieOptions(loadTime, production);
      cookies := map[];
    }

    /**
      `loginHandler({ input, ctx })` at time `now`: on valid credentials, sign both tokens, put the
      session and set the three cookies; an unknown email, a wrong password and an unreachable
      collection all end in the same error with nothing written.
     */
    method Login(input: LoginUserInput, now: int) returns (r: Result<string, TrpcError>)
      modifies this, store
      ensures store.reachable == old(store.reachable)
      ensures r.Ok? <==> LoginUser(users.View(), input, compare).Ok?
      ensures r.Err? ==> r.error == LoginFailed && cookies == old(cookies) && store.entries == old(store.entries)
      ensures r.Ok? ==>
        var user := LoginUser(users.View(), input, compare).value;
        var tokens := IssuedTokens(codec, user, now);
        && r.value == tokens.access
        && cookies == SetLoginCookies(old(cookies), tokens, accessCookieOptions, refreshCookieOptions)
        && store.entries == if old(store.reachable) then old(store.entries)[user.oid := SessionEntry(user, now)] else old(store.entries)
    {
      var found := LoginUser(users.View(), input, compare);
      if found.Err? {
        return Err(LoginFailed);
      }
      var tokens := SignToken(store, codec, found.value, now);
      cookies := cookies[AccessCookie := Cookie(tokens.access, accessCookieOptions)];
      cookies := cookies[RefreshCookie := Cookie(tokens.refresh, refreshCookieOptions)];
      cookies := cookies[LoggedInCookie := Cookie("true", LoggedInOptions(accessCookieOptions))];
      r := Ok(tokens.access);
    }

    /**
      `refreshAccessTokenHandler({ ctx })` at time `now`: on success a new access token with
      `sub` = the user's `_id`, written to `access_token` and `logged_in` only; any failure is the
      one refresh error and writes nothing. The session store is only read.
     */
    method Refresh(req: Request, now: int) returns (r: Result<string, TrpcError>)
      modifies this
      ensures r.Ok? <==> RefreshUser(req, codec, now, store.View(), users.View()).Ok?
      ensures r.Err? ==> r.error == RefreshFailed && cookies == old(cookies)
      ensures r.Ok? ==>
        var user := RefreshUser(req, codec, now, store.View(), users.View()).value;
        && r.value == codec.sign(user.oid, Access, now, AccessTokenExpiresIn)
        && cookies == SetRefreshedCookies(old(cookies), r.value, accessCookieOptions)
    {
      var found := RefreshUser(req, codec, now, store.View(), users.View());
      if found.Err? {
        return Err(RefreshFailed);
      }
      var accessToken := codec.sign(found.value.oid, Access, now, AccessTokenExpiresIn);
      cookies := cookies[AccessCookie := Cookie(accessToken, accessCookieOptions)];
      cookies := cookies[LoggedInCookie := Cookie("true", LoggedInOptions(accessCookieOptions))];
      r := Ok(accessToken);
    }

    /**
      `logoutHandler({ ctx })`: delete the session keyed by the context user's id, then clear the
      three cookies. When the delete fails (no context user, so the key is undefined; or the store
      does not answer) no cookie is cleared.
     */
    method Logout(user: Option<CtxUser>) returns (r: Result<(), TrpcError>)
      modifies this, store
      ensures store.reachable == old(store.reachable)
      ensures r.Ok? <==> user.Some? && old(store.reachable)
      ensures r.Ok? ==> store.entries == old(store.entries) - {user.value.record.oid} && cookies == ClearAuthCookies(old(cookies))
      ensures r.Err? ==> r.error == LogoutFailed && cookies == old(cookies) && store.entries == old(store.entries)
    {
      var key := if user.Some? then Some(user.value.record.oid) else None;
      var deleted := store.Del(key);
      if deleted.Err? {
        return Err(LogoutFailed);
      }
      cookies := ClearAuthCookies(cookies);
      r := Ok(());
    }
  }

  // ---------------------------------------------------------------------------------------------
  // Properties of the decision steps

  /** The caller cannot tell an unknown email from a wrong password: both are the same login error. */
  lemma LoginFailuresAlike(db: Db, input: LoginUserInput, compare: (string, string) -> bool)
    requires db.reachable
    requires FindUserByEmail(db.records, input.email).Some? ==>
      var hash := FindUserByEmail(db.records, input.email).value.password;
      hash.Some? && !compare(input.password, hash.value)
    ensures LoginUser(db, input, compare).Err?
  {
  }

  /**
    Each failure condition of the refresh makes it fail: a missing or empty cookie, a token that
    does not verify under the refresh key, a falsy session, and a user that is not found.
   */
  lemma RefreshFailsWhen(req: Request, codec: Codec, now: int, store: StoreView, db: Db)
    ensures RefreshCookie !in req.cookies || req.cookies[RefreshCookie] == "" ==> RefreshUser(req, codec, now, store, db) == Err(NoRefreshCookie)
    ensures RefreshCookie in req.cookies && req.cookies[RefreshCookie] != "" && codec.verify(req.cookies[RefreshCookie], Refresh, now).None?
      ==> RefreshUser(req, codec, now, store, db) == Err(BadRefreshToken)
    ensures RefreshCookie in req.cookies && req.cookies[RefreshCookie] != "" && codec.verify(req.cookies[RefreshCookie], Refresh, now).Some?
      ==> var session := Get(store, codec.verify(req.cookies[RefreshCookie], Refresh, now).value, now);
        && (session.Ok? && Falsy(session.value) ==> RefreshUser(req, codec, now, store, db) == Err(NoSession))
        && (session.Ok? && session.value.Some? && session.value.value.Json? && db.reachable
            && FindUserById(db.records, session.value.value.snapshot.oid).None?
            ==> RefreshUser(req, codec, now, store, db) == Err(NoUser))
  {
  }

  /** A refresh succeeds only with a refresh-verified cookie, a live session and a stored user. */
  lemma RefreshSucceedsOnlyWith(req: Request, codec: Codec, now: int, store: StoreView, db: Db)
    requires RefreshUser(req, codec, now, store, db).Ok?
    ensures RefreshCookie in req.cookies && req.cookies[RefreshCookie] != ""
    ensures var sub := codec.verify(req.cookies[RefreshCookie], Refresh, now);
      && sub.Some? && store.reachable && sub.value in store.entries && now < store.entries[sub.value].expiresAt
      && store.entries[sub.value].value.Json?
      && db.reachable
      && FindUserById(db.records, store.entries[sub.value].value.snapshot.oid).Some?
      && RefreshUser(req, codec, now, store, db).value == FindUserById(db.records, store.entries[sub.value].value.snapshot.oid).value
  {
  }

  /** An access token in the refresh cookie does not verify under the refresh key, so the refresh fails. */
  lemma AccessTokenCannotRefresh(sub: string, issuedAt: int, minutes: nat, codec: Codec, now: int, store: StoreView, db: Db)
    requires Sound(codec)
    ensures RefreshUser(Request(None, map[RefreshCookie := codec.sign(sub, Access, issuedAt, minutes)]), codec, now, store, db)
      == Err(BadRefreshToken)
  {
    assert Other(Access) == Refresh;
  }

  // ---------------------------------------------------------------------------------------------
  // Whole-session scenarios: what the browser keeps between requests

  /** A cookie the browser keeps: not expired at `now` and not given a non-positive `maxAge`. */
  predicate Kept(c: Cookie, now: int) {
    match c.options.expiry
    case ExpiresAt(ms) => ms > now
    case MaxAge(ms) => ms > 0
  }

  /** The browser's cookies after it receives the response cookies `jar` at time `now`. */
  function Receive(browser: map<string, string>, jar: map<string, Cookie>, now: int): (b: map<string, string>)
    ensures forall n :: n in jar ==> (n in b <==> Kept(jar[n], now)) && (n in b ==> b[n] == jar[n].value)
    ensures forall n :: n !in jar ==> (n in b <==> n in browser) && (n in b ==> b[n] == browser[n])
  {
    map n | n in browser.Keys + jar.Keys && (n in jar ==> Kept(jar[n], now)) :: if n in jar then jar[n].value else browser[n]
  }

  /**
    Login, then a request that carries the cookies the browser kept: within the access cookie's
    lifetime the request resolves to the user that logged in, loaded afresh from the collection.
   */
  lemma LoginThenCurrentUser(codec: Codec, loadTime: int, production: bool, user: UserRecord, db: Db,
                             entries: map<string, Entry>, browser: map<string, string>, now: int, res: Response)
    requires Sound(codec) && db.reachable && FindUserById(db.records, user.oid).Some?
    requires now < loadTime + AccessTokenExpiresIn * MsPerMinute
    ensures var tokens := IssuedTokens(codec, user, now);
      var jar := SetLoginCookies(map[], tokens, AccessCookieOptions(loadTime, production), RefreshCookieOptions(loadTime, production));
      var req := Request(None, Receive(browser, jar, now));
      DeserializeUser.DeserializeUser(req, res, codec, now, StoreView(true, entries[user.oid := SessionEntry(user, now)]), db)
        == Ok(Context(req, res, Some(CtxUser(FindUserById(db.records, user.oid).value, user.oid))))
  {
    var tokens := IssuedTokens(codec, user, now);
    IssuedTokensCarrySubject(codec, user, now, now);
    var jar := SetLoginCookies(map[], tokens, AccessCookieOptions(loadTime, production), RefreshCookieOptions(loadTime, production));
    var cookies := Receive(browser, jar, now);
    assert cookies[AccessCookie] == tokens.access;
    var req := Request(None, cookies);
    assert AccessToken(req) == Some(tokens.access);
    assert VerifiedSubject(req, codec, now) == Some(user.oid);
  }

  /**
    The cookie options are fixed when the module loads: a login later than the access lifetime
    after that sets an `access_token` and a `logged_in` that have already expired, so the browser
    drops them and the next request without a Bearer header is anonymous.
   */
  lemma LateLoginCookiesExpired(codec: Codec, loadTime: int, production: bool, user: UserRecord, db: Db,
                                store: StoreView, browser: map<string, string>, now: int, res: Response)
    requires now >= loadTime + AccessTokenExpiresIn * MsPerMinute
    ensures var tokens := IssuedTokens(codec, user, now);
      var jar := SetLoginCookies(map[], tokens, AccessCookieOptions(loadTime, production), RefreshCookieOptions(loadTime, production));
      var req := Request(None, Receive(browser, jar, now));
      && AccessCookie !in req.cookies && LoggedInCookie !in req.cookies
      && DeserializeUser.DeserializeUser(req, res, codec, now, store, db) == Ok(Anonymous(req, res))
  {
  }

  /** The access cookie options as evidently intended: the expiry counted from the moment of the login. */
  function AccessCookieOptionsAt(now: int, production: bool): CookieOptions {
    BaseCookieOptions(production, ExpiresAt(now + AccessTokenExpiresIn * MsPerMinute))
  }

  function RefreshCookieOptionsAt(now: int, production: bool): CookieOptions {
    BaseCookieOptions(production, ExpiresAt(now + RefreshTokenExpiresIn * MsPerMinute))
  }

  /** With per-login expiries every login, however late, is followed by an authenticated request. */
  lemma FreshLoginThenCurrentUser(codec: Codec, production: bool, user: UserRecord, db: Db,
                                  entries: map<string, Entry>, browser: map<string, string>, now: int, res: Response)
    requires Sound(codec) && db.reachable && FindUserById(db.records, user.oid).Some?
    ensures var tokens := IssuedTokens(codec, user, now);
      var jar := SetLoginCookies(map[], tokens, AccessCookieOptionsAt(now, production), RefreshCookieOptionsAt(now, production));
      var req := Request(None, Receive(browser, jar, now));
      && LoggedInCookie in req.cookies && RefreshCookie in req.cookies
      && DeserializeUser.DeserializeUser(req, res, codec, now, StoreView(true, entries[user.oid := SessionEntry(user, now)]), db)
        == Ok(Context(req, res, Some(CtxUser(FindUserById(db.records, user.oid).value, user.oid))))
  {
    var tokens := IssuedTokens(codec, user, now);
    IssuedTokensCarrySubject(codec, user, now, now);
    var jar := SetLoginCookies(map[], tokens, AccessCookieOptionsAt(now, production), RefreshCookieOptionsAt(now, production));
    var cookies := Receive(browser, jar, now);
    assert cookies[AccessCookie] == tokens.access;
    var req := Request(None, cookies);
    assert AccessToken(req) == Some(tokens.access);
    assert VerifiedSubject(req, codec, now) == Some(user.oid);
  }

  /** Right after a login, the refresh cookie it set refreshes: the session is live and the user is found. */
  lemma LoginThenRefresh(codec: Codec, user: UserRecord, db: Db, entries: map<string, Entry>, now: int)
    requires Sound(codec) && db.reachable && FindUserById(db.records, user.oid).Some?
    ensures var tokens := IssuedTokens(codec, user, now);
      RefreshUser(Request(None, map[RefreshCookie := tokens.refresh]), codec, now,
                  StoreView(true, entries[user.oid := SessionEntry(user, now)]), db)
        == Ok(FindUserById(db.records, user.oid).value)
  {
    IssuedTokensCarrySubject(codec, user, now, now);
  }

  /**
    After logout of a user, no request whose access token names that user is authenticated, even if
    the token itself is still valid; and the browser keeps none of the three cookies.
   */
  lemma LogoutThenAnonymous(req: Request, res: Response, codec: Codec, now: int, entries: map<string, Entry>,
                            db: Db, user: CtxUser, browser: map<string, string>, jar: map<string, Cookie>)
    requires VerifiedSubject(req, codec, now) == Some(user.record.oid)
    ensures DeserializeUser.DeserializeUser(req, res, codec, now, StoreView(true, entries - {user.record.oid}), db) == Ok(Anonymous(req, res))
    ensures var b := Receive(browser, ClearAuthCookies(jar), now);
      AccessCookie !in b && RefreshCookie !in b && LoggedInCookie !in b
  {
  }

  /** After logout, refreshing with the old refresh token fails: there is no session any more. */
  lemma LogoutThenRefreshFails(req: Request, codec: Codec, now: int, entries: map<string, Entry>, db: Db, sub: string)
    requires RefreshCookie in req.cookies && req.cookies[RefreshCookie] != ""
    requires codec.verify(req.cookies[RefreshCookie], Refresh, now) == Some(sub)
    ensures RefreshUser(req, codec, now, StoreView(true, entries - {sub}), db) == Err(NoSession)
  {
  }

  /**
    A client of the handlers: login, then a refresh with the refresh cookie the login set.
    `refreshed` is whether the refresh succeeded; it is attempted only after a successful login.
   */
  method LoginThenRefreshHandlers(h: AuthHandlers, input: LoginUserInput, now: int)
    returns (login: Result<string, TrpcError>, refreshed: bool)
    requires h.store.reachable && Sound(h.codec)
    modifies h, h.store
    ensures h.store.reachable
    ensures login.Ok? <==> LoginUser(h.users.View(), input, h.compare).Ok?
    ensures login.Err? ==> !refreshed && h.cookies == old(h.cookies) && h.store.entries == old(h.store.entries)
    ensures login.Ok? ==>
      var user := LoginUser(h.users.View(), input, h.compare).value;
      && (FindUserById(h.users.records, user.oid).Some? ==> refreshed)
      && h.store.entries == old(h.store.entries)[user.oid := SessionEntry(user, now)]
  {
    refreshed := false;
    login := h.Login(input, now);
    if login.Ok? {
      var user := LoginUser(h.users.View(), input, h.compare).value;
      var tokens := IssuedTokens(h.codec, user, now);
      assert h.cookies[RefreshCookie].value == tokens.refresh;
      if FindUserById(h.users.records, user.oid).Some? {
        LoginThenRefresh(h.codec, user, h.users.View(), old(h.store.entries), now);
      }
      var refresh := h.Refresh(Request(None, map[RefreshCookie := tokens.refresh]), now);
      refreshed := refresh.Ok?;
    }
  }

  /**
    The whole session through the handlers: login, refresh, then logout of the logged-in user,
    which takes away exactly the session the login created and clears the three cookies.
   */
  method SessionLifecycle(h: AuthHandlers, input: LoginUserInput, now: int)
    returns (login: Result<string, TrpcError>, refreshed: bool)
    requires h.store.reachable && Sound(h.codec)
    modifies h, h.store
    ensures login.Ok? <==> LoginUser(h.users.View(), input, h.compare).Ok?
    ensures login.Err? ==> !refreshed && h.cookies == old(h.cookies) && h.store.entries == old(h.store.entries)
    ensures login.Ok? ==>
      var user := LoginUser(h.users.View(), input, h.compare).value;
      && (FindUserById(h.users.records, user.oid).Some? ==> refreshed)
      && h.store.entries == old(h.store.entries) - {user.oid}
      && AccessCookie in h.cookies && h.cookies[AccessCookie] == ClearedCookie
      && RefreshCookie in h.cookies && h.cookies[RefreshCookie] == ClearedCookie
      && LoggedInCookie in h.cookies && h.cookies[LoggedInCookie] == ClearedCookie
  {
    login, refreshed := LoginThenRefreshHandlers(h, input, now);
    if login.Ok? {
      var user := LoginUser(h.users.View(), input, h.compare).value;
      ghost var session := h.store.entries;
      var out := h.Logout(Some(CtxUser(user, user.oid)));
      assert session - {user.oid} == old(h.store.entries) - {user.oid};
    }
  }
}
