/**
  middleware/deserializeUser.ts: the per-request identity. A chain of guards, each of which ends
  the request as anonymous (`user: null`), until a verified access token, a live session and a
  stored user give `user: { ...record, id }`.
 */
module DeserializeUser {
  import opened Outcomes
  import opened Text
  import opened Jws
  import opened Http
  import opened Trpc
  import opened UserModel
  import opened RedisStore
  import opened UserService

  /** `{ ...user, id: user._id.toString() }`. */
  datatype CtxUser = CtxUser(record: UserRecord, id: string)

  /** `{ req, res, user }`: the tRPC context each procedure receives. */
  datatype Context = Context(req: Request, res: Response, user: Option<CtxUser>)

  function Anonymous(req: Request, res: Response): Context {
    Context(req, res, None)
  }

  const InvalidJson := TrpcError(BadRequest, "Invalid JSON data")
  const InternalError := TrpcError(InternalServerError, "Internal server error occurred")

  /** The `authorization` header is present, non-empty and starts with "Bearer". */
  predicate IsBearer(req: Request) {
    req.authorization.Some? && Truthy(req.authorization.value) && StartsWith(req.authorization.value, "Bearer")
  }

  /**
    `access_token` after the if/else: the second space-separated segment of a Bearer header
    (undefined when there is none), otherwise a non-empty `access_token` cookie.
   */
  function AccessToken(req: Request): Option<string> {
    if IsBearer(req) then
      var parts := Split(req.authorization.value, ' ');
      if |parts| > 1 then Some(parts[1]) else None
    else if AccessCookie in req.cookies && Truthy(req.cookies[AccessCookie]) then
      Some(req.cookies[AccessCookie])
    else
      None
  }

  /** The `sub` of the candidate token, when there is a non-empty one and it verifies under the access public key. */
  function VerifiedSubject(req: Request, codec: Codec, now: int): Option<string> {
    var token := AccessToken(req);
    if token.Some? && Truthy(token.value) then codec.verify(token.value, Access, now) else None
  }

  /** `deserializeUser({ req, res })` at time `now`, against the session store and the user collection. */
  function DeserializeUser(req: Request, res: Response, codec: Codec, now: int, store: StoreView, db: Db)
    : (r: Result<Context, TrpcError>)
    ensures r.Ok? ==> r.value.req == req && r.value.res == res
    ensures r.Err? ==> r.error == InvalidJson || r.error == InternalError
    ensures r.Ok? && r.value.user.Some? ==>
      var u := r.value.user.value;
      && VerifiedSubject(req, codec, now).Some?
      && Get(store, VerifiedSubject(req, codec, now).value, now).Ok?
      && !Falsy(Get(store, VerifiedSubject(req, codec, now).value, now).value)
      && db.reachable && u.id == u.record.oid && u.record.password == None
      && exists j :: 0 <= j < |db.records| && db.records[j].oid == u.id
  {
    var subject := VerifiedSubject(req, codec, now);
    if subject.None? then
      Ok(Anonymous(req, res))
    else
      match Get(store, subject.value, now)
      case Err(_) => Err(InternalError)
      case Ok(session) =>
        if Falsy(session) then
          Ok(Anonymous(req, res))
        else
          match session.value
          case Text(_) => Err(InvalidJson)
          case Json(snapshot) =>
            if !db.reachable then
              Err(InternalError)
            else
              match FindUserById(db.records, snapshot.oid)
              case None => Ok(Anonymous(req, res))
              case Some(user) => Ok(Context(req, res, Some(CtxUser(user, user.oid))))
  }

  /** A "Bearer" header decides the token on its own: the `access_token` cookie plays no part. */
  lemma BearerHeaderWins(req: Request, otherCookies: map<string, string>)
    requires IsBearer(req)
    ensures AccessToken(req) == AccessToken(req.(cookies := otherCookies))
    ensures var parts := Split(req.authorization.value, ' ');
      AccessToken(req) == if |parts| > 1 then Some(parts[1]) else None
  {
  }

  /** `Authorization: Bearer <token>` yields exactly `<token>` when it holds no space. */
  lemma BearerToken(token: string, cookies: map<string, string>)
    requires ' ' !in token
    ensures AccessToken(Request(Some("Bearer " + token), cookies)) == Some(token)
  {
    var h := "Bearer " + token;
    assert h == "Bearer" + [' '] + token;
    SplitTwoParts("Bearer", token, ' ');
    assert StartsWith(h, "Bearer") by { assert h[..6] == "Bearer"; }
  }

  /** Without a Bearer header the token is the `access_token` cookie, when it is non-empty. */
  lemma CookieFallback(req: Request)
    requires !IsBearer(req)
    ensures AccessToken(req) == if AccessCookie in req.cookies && req.cookies[AccessCookie] != "" then Some(req.cookies[AccessCookie]) else None
  {
  }

  /** No candidate token: anonymous, whatever the store and the collection hold (neither is consulted). */
  lemma NoTokenIsAnonymous(req: Request, res: Response, codec: Codec, now: int, store: StoreView, db: Db)
    requires AccessToken(req).None? || AccessToken(req) == Some("")
    ensures DeserializeUser(req, res, codec, now, store, db) == Ok(Anonymous(req, res))
  {
  }

  /** A token that does not verify under the access public key: anonymous rather than an error, whatever the stores hold. */
  lemma UnverifiedIsAnonymous(req: Request, res: Response, codec: Codec, now: int, store: StoreView, db: Db)
    requires AccessToken(req).Some? && codec.verify(AccessToken(req).value, Access, now).None?
    ensures DeserializeUser(req, res, codec, now, store, db) == Ok(Anonymous(req, res))
  {
  }

  /** Only the access key counts: a refresh token presented as the access cookie is anonymous. */
  lemma RefreshTokenIsNotAccess(sub: string, issuedAt: int, minutes: nat, cookies: map<string, string>,
                                res: Response, codec: Codec, now: int, store: StoreView, db: Db)
    requires Sound(codec)
    requires cookies == map[AccessCookie := codec.sign(sub, Refresh, issuedAt, minutes)]
    ensures DeserializeUser(Request(None, cookies), res, codec, now, store, db) == Ok(Anonymous(Request(None, cookies), res))
  {
    assert Other(Refresh) == Access;
  }

  /** No live session for the token's `sub` (absent, expired, or empty): anonymous, whatever the collection holds. */
  lemma NoSessionIsAnonymous(req: Request, res: Response, codec: Codec, now: int, store: StoreView, db: Db)
    requires VerifiedSubject(req, codec, now).Some? && store.reachable
    requires var sub := VerifiedSubject(req, codec, now).value;
      sub !in store.entries || now >= store.entries[sub].expiresAt || store.entries[sub].value == Text("")
    ensures DeserializeUser(req, res, codec, now, store, db) == Ok(Anonymous(req, res))
  {
  }

  /**
    With a live session, the user is looked up afresh by the `_id` inside the session snapshot:
    the context carries that stored record (not the snapshot), or is anonymous when there is none.
   */
  lemma UserIsLoadedFresh(req: Request, res: Response, codec: Codec, now: int, store: StoreView, db: Db, snapshot: UserRecord)
    requires VerifiedSubject(req, codec, now).Some? && db.reachable
    requires Get(store, VerifiedSubject(req, codec, now).value, now) == Ok(Some(Json(snapshot)))
    ensures var r := DeserializeUser(req, res, codec, now, store, db);
      && r.Ok?
      && (r.value.user.None? <==> forall j :: 0 <= j < |db.records| ==> db.records[j].oid != snapshot.oid)
      && (r.value.user.Some? ==> r.value.user.value == CtxUser(FindUserById(db.records, snapshot.oid).value, snapshot.oid))
  {
  }

  /** The snapshot only proves the session is live: two sessions naming the same `_id` resolve alike. */
  lemma SnapshotContentIgnored(req: Request, res: Response, codec: Codec, now: int, db: Db,
                               entries: map<string, Entry>, s1: UserRecord, s2: UserRecord, expiresAt: int)
    requires VerifiedSubject(req, codec, now).Some? && now < expiresAt && s1.oid == s2.oid
    ensures var sub := VerifiedSubject(req, codec, now).value;
      DeserializeUser(req, res, codec, now, StoreView(true, entries[sub := Entry(Json(s1), expiresAt)]), db)
      == DeserializeUser(req, res, codec, now, StoreView(true, entries[sub := Entry(Json(s2), expiresAt)]), db)
  {
  }

  /**
    The failures that are errors, not anonymity: a session value that is not JSON is BAD_REQUEST;
    an unreachable store or collection is INTERNAL_SERVER_ERROR.
   */
  lemma ErrorsAreDistinct(req: Request, res: Response, codec: Codec, now: int, store: StoreView, db: Db)
    requires VerifiedSubject(req, codec, now).Some?
    ensures var sub := VerifiedSubject(req, codec, now).value;
      var r := DeserializeUser(req, res, codec, now, store, db);
      && (!store.reachable ==> r == Err(InternalError))
      && (store.reachable && sub in store.entries && now < store.entries[sub].expiresAt ==>
            (match store.entries[sub].value
             case Text(raw) => r == (if raw == "" then Ok(Anonymous(req, res)) else Err(InvalidJson))
             case Json(_) => !db.reachable ==> r == Err(InternalError)))
  {
  }
}
