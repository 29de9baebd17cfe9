/**
  server.ts: the tRPC routers, the `isAuthorized` gate, the request context, and the Express
  handlers for unmatched routes and uncaught errors.
 */
module Server {
  import opened Outcomes
  import opened Jws
  import opened Http
  import opened Trpc
  import opened UserModel
  import opened RedisStore
  import opened DeserializeUser

  /** The procedures of the merged app router. */
  datatype Procedure =
    | UserRegister | UserLogin | UserLogout | RefreshToken
    | GetUser | UpdateUser | AddToFeatured
    | CreateProperty | GetProperties | GetProperty | UpdateProperty | DeleteProperty | GetPropertiesByAuthor

  /** The procedure builder a procedure is declared with: `t.procedure` or `isAuthorizedProcedure`. */
  datatype Builder = PublicProcedure | AuthorizedProcedure

  /** The router table. */
  function BuilderOf(p: Procedure): Builder {
    match p
    case UserRegister => PublicProcedure
    case UserLogin => PublicProcedure
    case UserLogout => PublicProcedure
    case RefreshToken => PublicProcedure
    case GetUser => AuthorizedProcedure
    case UpdateUser => AuthorizedProcedure
    case AddToFeatured => AuthorizedProcedure
    case CreateProperty => PublicProcedure
    case GetProperties => PublicProcedure
    case GetProperty => PublicProcedure
    case UpdateProperty => AuthorizedProcedure
    case DeleteProperty => AuthorizedProcedure
    case GetPropertiesByAuthor => AuthorizedProcedure
  }

  predicate Gated(p: Procedure) {
    BuilderOf(p) == AuthorizedProcedure
  }

  /** Exactly six procedures go through the gate; the other seven, logout and createProperty among them, do not. */
  lemma GatedProcedures(p: Procedure)
    ensures Gated(p) <==> p in {GetUser, UpdateUser, AddToFeatured, UpdateProperty, DeleteProperty, GetPropertiesByAuthor}
    ensures !Gated(p) <==> p in {UserRegister, UserLogin, UserLogout, RefreshToken, CreateProperty, GetProperties, GetProperty}
  {
  }

  const NotLoggedIn := TrpcError(Unauthorized, "You must be logged in to have access!")

  /** The `isAuthorized` middleware: reject a context without a user, otherwise pass it on unchanged. */
  function IsAuthorized(ctx: Context): (r: Result<Context, TrpcError>)
    ensures r.Ok? <==> ctx.user.Some?
    ensures r.Ok? ==> r.value == ctx
    ensures r.Err? ==> r.error == NotLoggedIn
  {
    if ctx.user.None? then Err(NotLoggedIn) else Ok(ctx)
  }

  /** Calling procedure `p` whose resolver is `handler`, with the context already built. */
  function Call<T>(p: Procedure, ctx: Context, handler: Context -> Result<T, TrpcError>): Result<T, TrpcError> {
    if Gated(p) then
      match IsAuthorized(ctx)
      case Err(e) => Err(e)
      case Ok(c) => handler(c)
    else
      handler(ctx)
  }

  /**
    A gated procedure called anonymously fails with UNAUTHORIZED before its resolver runs: the
    outcome is the same whatever the resolver would have done.
   */
  lemma GatedAnonymousRejected<T>(p: Procedure, ctx: Context, handler: Context -> Result<T, TrpcError>,
                                  other: Context -> Result<T, TrpcError>)
    requires Gated(p) && ctx.user.None?
    ensures Call(p, ctx, handler) == Err(NotLoggedIn)
    ensures Call(p, ctx, handler) == Call(p, ctx, other)
  {
  }

  /** With a user in the context, or on a public procedure, the resolver runs on the unchanged context. */
  lemma ResolverRunsOnContext<T>(p: Procedure, ctx: Context, handler: Context -> Result<T, TrpcError>)
    requires !Gated(p) || ctx.user.Some?
    ensures Call(p, ctx, handler) == handler(ctx)
  {
  }

  /** `createContext`: the result of `deserializeUser`, passed on as it is. */
  function CreateContext(req: Request, res: Response, codec: Codec, now: int, store: StoreView, db: Db)
    : Result<Context, TrpcError>
  {
    DeserializeUser.DeserializeUser(req, res, codec, now, store, db)
  }

  /** One request to procedure `p`: build the context, then call; a failing context fails every procedure. */
  function Handle<T>(p: Procedure, req: Request, res: Response, codec: Codec, now: int, store: StoreView, db: Db,
                     handler: Context -> Result<T, TrpcError>): Result<T, TrpcError> {
    match CreateContext(req, res, codec, now, store, db)
    case Err(e) => Err(e)
    case Ok(ctx) => Call(p, ctx, handler)
  }

  /**
    The context is built before any procedure is chosen: when `deserializeUser` fails, every
    procedure fails with its error, public ones included; when it succeeds, the procedure is called
    on exactly that context.
   */
  lemma ContextErrorFailsEveryProcedure<T>(p: Procedure, req: Request, res: Response, codec: Codec, now: int,
                                           store: StoreView, db: Db, handler: Context -> Result<T, TrpcError>)
    ensures DeserializeUser.DeserializeUser(req, res, codec, now, store, db).Err? ==>
      Handle(p, req, res, codec, now, store, db, handler) == Err(DeserializeUser.DeserializeUser(req, res, codec, now, store, db).error)
    ensures DeserializeUser.DeserializeUser(req, res, codec, now, store, db).Ok? ==>
      Handle(p, req, res, codec, now, store, db, handler) == Call(p, DeserializeUser.DeserializeUser(req, res, codec, now, store, db).value, handler)
  {
  }

  /**
    A session value that is not JSON, or a session store that does not answer, fails even the
    public procedures: with such a token in the request, `userLogin` never runs.
   */
  lemma BrokenSessionFailsLogin<T>(req: Request, res: Response, codec: Codec, now: int, store: StoreView, db: Db,
                                   handler: Context -> Result<T, TrpcError>)
    requires VerifiedSubject(req, codec, now).Some?
    ensures !store.reachable ==> Handle(UserLogin, req, res, codec, now, store, db, handler) == Err(InternalError)
    ensures var sub := VerifiedSubject(req, codec, now).value;
      store.reachable && sub in store.entries && now < store.entries[sub].expiresAt
      && store.entries[sub].value.Text? && store.entries[sub].value.raw != ""
      ==> Handle(UserLogin, req, res, codec, now, store, db, handler) == Err(InvalidJson)
  {
    ErrorsAreDistinct(req, res, codec, now, store, db);
  }

  /** A gated procedure is reached only with a user whose token verified and whose session is live. */
  lemma GatedNeedsSession<T>(p: Procedure, req: Request, res: Response, codec: Codec, now: int, store: StoreView, db: Db,
                             handler: Context -> Result<T, TrpcError>)
    requires Gated(p)
    requires var sub := VerifiedSubject(req, codec, now);
      sub.None? || (store.reachable && (sub.value !in store.entries || now >= store.entries[sub.value].expiresAt))
    ensures Handle(p, req, res, codec, now, store, db, handler) == Err(NotLoggedIn)
  {
    if VerifiedSubject(req, codec, now).Some? {
      NoSessionIsAnonymous(req, res, codec, now, store, db);
    }
  }

  /** The errors the Express error handler can receive. */
  datatype ServerError = HttpError(status: int, message: string) | OtherError

  /** The body of the final Express handler: `{ error: message }` with its status. */
  datatype ErrorReply = ErrorReply(status: int, error: string)

  const UnknownErrorMessage := "An unknown error occured!"

  /** The 404 raised for any request no earlier middleware answered. */
  const EndpointNotFound := HttpError(404, "Endpoint not found!")

  /** The final error handler: an HttpError keeps its status and message, anything else is 500. */
  function ErrorHandler(e: ServerError): (reply: ErrorReply)
    ensures e.HttpError? ==> reply == ErrorReply(e.status, e.message)
    ensures e.OtherError? ==> reply == ErrorReply(500, UnknownErrorMessage)
  {
    if e.HttpError? then ErrorReply(e.status, e.message) else ErrorReply(500, UnknownErrorMessage)
  }

  /** An unknown route is answered 404 "Endpoint not found!". */
  lemma UnknownRouteIs404()
    ensures ErrorHandler(EndpointNotFound) == ErrorReply(404, "Endpoint not found!")
  {
  }
}
