/**
 * The RPC layer's request context and the `isAuthed` middleware behind
 * `authedProcedure`. The logger becomes an output sequence of entries, and the
 * downstream handler `next` a function whose every invocation is recorded.
 */
module Trpc {
  import opened Wrappers

  datatype ErrorCode = Unauthorized | BadRequest | NotFound | InternalServerError

  /** A `TRPCError`: a code and, when the thrower gives one, a message. */
  datatype TrpcError = TrpcError(code: ErrorCode, message: Option<string>)

  /** The logger level `isAuthed` writes at. */
  datatype LogLevel = Error
  datatype LogEntry = LogEntry(level: LogLevel, message: string)

  const UnauthorizedMessage: string := "Unauthorized access"

  /** The session user; only its `id` is read by the modelled code. */
  datatype User = User(id: string)
  datatype Session = Session(user: Option<User>)

  /** The per-request context as the session resolver builds it. */
  datatype Context = Context(session: Option<Session>)

  /** The context handed downstream: the original one extended with a definite `user`. */
  datatype AuthedContext = AuthedContext(session: Option<Session>, user: User)

  /** What a middleware ends with: the value `next` produced, or an error it threw itself. */
  datatype Outcome<R> = Continued(value: R) | Threw(error: TrpcError)

  /**
   * One run of a middleware: its outcome, the entries it logged, and the
   * contexts it passed to `next`, in order.
   */
  datatype MiddlewareRun<R> = MiddlewareRun(outcome: Outcome<R>, log: seq<LogEntry>, nextCalls: seq<AuthedContext>)

  /** `ctx.session?.user`: absent when there is no session or the session has no user. */
  function SessionUser(ctx: Context): Option<User> {
    if ctx.session.Some? then ctx.session.value.user else None
  }

  function Extend(ctx: Context, user: User): AuthedContext {
    AuthedContext(ctx.session, user)
  }

  /** `isAuthed`: refuse a request without a session user, otherwise continue with it. */
  function IsAuthed<R>(ctx: Context, next: AuthedContext -> R): (r: MiddlewareRun<R>)
    ensures r.outcome.Threw? <==> SessionUser(ctx).None?
    ensures SessionUser(ctx).None? ==>
              r.outcome == Threw(TrpcError(Unauthorized, None)) &&
              r.nextCalls == [] &&
              r.log == [LogEntry(Error, UnauthorizedMessage)]
    ensures SessionUser(ctx).Some? ==>
              |r.nextCalls| == 1 &&
              r.nextCalls[0].user == SessionUser(ctx).value &&
              r.nextCalls[0].session == ctx.session &&
              r.outcome == Continued(next(r.nextCalls[0])) &&
              r.log == []
  {
    match SessionUser(ctx)
    case None =>
      MiddlewareRun(Threw(TrpcError(Unauthorized, None)), [LogEntry(Error, UnauthorizedMessage)], [])
    case Some(user) =>
      var extended := Extend(ctx, user);
      MiddlewareRun(Continued(next(extended)), [], [extended])
  }

  /** Without a session user, nothing `next` would do can influence the run: it is never consulted. */
  lemma UnauthenticatedIgnoresNext<R>(ctx: Context, next1: AuthedContext -> R, next2: AuthedContext -> R)
    requires SessionUser(ctx).None?
    ensures IsAuthed(ctx, next1) == IsAuthed(ctx, next2)
  {
  }

  /**
   * With a session user, the run is exactly that of `next` on the extended
   * context: two handlers that agree there give the same run.
   */
  lemma AuthenticatedIsTransparent<R>(ctx: Context, next1: AuthedContext -> R, next2: AuthedContext -> R)
    requires SessionUser(ctx).Some?
    requires next1(Extend(ctx, SessionUser(ctx).value)) == next2(Extend(ctx, SessionUser(ctx).value))
    ensures IsAuthed(ctx, next1) == IsAuthed(ctx, next2)
  {
  }
}
