/**
 * The context logger carrier (xlog.go): a logger bound in a context under a
 * private key, resolved by nearest binding with the process default as the
 * fallback, and the level helpers that log through it.
 */
module Xlog {
  import opened Wrappers
  import opened Slog
  import opened Contexts

  /** slog.Default(): the process-wide logger, an opaque constant here. */
  const DefaultLogger: Logger := Logger(0, [])

  /** An *http.Request: its method (`verb`), its URL path and its context. */
  datatype Request = Request(verb: string, path: string, ctx: Context)

  /** ContextWithLogger: a child context binding `logger` (possibly a nil pointer) under the private key. */
  function ContextWithLogger(ctx: Context, logger: Option<Logger>): (c: Context)
    ensures Lookup(c, LoggerKey) == LoggerRef(logger)
    ensures forall k :: k != LoggerKey ==> Lookup(c, k) == Lookup(ctx, k)
  {
    WithValue(ctx, LoggerKey, LoggerRef(logger))
  }

  /**
   * LoggerFromContext: the logger of the nearest binding when that binding is
   * a non-nil *slog.Logger; otherwise the default logger.
   */
  function LoggerFromContext(ctx: Context): (l: Logger)
    ensures Lookup(ctx, LoggerKey).LoggerRef? && Lookup(ctx, LoggerKey).logger.Some?
            ==> l == Lookup(ctx, LoggerKey).logger.value
    ensures !(Lookup(ctx, LoggerKey).LoggerRef? && Lookup(ctx, LoggerKey).logger.Some?)
            ==> l == DefaultLogger
  {
    match Lookup(ctx, LoggerKey)
    case LoggerRef(Some(l)) => l
    case _ => DefaultLogger
  }

  /** A logger bound in a context is the one resolved from it. */
  lemma BindThenResolve(ctx: Context, l: Logger)
    ensures LoggerFromContext(ContextWithLogger(ctx, Some(l))) == l
  {
  }

  /**
   * Binding a nil logger resolves to the default, even when an outer context
   * binds a real logger: the nil binding is the nearest one and masks it.
   */
  lemma NilBindingMasksOuter(ctx: Context)
    ensures LoggerFromContext(ContextWithLogger(ctx, None)) == DefaultLogger
  {
  }

  /** A context chain that never binds the logger key resolves to the default logger. */
  lemma {:induction false} UnboundResolvesToDefault(ctx: Context)
    requires forall k, v :: Bound(ctx, k, v) ==> k != LoggerKey
    ensures LoggerFromContext(ctx) == DefaultLogger
  {
    if ctx.WithValue? {
      assert Bound(ctx, ctx.key, ctx.val);
      forall k, v | Bound(ctx.parent, k, v) ensures k != LoggerKey {
        assert Bound(ctx, k, v);
      }
      UnboundResolvesToDefault(ctx.parent);
      assert Lookup(ctx, LoggerKey) == Lookup(ctx.parent, LoggerKey);
    }
  }

  /** Some frame of the chain binds `k` to `v`. */
  predicate Bound(ctx: Context, k: Key, v: Value)
  {
    ctx.WithValue? && ((ctx.key == k && ctx.val == v) || Bound(ctx.parent, k, v))
  }

  /**
   * The nearest binding wins: binding l1 and then l2 resolves to l2 in the
   * child, while the intermediate context still resolves to l1.
   */
  lemma NearestBindingWins(ctx: Context, l1: Logger, l2: Logger)
    ensures LoggerFromContext(ContextWithLogger(ContextWithLogger(ctx, Some(l1)), Some(l2))) == l2
    ensures LoggerFromContext(ContextWithLogger(ctx, Some(l1))) == l1
  {
  }

  /**
   * With: the request, copied with a context in which the logger resolved
   * from the old context, derived with `args`, is bound.
   */
  function With(r: Request, args: seq<Arg>): (r': Request)
    ensures LoggerFromContext(r'.ctx) == LoggerWith(LoggerFromContext(r.ctx), args)
    ensures r'.verb == r.verb && r'.path == r.path
    ensures forall k :: k != LoggerKey ==> Lookup(r'.ctx, k) == Lookup(r.ctx, k)
    ensures r'.ctx.WithValue? && r'.ctx.parent == r.ctx
  {
    var logger := LoggerWith(LoggerFromContext(r.ctx), args);
    r.(ctx := ContextWithLogger(r.ctx, Some(logger)))
  }

  /** Two With calls accumulate their argument lists on the resolved logger, oldest first. */
  lemma WithTwice(r: Request, a: seq<Arg>, b: seq<Arg>)
    requires a != [] && b != []
    ensures LoggerFromContext(With(With(r, a), b).ctx).derived
         == LoggerFromContext(r.ctx).derived + [a, b]
  {
  }

  /** One call to a slog.Logger level method: the logger, the context, the level, the message and the arguments. */
  datatype LogCall = LogCall(logger: Logger, ctx: Context, level: Level, msg: string, args: seq<Arg>)

  /** Debug: logs through the context's logger at the debug level. */
  function Debug(c: Context, msg: string, args: seq<Arg>): (call: LogCall)
    ensures call.logger == LoggerFromContext(c) && call.ctx == c
    ensures call.level == LevelDebug && call.msg == msg && call.args == args
  {
    LogCall(LoggerFromContext(c), c, LevelDebug, msg, args)
  }

  /** Info: logs through the context's logger at the info level. */
  function Info(c: Context, msg: string, args: seq<Arg>): (call: LogCall)
    ensures call.logger == LoggerFromContext(c) && call.ctx == c
    ensures call.level == LevelInfo && call.msg == msg && call.args == args
  {
    LogCall(LoggerFromContext(c), c, LevelInfo, msg, args)
  }

  /** Warn: logs through the context's logger at the warn level. */
  function Warn(c: Context, msg: string, args: seq<Arg>): (call: LogCall)
    ensures call.logger == LoggerFromContext(c) && call.ctx == c
    ensures call.level == LevelWarn && call.msg == msg && call.args == args
  {
    LogCall(LoggerFromContext(c), c, LevelWarn, msg, args)
  }

  /**
   * Error: logs through the context's logger at the error level, with an
   * "error" attribute holding the error's message after all the caller's arguments.
   */
  function Error(c: Context, msg: string, err: Slog.Error, args: seq<Arg>): (call: LogCall)
    ensures call.logger == LoggerFromContext(c) && call.ctx == c
    ensures call.level == LevelError && call.msg == msg
    ensures |call.args| == |args| + 1 && call.args[..|args|] == args
    ensures call.args[|args|] == AttrArg(Attr("error", Str(err.message)))
  {
    LogCall(LoggerFromContext(c), c, LevelError, msg, args + [AttrArg(Attr("error", Str(err.message)))])
  }

  /** The four helpers use increasing levels and the same resolved logger. */
  lemma HelpersOrdered(c: Context, msg: string, err: Slog.Error, args: seq<Arg>)
    ensures Debug(c, msg, args).level < Info(c, msg, args).level
            < Warn(c, msg, args).level < Error(c, msg, err, args).level
    ensures Debug(c, msg, args).logger == Error(c, msg, err, args).logger
  {
  }
}
