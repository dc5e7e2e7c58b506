/**
 * Go's context.Context as an immutable chain of WithValue frames, and the
 * context keys the xlog package declares.
 */
module Contexts {
  import opened Slog

  /**
   * A context key. Go compares interface keys by dynamic type and value, so a
   * key of the package's `ctxKey` type never equals a plain string with the
   * same text, and `ctxLoggerKey{}` equals only itself.
   */
  datatype Key =
    | CtxKey(name: string)   // xlog's unexported `ctxKey string`
    | StrKey(s: string)      // a plain Go string used as a key
    | LoggerKey              // xlog's `ctxLoggerKey{}`
    | OtherKey(id: nat)      // a key of some other package

  const CtxTenantKey: Key := CtxKey("tenant")
  const CtxReqIDKey: Key := CtxKey("request_id")
  const CtxUserKey: Key := CtxKey("user")
  const CtxMethodKey: Key := CtxKey("method")
  const CtxURIPathKey: Key := CtxKey("path")
  const CtxURIKey: Key := CtxKey("uri")

  /** context.Background() and context.WithValue(parent, key, val). */
  datatype Context = Background | WithValue(parent: Context, key: Key, val: Value)

  /** ctx.Value(key): the value of the nearest frame binding `key`, or nil. */
  function Lookup(ctx: Context, key: Key): (v: Value)
    ensures ctx.Background? ==> v == Nil
  {
    match ctx
    case Background => Nil
    case WithValue(parent, k, val) => if k == key then val else Lookup(parent, key)
  }
}
