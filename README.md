# xlog in Dafny

A model of the core of `xlog`, a Go package that enriches `log/slog` logging
with request-scoped fields. The model covers:

- **XlogHandler** (`Handler`, handler.go): option defaulting, level gating,
  derivation by appending attributes or group names, and the context extractors.
- **MultiHandler** (`MultiLogger`, multilogger.go): fan-out over an ordered list of
  member handlers. `Enabled` is an OR with early exit. `Handle` is fail-fast.
  `WithAttrs` and `WithGroup` map over the members into a fresh slice.
- **Per-request defaults** (`Defaults`, defaults.go): the projection of four context
  keys into attributes, and the `ReplaceAttr` hook that lowercases the level.
- **Context logger carrier** (`Xlog`, xlog.go): binding a logger in a context,
  resolving the nearest binding, the default fallback, `With`, and the level helpers.
- **Tenant resolution** (`Tenant`, echo/tenant.go): the cached precedence rule over
  the echo per-request store.
- **XlogHandlers inside a MultiHandler** (`Backends`): the two handler types composed,
  as the package lets a caller do.

Supporting modules: `Wrappers` (an `Option` for Go's nil), `Slog` (levels, values,
attributes, records, loggers), `Contexts` (Go contexts as immutable `WithValue`
chains, and the package's context keys).

How the Go constructs are represented:

- A slog handler that is never mutated (XlogHandler, MultiHandler) is a datatype.
  Its Go methods are datatype members. Loops in the source are methods with loop
  invariants. Each of these methods is proved against a specification function.
- The members of a MultiHandler are values of any type `B`. A `Backend<B>` record
  holds the four `slog.Handler` methods as pure functions.
- The echo context is a class. Its per-request store is a mutable `map` field.
- Library code that is not part of this model is passed in as a parameter:
  `render` stands for `fmt.Sprint`, and `levelName` stands for `slog.Level.String`.
- A `*slog.Logger` is a symbolic term: the handler it was created over, plus the
  argument lists of the `With` calls that derived it.

Where the code and the package's stated design differ, the model follows the code:

- `WithAttrs` and the extractors concatenate. No attribute is deduplicated or merged,
  so duplicate keys are possible.
- `MultiHandler.Handle` stops at the first member error. It is not best-effort.
- `XlogHandler.Handle` computes the base and extracted attributes and then discards
  them. It delivers nothing and always returns nil.
- There is no separate attribute-set slot in the context. Only a logger is bound.

## Model

| member | source | states |
|---|---|---|
| `Handler.NewXlogHandler` | handler.go:37-59 | Fills exactly the unset options: nil level becomes debug, zero timeout becomes 10s, nil marshaler becomes JSON, nil extractor list becomes empty. Set fields and the other fields are kept. The new handler has no attributes and no groups. |
| `Handler.DefaultsFilledComplete` | handler.go:37-52 | Defaulted options are complete. Defaulting them again changes nothing. Options that are already complete are returned unchanged. |
| `Handler.XlogHandler.Enabled` | handler.go:63-65 | True exactly when the level is at or above the option's level. Requires a non-nil level, since Go panics on a nil Leveler. |
| `Handler.EnabledMonotone` | handler.go:63-65 | A level that passes implies that every higher level passes. |
| `Handler.DefaultLevelIsDebug` | handler.go:37-65 | A handler built without a level admits exactly the levels at or above debug. |
| `Handler.XlogHandler.Handle` | handler.go:67-72 | Always returns nil, after running the extractors. |
| `Handler.XlogHandler.WithAttrs` | handler.go:74-80 | The new handler's attributes are the old ones followed by the given ones. Option and groups are unchanged. |
| `Handler.WithAttrsAccumulates` | handler.go:74-80 | Two WithAttrs calls equal one call with the concatenation. WithAttrs of nothing is the identity. |
| `Handler.XlogHandler.WithGroup` | handler.go:82-93 | The empty name returns the receiver itself. Any other name is appended to the groups, with option and attributes unchanged. |
| `Handler.WithAttrsWithGroupCommute` | handler.go:74-93 | Adding attributes after a group equals adding them before it, so attributes are never scoped under a group. |
| `Handler.ContextExtractor` | handler.go:95-101 | The result is the concatenation of every extractor's output in registration order. It is empty for an empty list. |
| `Handler.ExtractedAppend` | handler.go:95-101 | Extracting with two lists registered one after the other concatenates their outputs. |
| `Handler.ExtractedLength` | handler.go:95-101 | The output length is the sum of the extractors' output lengths. |
| `Handler.ExtractFromContext` | handler.go:103-111 | The extractor yields exactly one attribute per key, in key order. Each attribute's value is the context's value for that key, and nil when the key is absent. Keys must be plain strings. |
| `Handler.ExtractKeys` | handler.go:104-110 | The closure's append loop computes exactly the extractor's output. |
| `Handler.StringKeyMissesTypedKey` | handler.go:107 | A plain-string key does not see a value stored under the typed key of the same name. |
| `MultiLogger.NewMultiHandler` | multilogger.go:13-15 | The members are exactly the given handlers, in order. |
| `MultiLogger.MultiHandler.Enabled` | multilogger.go:17-24 | True exactly when some member is enabled. Members are consulted in order, up to the first enabled one. An empty MultiHandler is never enabled. |
| `MultiLogger.MultiHandler.Handle` | multilogger.go:26-34 | Returns the first member error, or nil. Calls the members in order, up to and including the first failing one, each with the record. |
| `MultiLogger.FirstErrorNoneIff` | multilogger.go:26-34 | The result is nil exactly when every member returned nil. In that case all members were called. |
| `MultiLogger.FirstErrorAt` | multilogger.go:27-32 | When member k is the first to fail, the result is k's error and exactly members 0..k are called. Later members are not called. |
| `MultiLogger.FirstErrorIsAMemberError` | multilogger.go:27-32 | A non-nil result is the error of the last member called, and every member called before it succeeded. |
| `MultiLogger.EmptyHandleSucceeds` | multilogger.go:26-34 | With no members, Handle returns nil and calls nobody. |
| `MultiLogger.MultiHandler.WithAttrs` | multilogger.go:36-42 | Returns a new MultiHandler of the same length. Member i is member i's WithAttrs, in order. |
| `MultiLogger.MultiHandler.WithGroup` | multilogger.go:44-50 | Returns a new MultiHandler of the same length. Member i is member i's WithGroup, with the empty name passed on rather than short-circuited. |
| `Backends.XlogBackend` | handler.go:63-93 | As a MultiHandler member, an XlogHandler is enabled exactly at or above its own level, and its Handle always returns nil. |
| `Backends.XlogMembersNeverFail` | multilogger.go:26-34 | A MultiHandler over XlogHandlers always returns nil, after calling every member. |
| `Backends.XlogMembersEnabledAtLowest` | multilogger.go:17-24 | A MultiHandler over XlogHandlers is enabled at a level exactly when the level reaches the lowest member threshold. |
| `Backends.InfoErrorPairAdmitsWarn` | multilogger.go:17-24 | With members at the info and error thresholds, a warn record is wanted and a debug record is not. |
| `Defaults.DefaultPerRequestArgs` | defaults.go:25-41 | The result equals the projection of tenant, request_id, method and path, in that order, skipping keys whose context value is nil. |
| `Defaults.ProjectedSound` | defaults.go:28-39 | Every emitted attribute's key is one of the names. Its context value is non-nil, and the attribute carries the rendering of that value. |
| `Defaults.ProjectedComplete` | defaults.go:28-39 | Every name with a non-nil context value is emitted. |
| `Defaults.ProjectedOrdered` | defaults.go:25-41 | The emitted keys are a subsequence of the names: same order, never more of them. |
| `Defaults.ProjectedDistinct` | defaults.go:25-41 | Distinct names give pairwise distinct emitted keys. |
| `Defaults.ProjectedEmptyContext` | defaults.go:25-41 | An empty context yields no attributes. |
| `Defaults.PerRequestArgsShape` | defaults.go:15-41 | At most four attributes with distinct keys, in the order tenant, request_id, method, path. The user and uri keys are never emitted. |
| `Defaults.PerRequestArgsAllPresent` | defaults.go:25-41 | When all four values are present, exactly the four keys are emitted, in order. |
| `Defaults.Lower` | defaults.go:47 | Lowercasing keeps the length, lowercases each letter, and leaves no upper-case letter. |
| `Defaults.LowerIdempotent` | defaults.go:47 | Lowercasing twice is lowercasing once. |
| `Defaults.DefaultReplaceAttr` | defaults.go:43-50 | A level-keyed attribute becomes the lowercased level name under the same key. Any other attribute is returned unchanged. Requires a Level value under the level key, since the type assertion panics otherwise. |
| `Defaults.ReplaceAttrNotReapplicable` | defaults.go:44-47 | The rewritten level attribute holds a string, so applying the hook again would panic. |
| `Defaults.ReplaceAttrIgnoresGroups` | defaults.go:43-50 | The result does not depend on the groups. |
| `Xlog.ContextWithLogger` | xlog.go:17-19 | The new context binds the logger under the private key. Every other key looks up as before. |
| `Xlog.LoggerFromContext` | xlog.go:22-27 | Returns the nearest binding when it is a non-nil logger. Otherwise returns the default logger. |
| `Xlog.BindThenResolve` | xlog.go:17-27 | A non-nil logger bound in a context is the one resolved from it. |
| `Xlog.NilBindingMasksOuter` | xlog.go:17-27 | A nil binding resolves to the default logger, even over an outer real binding. |
| `Xlog.UnboundResolvesToDefault` | xlog.go:22-27 | A context chain that never binds the logger key resolves to the default logger. |
| `Xlog.NearestBindingWins` | xlog.go:17-27 | Binding l1 and then l2 resolves to l2, while the intermediate context still resolves to l1. |
| `Xlog.With` | xlog.go:31-42 | The new request's context resolves to the old context's logger derived with the arguments. The new context is a child of the old one and leaves every other key unchanged. The other request fields are unchanged. |
| `Xlog.WithTwice` | xlog.go:31-42 | Two With calls accumulate their argument lists on the resolved logger, oldest first. |
| `Xlog.Debug` | xlog.go:48-50 | Logs through the context-resolved logger at the debug level, with the caller's arguments. |
| `Xlog.Info` | xlog.go:52-54 | Logs through the context-resolved logger at the info level, with the caller's arguments. |
| `Xlog.Warn` | xlog.go:56-58 | Logs through the context-resolved logger at the warn level, with the caller's arguments. |
| `Xlog.Error` | xlog.go:60-62 | Logs through the context-resolved logger at the error level. An `error` attribute with the error's message follows all the caller's arguments. |
| `Xlog.HelpersOrdered` | xlog.go:48-62 | The four helpers use strictly increasing levels and the same resolved logger. |
| `Tenant.Cached` | echo/tenant.go:9 | The cache hits exactly when the store holds a string under "tenant", and yields that string. |
| `Tenant.NonStringIsNoCacheHit` | echo/tenant.go:9-11 | A non-string value under "tenant", nil included, is not a cache hit. |
| `Tenant.PrecedenceOrder` | echo/tenant.go:13-19 | A non-empty query tenantId wins. Otherwise a non-empty tenant header wins. Otherwise the path parameter is used. The result is empty exactly when all three are empty. |
| `Tenant.GetTenant` | echo/tenant.go:8-23 | On a cache hit, returns the cached tenant and leaves the store untouched. Otherwise returns the sourced tenant, possibly "", and writes it under "tenant" only. Afterwards the store caches the result. |
| `Tenant.SetTenant` | echo/tenant.go:26-29 | Stores the tenant under "tenant", changes no other slot, and returns it. |
| `Tenant.GetTenantTwice` | echo/tenant.go:8-23 | A second GetTenant returns the first one's tenant and leaves the store as the first one left it. |
| `Tenant.SetThenGet` | echo/tenant.go:8-29 | After SetTenant, GetTenant returns the tenant that was set. |

## Left out

- Handler.ExtractFromContext: requires plain-string keys when the extractor is built. Go only panics later, when the extractor runs on a non-string key.
- Handler.XlogHandler.Enabled: requires a non-nil level. Go would panic on a nil Leveler, which `NewXlogHandler` never leaves.
- Defaults.DefaultReplaceAttr: requires a Level value under the level key. Go's type assertion panics otherwise.
- Defaults.Lower: models `strings.ToLower` on ASCII letters only. Unicode case mapping is not modelled. slog's level names are ASCII.
- Xlog.Error: takes a non-nil error. Calling `err.Error()` on a nil error panics in Go.
- A `slog.Leveler` is a fixed level. A mutable `slog.LevelVar` is not modelled.
- The writer, marshaler, timeout, AddSource and ReplaceAttr options are carried through defaulting but never used, as in the code. The writer is not defaulted, although a field comment says it defaults to stdout.
- `fmt.Sprint` and `slog.Level.String` are parameters (`render`, `levelName`), because their code is not part of this model.
- Logger internals are not modelled: slog's `Logger.With`, argument-to-attribute parsing and the record pipeline are outside this model. A logger is a symbolic term. The level helpers return a description of the call they make.
- The process default logger is a constant. `slog.SetDefault` and concurrent replacement are not modelled.
- Contexts are chains of `WithValue` frames only. Cancellation and deadlines do not affect value lookup.
- Extractors and member handlers are total pure functions. Their panics and side effects are not modelled. For `MultiHandler.Handle`, a ghost trace records which members were called, and the record is passed by value, which is the copy the code makes.
- Go slice aliasing is not modelled. `append(h.attrs, ...)` may share a backing array between two handlers derived from one parent. The model uses immutable sequences and claims only that the parent is unchanged.
- The `MultiHandler` derivations fill a fresh array. Its slots hold the old members until they are overwritten, where Go's `make` holds nil.
- `Header.Get` canonicalises header names. The model looks up the canonical name "Tenant" directly, and header-key canonicalisation in general is not modelled. Locking of echo's store is not modelled.
- middleware.go, echo/xlogecho.go and echo_adapter.go are not part of this model. They are echo wiring that duplicates `With`, and the adapter calls helpers the package does not define. One quirk there: their `Debug` logs at the info level.
- The tests and benchmarks are not part of this model. They call constructors that do not exist in the code, and they expect context attributes in output that `XlogHandler.Handle` never produces.
