/**
 * XlogHandler (handler.go): a slog handler whose options are defaulted at
 * construction, which gates records on a level threshold, and which derives
 * new handlers by appending attributes or group names. Its extractors pull
 * attributes out of a request context.
 */
module Handler {
  import opened Wrappers
  import opened Slog
  import opened Contexts

  /** A function that pulls attributes out of a context. */
  type Extractor = Context -> seq<Attr>

  /** The marshaler option: json.Marshal or a function the caller supplied. */
  datatype Marshaler = JsonMarshal | CustomMarshaler(id: nat)

  /** 10 * time.Second, in nanoseconds (time.Duration). */
  const DefaultTimeout: int := 10_000_000_000

  /**
   * The Option struct. Every field that Go lets be nil is an Option here; the
   * writer is an opaque io.Writer identity.
   */
  datatype Options = Options(
    level: Option<Level>,
    timeout: int,
    writer: Option<nat>,
    marshaler: Option<Marshaler>,
    attrFromContext: Option<seq<Extractor>>,
    addSource: bool,
    replaceAttr: Option<(seq<string>, Attr) -> Attr>)

  /**
   * `r` is `o` with its unset fields defaulted: nil level to debug, zero
   * timeout to ten seconds, nil marshaler to json.Marshal, nil extractor list
   * to the empty list. Every other field, and every field already set, is `o`'s.
   */
  ghost predicate DefaultsFilled(o: Options, r: Options)
  {
    && r.level == (if o.level.None? then Some(LevelDebug) else o.level)
    && r.timeout == (if o.timeout == 0 then DefaultTimeout else o.timeout)
    && r.marshaler == (if o.marshaler.None? then Some(JsonMarshal) else o.marshaler)
    && r.attrFromContext == (if o.attrFromContext.None? then Some([]) else o.attrFromContext)
    && r.writer == o.writer
    && r.addSource == o.addSource
    && r.replaceAttr == o.replaceAttr
  }

  /** The fields NewXlogHandler guarantees are set. */
  ghost predicate Complete(o: Options)
  {
    o.level.Some? && o.timeout != 0 && o.marshaler.Some? && o.attrFromContext.Some?
  }

  /** Defaulting completes the options, and complete options are left as they are. */
  lemma DefaultsFilledComplete(o: Options, r: Options)
    requires DefaultsFilled(o, r)
    ensures Complete(r)
    ensures DefaultsFilled(r, r)
    ensures Complete(o) ==> r == o
  {
  }

  datatype XlogHandler = XlogHandler(option: Options, attrs: seq<Attr>, groups: seq<string>) {

    /** Enabled: the record's level is at or above the option's level. */
    function Enabled(ctx: Context, level: Level): (b: bool)
      requires option.level.Some?
      ensures b <==> option.level.value <= level
    {
      level >= option.level.value
    }

    /**
     * Handle: computes the base attributes followed by the extracted ones,
     * then drops them; no record reaches any output and the result is nil.
     */
    method Handle(ctx: Context, record: Record) returns (err: Option<Error>)
      ensures err == None
    {
      var fromContext := ContextExtractor(ctx, option.attrFromContext.GetOr([]));
      var combined := attrs + fromContext;
      err := None;
    }

    /** WithAttrs: a new handler whose attributes are these followed by `extra`. */
    function WithAttrs(extra: seq<Attr>): (r: XlogHandler)
      ensures r.option == option && r.groups == groups
      ensures |r.attrs| == |attrs| + |extra| && r.attrs[..|attrs|] == attrs && r.attrs[|attrs|..] == extra
    {
      XlogHandler(option, attrs + extra, groups)
    }

    /** WithGroup: the empty name gives back this handler; any other name is appended. */
    function WithGroup(name: string): (r: XlogHandler)
      ensures name == "" ==> r == this
      ensures name != "" ==> r.option == option && r.attrs == attrs && r.groups == groups + [name]
    {
      if name == "" then this else XlogHandler(option, attrs, groups + [name])
    }
  }

  /**
   * Option.NewXlogHandler: patches the unset fields of a copy of `o`, then
   * builds a handler with no attributes and no groups.
   */
  method NewXlogHandler(o: Options) returns (h: XlogHandler)
    ensures DefaultsFilled(o, h.option) && Complete(h.option)
    ensures h.attrs == [] && h.groups == []
  {
    var opt := o;
    if opt.level.None? {
      opt := opt.(level := Some(LevelDebug));
    }
    if opt.timeout == 0 {
      opt := opt.(timeout := DefaultTimeout);
    }
    if opt.marshaler.None? {
      opt := opt.(marshaler := Some(JsonMarshal));
    }
    if opt.attrFromContext.None? {
      opt := opt.(attrFromContext := Some([]));
    }
    h := XlogHandler(opt, [], []);
  }

  /** Enabled is monotone in the level: what passes at one level passes at every higher one. */
  lemma EnabledMonotone(h: XlogHandler, ctx: Context, lo: Level, hi: Level)
    requires h.option.level.Some? && lo <= hi && h.Enabled(ctx, lo)
    ensures h.Enabled(ctx, hi)
  {
  }

  /** A handler built without a level admits exactly the debug level and above. */
  lemma DefaultLevelIsDebug(o: Options, h: XlogHandler, ctx: Context, level: Level)
    requires o.level.None? && DefaultsFilled(o, h.option)
    ensures h.Enabled(ctx, level) <==> level >= LevelDebug
  {
  }

  /** Successive WithAttrs calls accumulate, in call order, as one call would. */
  lemma WithAttrsAccumulates(h: XlogHandler, a: seq<Attr>, b: seq<Attr>)
    ensures h.WithAttrs(a).WithAttrs(b) == h.WithAttrs(a + b)
    ensures h.WithAttrs([]) == h
  {
    assert h.attrs + a + b == h.attrs + (a + b);
    assert h.attrs + [] == h.attrs;
  }

  /**
   * Attributes and groups are kept apart: adding attributes after a group
   * gives the same handler as adding them before it, so attributes are never
   * scoped under the groups opened before them.
   */
  lemma WithAttrsWithGroupCommute(h: XlogHandler, extra: seq<Attr>, name: string)
    ensures h.WithGroup(name).WithAttrs(extra) == h.WithAttrs(extra).WithGroup(name)
  {
  }

  /**
   * The concatenation of every extractor's output on `ctx`, in registration
   * order.
   */
  function Extracted(ctx: Context, fns: seq<Extractor>): seq<Attr>
  {
    if |fns| == 0 then [] else fns[0](ctx) + Extracted(ctx, fns[1..])
  }

  /** The sum of the extractors' output lengths on `ctx`. */
  function ExtractedCount(ctx: Context, fns: seq<Extractor>): nat
  {
    if |fns| == 0 then 0 else |fns[0](ctx)| + ExtractedCount(ctx, fns[1..])
  }

  /** Registering two lists of extractors one after the other concatenates their outputs. */
  lemma {:induction false} ExtractedAppend(ctx: Context, f: seq<Extractor>, g: seq<Extractor>)
    ensures Extracted(ctx, f + g) == Extracted(ctx, f) + Extracted(ctx, g)
  {
    if |f| == 0 {
      assert f + g == g;
    } else {
      assert (f + g)[1..] == f[1..] + g;
      ExtractedAppend(ctx, f[1..], g);
    }
  }

  /** The output holds exactly as many attributes as all the parts together. */
  lemma {:induction false} ExtractedLength(ctx: Context, fns: seq<Extractor>)
    ensures |Extracted(ctx, fns)| == ExtractedCount(ctx, fns)
  {
    if |fns| > 0 {
      ExtractedLength(ctx, fns[1..]);
    }
  }

  /**
   * ContextExtractor: runs every extractor on `ctx` in order and concatenates
   * their outputs; no attribute is merged or dropped.
   */
  method ContextExtractor(ctx: Context, fns: seq<Extractor>) returns (attrs: seq<Attr>)
    ensures attrs == Extracted(ctx, fns)
    ensures fns == [] ==> attrs == []
  {
    attrs := [];
    for i := 0 to |fns|
      invariant attrs == Extracted(ctx, fns[..i])
    {
      assert Extracted(ctx, [fns[i]]) == fns[i](ctx) + Extracted(ctx, []);
      ExtractedAppend(ctx, fns[..i], [fns[i]]);
      assert fns[..i + 1] == fns[..i] + [fns[i]];
      attrs := attrs + fns[i](ctx);
    }
    assert fns[..|fns|] == fns;
  }

  /** Every key is a plain Go string; any other key makes `key.(string)` panic. */
  predicate AllStringKeys(keys: seq<Key>)
  {
    forall i :: 0 <= i < |keys| ==> keys[i].StrKey?
  }

  /**
   * ExtractFromContext(keys...): an extractor giving one attribute per key,
   * in key order, whose value is the context's value for that key (nil when
   * the key is absent: absent keys are not skipped).
   */
  function ExtractFromContext(keys: seq<Key>): (f: Extractor)
    requires AllStringKeys(keys)
    ensures forall ctx :: |f(ctx)| == |keys|
    ensures forall ctx, i :: 0 <= i < |keys| ==> f(ctx)[i] == Attr(keys[i].s, Lookup(ctx, keys[i]))
  {
    ctx => seq(|keys|, i requires 0 <= i < |keys| => Attr(keys[i].s, Lookup(ctx, keys[i])))
  }

  /** The body of the closure ExtractFromContext returns: one append per key. */
  method ExtractKeys(keys: seq<Key>, ctx: Context) returns (attrs: seq<Attr>)
    requires AllStringKeys(keys)
    ensures attrs == ExtractFromContext(keys)(ctx)
  {
    attrs := [];
    for i := 0 to |keys|
      invariant |attrs| == i
      invariant forall j :: 0 <= j < i ==> attrs[j] == Attr(keys[j].s, Lookup(ctx, keys[j]))
    {
      attrs := attrs + [Attr(keys[i].s, Lookup(ctx, keys[i]))];
    }
  }

  /**
   * A plain-string key never sees a value stored under the package's typed
   * key of the same name: ExtractFromContext("tenant") yields tenant=nil on a
   * context that holds CtxTenantKey.
   */
  lemma StringKeyMissesTypedKey(ctx: Context, name: string, v: Value)
    ensures ExtractFromContext([StrKey(name)])(WithValue(ctx, CtxKey(name), v))
         == ExtractFromContext([StrKey(name)])(ctx)
  {
  }
}
