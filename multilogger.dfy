/**
 * MultiHandler (multilogger.go): fans one logging stream out to an ordered
 * list of member handlers. The members are values of any type B; what they do
 * is given by a Backend record holding the four slog.Handler methods.
 */
module MultiLogger {
  import opened Wrappers
  import opened Slog
  import opened Contexts

  /** The slog.Handler interface of member handlers of type B. */
  datatype Backend<!B> = Backend(
    enabled: (B, Context, Level) -> bool,
    handle: (B, Context, Record) -> Option<Error>,
    withAttrs: (B, seq<Attr>) -> B,
    withGroup: (B, string) -> B)

  /** What each member returns when handed `r`, in member order. */
  function Outcomes<B>(hs: seq<B>, ops: Backend<B>, ctx: Context, r: Record): (outs: seq<Option<Error>>)
    ensures |outs| == |hs|
    ensures forall i :: 0 <= i < |hs| ==> outs[i] == ops.handle(hs[i], ctx, r)
  {
    seq(|hs|, i requires 0 <= i < |hs| => ops.handle(hs[i], ctx, r))
  }

  /** The first error in a list of outcomes, or nil when there is none. */
  function FirstError(outs: seq<Option<Error>>): Option<Error>
  {
    if |outs| == 0 then None else if outs[0].Some? then outs[0] else FirstError(outs[1..])
  }

  /** How many members a fail-fast pass calls: up to and including the first failing one. */
  function Attempted(outs: seq<Option<Error>>): nat
  {
    if |outs| == 0 then 0 else if outs[0].Some? then 1 else 1 + Attempted(outs[1..])
  }

  /** The first error is nil exactly when every member succeeded. */
  lemma {:induction false} FirstErrorNoneIff(outs: seq<Option<Error>>)
    ensures FirstError(outs).None? <==> forall i :: 0 <= i < |outs| ==> outs[i].None?
    ensures FirstError(outs).None? ==> Attempted(outs) == |outs|
  {
    if |outs| > 0 {
      FirstErrorNoneIff(outs[1..]);
      if outs[0].None? {
        assert forall i :: 1 <= i < |outs| ==> outs[i] == outs[1..][i - 1];
      }
    }
  }

  /**
   * When member k is the first to fail, the pass reports k's error and calls
   * exactly the members 0..k: the ones after k are never called.
   */
  lemma {:induction false} FirstErrorAt(outs: seq<Option<Error>>, k: nat)
    requires k < |outs| && outs[k].Some?
    requires forall j :: 0 <= j < k ==> outs[j].None?
    ensures FirstError(outs) == outs[k]
    ensures Attempted(outs) == k + 1
  {
    if k > 0 {
      FirstErrorAt(outs[1..], k - 1);
    }
  }

  /** A non-nil result is some member's error, and every member before that one succeeded. */
  lemma {:induction false} FirstErrorIsAMemberError(outs: seq<Option<Error>>)
    requires FirstError(outs).Some?
    ensures Attempted(outs) <= |outs|
    ensures outs[Attempted(outs) - 1] == FirstError(outs)
    ensures forall j :: 0 <= j < Attempted(outs) - 1 ==> outs[j].None?
  {
    if outs[0].None? {
      FirstErrorIsAMemberError(outs[1..]);
    }
  }

  datatype MultiHandler<B> = MultiHandler(handlers: seq<B>) {

    /**
     * Enabled: asks the members in order and stops at the first that is
     * enabled; true exactly when some member is. `consulted` is the index of
     * that member, or the member count when none is.
     */
    method Enabled(ops: Backend<B>, ctx: Context, lvl: Level) returns (b: bool, ghost consulted: nat)
      ensures b <==> exists i :: 0 <= i < |handlers| && ops.enabled(handlers[i], ctx, lvl)
      ensures b ==> consulted < |handlers| && ops.enabled(handlers[consulted], ctx, lvl)
      ensures !b ==> consulted == |handlers|
      ensures forall j :: 0 <= j < consulted ==> !ops.enabled(handlers[j], ctx, lvl)
    {
      var i := 0;
      while i < |handlers|
        invariant i <= |handlers|
        invariant forall j :: 0 <= j < i ==> !ops.enabled(handlers[j], ctx, lvl)
      {
        if ops.enabled(handlers[i], ctx, lvl) {
          return true, i;
        }
        i := i + 1;
      }
      return false, i;
    }

    /**
     * Handle: hands each member its own copy of `r`, in order, and returns the
     * first error at once. `called` lists the members called, in call order.
     */
    method Handle(ops: Backend<B>, ctx: Context, r: Record) returns (err: Option<Error>, ghost called: seq<nat>)
      ensures err == FirstError(Outcomes(handlers, ops, ctx, r))
      ensures called == seq(Attempted(Outcomes(handlers, ops, ctx, r)), j => j)
    {
      ghost var outs := Outcomes(handlers, ops, ctx, r);
      called := [];
      var i := 0;
      while i < |handlers|
        invariant i <= |handlers|
        invariant forall j :: 0 <= j < i ==> outs[j].None?
        invariant called == seq(i, j => j)
      {
        var rr := r;
        called := called + [i];
        var e := ops.handle(handlers[i], ctx, rr);
        if e.Some? {
          FirstErrorAt(outs, i);
          return e, called;
        }
        i := i + 1;
      }
      FirstErrorNoneIff(outs);
      return None, called;
    }

    /** WithAttrs: a new MultiHandler of every member's WithAttrs, in the same order. */
    method WithAttrs(ops: Backend<B>, attrs: seq<Attr>) returns (m: MultiHandler<B>)
      ensures |m.handlers| == |handlers|
      ensures forall i :: 0 <= i < |handlers| ==> m.handlers[i] == ops.withAttrs(handlers[i], attrs)
    {
      // a fresh slice of the members' length; the old members only fill it until overwritten
      var news := new B[|handlers|](j requires 0 <= j < |handlers| => handlers[j]);
      for i := 0 to |handlers|
        invariant forall j :: 0 <= j < i ==> news[j] == ops.withAttrs(handlers[j], attrs)
      {
        news[i] := ops.withAttrs(handlers[i], attrs);
      }
      m := MultiHandler(news[..]);
    }

    /**
     * WithGroup: a new MultiHandler of every member's WithGroup, in the same
     * order; the empty name is passed on to the members, not short-circuited.
     */
    method WithGroup(ops: Backend<B>, name: string) returns (m: MultiHandler<B>)
      ensures |m.handlers| == |handlers|
      ensures forall i :: 0 <= i < |handlers| ==> m.handlers[i] == ops.withGroup(handlers[i], name)
    {
      // a fresh slice of the members' length; the old members only fill it until overwritten
      var news := new B[|handlers|](j requires 0 <= j < |handlers| => handlers[j]);
      for i := 0 to |handlers|
        invariant forall j :: 0 <= j < i ==> news[j] == ops.withGroup(handlers[j], name)
      {
        news[i] := ops.withGroup(handlers[i], name);
      }
      m := MultiHandler(news[..]);
    }
  }

  /** NewMultiHandler: the members, in the order given. */
  function NewMultiHandler<B>(handlers: seq<B>): (m: MultiHandler<B>)
    ensures |m.handlers| == |handlers|
    ensures forall i :: 0 <= i < |handlers| ==> m.handlers[i] == handlers[i]
  {
    MultiHandler(handlers)
  }

  /** A MultiHandler with no members handles every record successfully and calls nobody. */
  lemma EmptyHandleSucceeds<B>(ops: Backend<B>, ctx: Context, r: Record)
    ensures FirstError(Outcomes([], ops, ctx, r)) == None
    ensures Attempted(Outcomes([], ops, ctx, r)) == 0
  {
  }
}
