/**
 * XlogHandler as a member of a MultiHandler: the handlers NewXlogHandler
 * builds, with their four slog.Handler methods packaged as a Backend.
 */
module Backends {
  import opened Wrappers
  import opened Slog
  import opened Contexts
  import opened Handler
  import opened MultiLogger

  /** An XlogHandler whose level is set, as every handler NewXlogHandler builds is. */
  type LeveledXlog = h: XlogHandler | h.option.level.Some?
    witness XlogHandler(Options(Some(LevelDebug), DefaultTimeout, None, Some(JsonMarshal), Some([]), false, None), [], [])

  /** The slog.Handler methods of XlogHandler. */
  function XlogBackend(): (ops: Backend<LeveledXlog>)
    ensures forall h: LeveledXlog, ctx, l :: ops.enabled(h, ctx, l) <==> h.option.level.value <= l
    ensures forall h: LeveledXlog, ctx, r :: ops.handle(h, ctx, r) == None
  {
    Backend<LeveledXlog>.Backend(
      (h: LeveledXlog, ctx: Context, l: Level) => h.Enabled(ctx, l),
      (h: LeveledXlog, ctx: Context, r: Record) => None,
      (h: LeveledXlog, extra: seq<Attr>) => h.WithAttrs(extra),
      (h: LeveledXlog, name: string) => h.WithGroup(name))
  }

  /**
   * A MultiHandler over XlogHandlers never reports an error, and every member
   * is called.
   */
  lemma XlogMembersNeverFail(hs: seq<LeveledXlog>, ctx: Context, r: Record)
    ensures FirstError(Outcomes(hs, XlogBackend(), ctx, r)) == None
    ensures Attempted(Outcomes(hs, XlogBackend(), ctx, r)) == |hs|
  {
    FirstErrorNoneIff(Outcomes(hs, XlogBackend(), ctx, r));
  }

  /**
   * Over XlogHandlers, a MultiHandler is enabled at a level exactly when the
   * level reaches the lowest member threshold.
   */
  lemma {:induction false} XlogMembersEnabledAtLowest(hs: seq<LeveledXlog>, ctx: Context, l: Level)
    requires |hs| > 0
    ensures (exists i :: 0 <= i < |hs| && XlogBackend().enabled(hs[i], ctx, l))
        <==> Lowest(hs) <= l
  {
    LowestIsAThreshold(hs);
  }

  /** The lowest level threshold among the members. */
  function Lowest(hs: seq<LeveledXlog>): Level
    requires |hs| > 0
  {
    if |hs| == 1 then hs[0].option.level.value
    else
      var rest := Lowest(hs[1..]);
      if hs[0].option.level.value <= rest then hs[0].option.level.value else rest
  }

  /** The lowest threshold is some member's threshold, and no member's is lower. */
  lemma {:induction false} LowestIsAThreshold(hs: seq<LeveledXlog>)
    requires |hs| > 0
    ensures exists i :: 0 <= i < |hs| && hs[i].option.level.value == Lowest(hs)
    ensures forall i :: 0 <= i < |hs| ==> Lowest(hs) <= hs[i].option.level.value
  {
    if |hs| > 1 {
      LowestIsAThreshold(hs[1..]);
      var j :| 0 <= j < |hs[1..]| && hs[1..][j].option.level.value == Lowest(hs[1..]);
      assert hs[j + 1] == hs[1..][j];
      if hs[0].option.level.value <= Lowest(hs[1..]) {
        assert hs[0].option.level.value == Lowest(hs);
      } else {
        assert hs[j + 1].option.level.value == Lowest(hs);
      }
      forall i | 1 <= i < |hs| ensures Lowest(hs) <= hs[i].option.level.value {
        assert hs[i] == hs[1..][i - 1];
      }
    } else {
      assert hs[0].option.level.value == Lowest(hs);
    }
  }

  /**
   * Members at the info and error thresholds: a warn record is wanted by
   * the MultiHandler (by the info member), a debug record is not.
   */
  lemma InfoErrorPairAdmitsWarn(info: LeveledXlog, err: LeveledXlog, ctx: Context)
    requires info.option.level == Some(LevelInfo) && err.option.level == Some(LevelError)
    ensures exists i :: 0 <= i < 2 && XlogBackend().enabled([info, err][i], ctx, LevelWarn)
    ensures !exists i :: 0 <= i < 2 && XlogBackend().enabled([info, err][i], ctx, LevelDebug)
  {
    assert XlogBackend().enabled([info, err][0], ctx, LevelWarn);
  }
}
