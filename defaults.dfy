/**
 * Per-request defaults (defaults.go): the fixed projection of four context
 * keys into attributes, and the ReplaceAttr hook that lowercases the level.
 */
module Defaults {
  import opened Slog
  import opened Contexts

  /** The names of the context keys DefaultPerRequestArgs reads, in emission order. */
  const PerRequestNames: seq<string> :=
    [CtxTenantKey.name, CtxReqIDKey.name, CtxMethodKey.name, CtxURIPathKey.name]

  /** No element occurs twice. */
  predicate Distinct<T(==)>(s: seq<T>)
  {
    forall i, j :: 0 <= i < j < |s| ==> s[i] != s[j]
  }

  /** The keys of a list of attributes, in order. */
  function Keys(attrs: seq<Attr>): (ks: seq<string>)
    ensures |ks| == |attrs|
    ensures forall i :: 0 <= i < |attrs| ==> ks[i] == attrs[i].key
  {
    seq(|attrs|, i requires 0 <= i < |attrs| => attrs[i].key)
  }

  /** `xs` can be obtained from `ys` by deleting elements: same order, no additions. */
  predicate IsSubsequence(xs: seq<string>, ys: seq<string>)
  {
    if |xs| == 0 then true
    else if |ys| == 0 then false
    else if xs[0] == ys[0] then IsSubsequence(xs[1..], ys[1..])
    else IsSubsequence(xs, ys[1..])
  }

  /** The attribute one name contributes: its rendered value when present, nothing otherwise. */
  function Emitted(name: string, ctx: Context, render: Value -> string): seq<Attr>
  {
    var v := Lookup(ctx, CtxKey(name));
    if v != Nil then [Attr(name, Str(render(v)))] else []
  }

  /**
   * One string attribute per name whose typed context key holds a non-nil
   * value, in the order of `names`, valued with the value's rendering
   * (`render` stands for fmt.Sprint).
   */
  function Projected(names: seq<string>, ctx: Context, render: Value -> string): seq<Attr>
  {
    if |names| == 0 then [] else Emitted(names[0], ctx, render) + Projected(names[1..], ctx, render)
  }

  /**
   * DefaultPerRequestArgs: tenant, request_id, method and path, each appended
   * only when the context holds a non-nil value for it.
   */
  method DefaultPerRequestArgs(ctx: Context, render: Value -> string) returns (r: seq<Attr>)
    ensures r == Projected(PerRequestNames, ctx, render)
  {
    r := [];
    var v := Lookup(ctx, CtxTenantKey);
    if v != Nil {
      r := r + [Attr(CtxTenantKey.name, Str(render(v)))];
    }
    v := Lookup(ctx, CtxReqIDKey);
    if v != Nil {
      r := r + [Attr(CtxReqIDKey.name, Str(render(v)))];
    }
    v := Lookup(ctx, CtxMethodKey);
    if v != Nil {
      r := r + [Attr(CtxMethodKey.name, Str(render(v)))];
    }
    v := Lookup(ctx, CtxURIPathKey);
    if v != Nil {
      r := r + [Attr(CtxURIPathKey.name, Str(render(v)))];
    }
    ghost var ns := PerRequestNames;
    assert ns[3..][1..] == [] && ns[2..][1..] == ns[3..] && ns[1..][1..] == ns[2..];
    assert Projected(ns[3..], ctx, render) == Emitted("path", ctx, render);
    assert Projected(ns[1..], ctx, render)
        == Emitted("request_id", ctx, render) + Emitted("method", ctx, render) + Emitted("path", ctx, render);
  }

  /** Every emitted attribute comes from a name whose value is present, and carries that value's rendering. */
  lemma {:induction false} ProjectedSound(names: seq<string>, ctx: Context, render: Value -> string)
    ensures forall a :: a in Projected(names, ctx, render) ==>
      a.key in names && Lookup(ctx, CtxKey(a.key)) != Nil && a.value == Str(render(Lookup(ctx, CtxKey(a.key))))
  {
    if |names| > 0 {
      ProjectedSound(names[1..], ctx, render);
    }
  }

  /** Every name whose value is present is emitted. */
  lemma {:induction false} ProjectedComplete(names: seq<string>, ctx: Context, render: Value -> string)
    ensures forall n :: n in names && Lookup(ctx, CtxKey(n)) != Nil ==>
      exists a :: a in Projected(names, ctx, render) && a.key == n
  {
    if |names| > 0 {
      ProjectedComplete(names[1..], ctx, render);
      var r := Projected(names, ctx, render);
      assert r == Emitted(names[0], ctx, render) + Projected(names[1..], ctx, render);
      forall n | n in names && Lookup(ctx, CtxKey(n)) != Nil
        ensures exists a :: a in r && a.key == n
      {
        if n == names[0] {
          assert Attr(n, Str(render(Lookup(ctx, CtxKey(n))))) in r;
        } else {
          assert n in names[1..];
        }
      }
    }
  }

  /** The emitted keys keep the order of `names`: they are a subsequence of it, so never more of them. */
  lemma {:induction false} ProjectedOrdered(names: seq<string>, ctx: Context, render: Value -> string)
    ensures IsSubsequence(Keys(Projected(names, ctx, render)), names)
    ensures |Projected(names, ctx, render)| <= |names|
  {
    if |names| > 0 {
      ProjectedOrdered(names[1..], ctx, render);
      var tail := Projected(names[1..], ctx, render);
      var r := Projected(names, ctx, render);
      if Lookup(ctx, CtxKey(names[0])) != Nil {
        assert Keys(r)[0] == names[0] && Keys(r)[1..] == Keys(tail);
      } else {
        assert r == tail;
        SubsequenceCons(Keys(r), names);
      }
    }
  }

  /** Distinct names give distinct keys. */
  lemma {:induction false} ProjectedDistinct(names: seq<string>, ctx: Context, render: Value -> string)
    requires Distinct(names)
    ensures Distinct(Keys(Projected(names, ctx, render)))
  {
    if |names| > 0 {
      ProjectedDistinct(names[1..], ctx, render);
      ProjectedSound(names[1..], ctx, render);
      var tail := Projected(names[1..], ctx, render);
      var r := Projected(names, ctx, render);
      if Lookup(ctx, CtxKey(names[0])) != Nil {
        assert r == [Attr(names[0], Str(render(Lookup(ctx, CtxKey(names[0])))))] + tail;
        forall j | 0 < j < |r| ensures r[j].key != names[0] {
          assert r[j] == tail[j - 1] && tail[j - 1] in tail;
          assert names[0] !in names[1..];
        }
      } else {
        assert r == tail;
      }
    }
  }

  /** Dropping the head of the longer list keeps a subsequence a subsequence. */
  lemma {:induction false} SubsequenceCons(xs: seq<string>, ys: seq<string>)
    requires |ys| > 0 && IsSubsequence(xs, ys[1..])
    ensures IsSubsequence(xs, ys)
  {
    if |xs| > 0 && xs[0] == ys[0] {
      SubsequenceTail(xs, ys[1..]);
    }
  }

  /** The tail of a subsequence is a subsequence too. */
  lemma {:induction false} SubsequenceTail(xs: seq<string>, ys: seq<string>)
    requires |xs| > 0 && IsSubsequence(xs, ys)
    ensures IsSubsequence(xs[1..], ys)
  {
    if xs[0] == ys[0] {
      SubsequenceCons(xs[1..], ys);
    } else {
      SubsequenceTail(xs, ys[1..]);
      SubsequenceCons(xs[1..], ys);
    }
  }

  /** A context that binds nothing yields no attributes. */
  lemma {:induction false} ProjectedEmptyContext(names: seq<string>, render: Value -> string)
    ensures Projected(names, Background, render) == []
  {
    if |names| > 0 {
      ProjectedEmptyContext(names[1..], render);
    }
  }

  /**
   * The request defaults: at most four attributes with pairwise distinct
   * keys, drawn from tenant, request_id, method and path in that order; the
   * user and uri keys are never emitted, even when the context holds them.
   */
  lemma PerRequestArgsShape(ctx: Context, render: Value -> string)
    ensures var r := Projected(PerRequestNames, ctx, render);
      && |r| <= 4
      && Distinct(Keys(r))
      && IsSubsequence(Keys(r), ["tenant", "request_id", "method", "path"])
      && (forall a :: a in r ==> a.key != CtxUserKey.name && a.key != CtxURIKey.name)
  {
    ProjectedOrdered(PerRequestNames, ctx, render);
    ProjectedDistinct(PerRequestNames, ctx, render);
    ProjectedSound(PerRequestNames, ctx, render);
  }

  /**
   * A context holding all four request values yields exactly four attributes,
   * tenant, request_id, method and path, in that order.
   */
  lemma {:induction false} PerRequestArgsAllPresent(ctx: Context, render: Value -> string)
    requires forall n :: n in PerRequestNames ==> Lookup(ctx, CtxKey(n)) != Nil
    ensures Keys(Projected(PerRequestNames, ctx, render)) == PerRequestNames
  {
    AllPresentKeys(PerRequestNames, ctx, render);
  }

  /** When every name is present, the emitted keys are the names themselves. */
  lemma {:induction false} AllPresentKeys(names: seq<string>, ctx: Context, render: Value -> string)
    requires forall n :: n in names ==> Lookup(ctx, CtxKey(n)) != Nil
    ensures Keys(Projected(names, ctx, render)) == names
  {
    if |names| > 0 {
      AllPresentKeys(names[1..], ctx, render);
      assert names[0] in names;
      var r := Projected(names, ctx, render);
      assert r == Emitted(names[0], ctx, render) + Projected(names[1..], ctx, render);
      assert Keys(r) == [names[0]] + Keys(Projected(names[1..], ctx, render));
    }
  }

  /** ASCII lowercasing of one character. */
  function LowerChar(c: char): char
  {
    if 'A' <= c <= 'Z' then (c as int + 32) as char else c
  }

  /** strings.ToLower, on ASCII letters: each character lowercased, nothing else changed. */
  function Lower(s: string): (r: string)
    ensures |r| == |s|
    ensures forall i :: 0 <= i < |s| ==> r[i] == LowerChar(s[i])
    ensures forall i :: 0 <= i < |r| ==> !('A' <= r[i] <= 'Z')
  {
    if |s| == 0 then "" else [LowerChar(s[0])] + Lower(s[1..])
  }

  /** Lowercasing twice is lowercasing once. */
  lemma LowerIdempotent(s: string)
    ensures Lower(Lower(s)) == Lower(s)
  {
  }

  /**
   * The type assertion DefaultReplaceAttr makes: an attribute under the level
   * key must hold a slog.Level, or the call panics.
   */
  predicate ReplaceAttrDefined(a: Attr)
  {
    a.key == LevelKey ==> a.value.LevelValue?
  }

  /**
   * DefaultReplaceAttr: the level attribute becomes the lowercased level name
   * (`levelName` stands for slog.Level.String); every other attribute is
   * returned unchanged; the groups are not consulted.
   */
  function DefaultReplaceAttr(groups: seq<string>, a: Attr, levelName: Level -> string): (r: Attr)
    requires ReplaceAttrDefined(a)
    ensures r.key == a.key
    ensures a.key != LevelKey ==> r == a
    ensures a.key == LevelKey ==> r.value == Str(Lower(levelName(a.value.level)))
  {
    if a.key == LevelKey then Attr(a.key, Str(Lower(levelName(a.value.level)))) else a
  }

  /**
   * A rewritten level attribute holds a string, not a Level, so the hook may
   * not be applied to its own output: the second call would panic.
   */
  lemma ReplaceAttrNotReapplicable(groups: seq<string>, a: Attr, levelName: Level -> string)
    requires ReplaceAttrDefined(a) && a.key == LevelKey
    ensures !ReplaceAttrDefined(DefaultReplaceAttr(groups, a, levelName))
  {
  }

  /** The result does not depend on the groups. */
  lemma ReplaceAttrIgnoresGroups(g1: seq<string>, g2: seq<string>, a: Attr, levelName: Level -> string)
    requires ReplaceAttrDefined(a)
    ensures DefaultReplaceAttr(g1, a, levelName) == DefaultReplaceAttr(g2, a, levelName)
  {
  }
}
