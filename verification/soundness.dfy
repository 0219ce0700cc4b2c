/**
 * Why eliding is safe. The cache never runs ahead of the page: every
 * attribute it holds is the page's current value, and the memento matches
 * the page's innermost saved state. Consequently the eliding adapter leaves
 * the page in the same rendering state as the plain adapter that forwards
 * every call: every drawing operation is performed under a similar style.
 */
module Soundness {
  import Page
  import GC = GraphicsContext
  import opened Session
  import opened PageSemantics
  import opened PlainAdapter

  /** The cache and memento agree with the page the adapter has produced. */
  predicate CacheSound(ctx: GC.Context)
  {
    var m := Interpret(ctx.page);
    && Agrees(ctx.state, m.current)
    && (ctx.memento.Some? ==> |m.saved| > 0 && Agrees(ctx.memento.value, m.saved[|m.saved| - 1]))
  }

  /** The adapter is cache-sound and its page renders like the plain page. */
  predicate Tracks(ctx: GC.Context, plain: Page.Trace)
  {
    CacheSound(ctx) && Equivalent(Interpret(ctx.page), Interpret(plain))
  }

  lemma FreshTracksEmptyPage()
    ensures Tracks(GC.Fresh, [])
  {
  }

  /** Each successful call keeps the cache and memento in agreement with the page. */
  lemma StepKeepsCacheSound(ctx: GC.Context, c: Call)
    requires CacheSound(ctx)
    requires Step(ctx, c).Success?
    ensures CacheSound(Step(ctx, c).value)
  {
    var next := Step(ctx, c).value;
    StepSendsForwardedOrNothing(ctx, c);
    if next.page != ctx.page {
      var op := Forwarded(c).value;
      InterpretAppend(ctx.page, op);
      var m := Interpret(ctx.page);
      if c.RestoreGS? && ctx.memento.Some? {
        assert Agrees(next.state, m.saved[|m.saved| - 1]);
      } else if c.SaveGS? {
        assert Interpret(next.page).saved[|m.saved|] == m.current;
      }
    }
  }

  /**
   * One call on the eliding adapter and the same call on the plain adapter
   * fail together, and on success the pages still render alike.
   */
  lemma StepTracksPlain(ctx: GC.Context, plain: Page.Trace, c: Call)
    requires Tracks(ctx, plain)
    ensures Step(ctx, c).Success? <==> Forwarded(c).Success?
    ensures Step(ctx, c).Success? ==> Tracks(Step(ctx, c).value, plain + [Forwarded(c).value])
  {
    StepSendsForwardedOrNothing(ctx, c);
    if Step(ctx, c).Success? {
      var next := Step(ctx, c).value;
      var op := Forwarded(c).value;
      StepKeepsCacheSound(ctx, c);
      InterpretAppend(plain, op);
      var m := Interpret(ctx.page);
      var n := Interpret(plain);
      if next.page == ctx.page {
        // An elided setter: the page already holds an equal value.
        assert Equivalent(m, Apply(n, op));
      } else {
        InterpretAppend(ctx.page, op);
        ApplyKeepsEquivalent(m, n, op);
      }
    }
  }

  /** `StepTracksPlain` extended to any sequence of calls. */
  lemma {:induction false} RunTracksPlain(ctx: GC.Context, plain: Page.Trace, calls: seq<Call>)
    requires Tracks(ctx, plain)
    ensures Run(ctx, calls).Success? <==> PlainRun(plain, calls).Success?
    ensures Run(ctx, calls).Success? ==> Tracks(Run(ctx, calls).value, PlainRun(plain, calls).value)
    decreases |calls|
  {
    if calls != [] {
      StepTracksPlain(ctx, plain, calls[0]);
      if Step(ctx, calls[0]).Success? {
        RunTracksPlain(Step(ctx, calls[0]).value, plain + [Forwarded(calls[0]).value], calls[1..]);
      }
    }
  }

  /**
   * Starting from a fresh adapter, any sequence of calls fails exactly when
   * the plain adapter's does; otherwise the cache agrees with the page, the
   * page performs the same drawing operations under similar styles as the
   * plain page, and it received no more operations.
   */
  lemma ElisionIsInvisible(calls: seq<Call>)
    ensures Run(GC.Fresh, calls).Success? <==> PlainRun([], calls).Success?
    ensures Run(GC.Fresh, calls).Success? ==>
      && CacheSound(Run(GC.Fresh, calls).value)
      && Equivalent(Interpret(Run(GC.Fresh, calls).value.page), Interpret(PlainRun([], calls).value))
      && |Run(GC.Fresh, calls).value.page| <= |PlainRun([], calls).value|
  {
    FreshTracksEmptyPage();
    RunTracksPlain(GC.Fresh, [], calls);
    if Run(GC.Fresh, calls).Success? {
      RunExtendsPage(GC.Fresh, calls);
    }
  }
}
