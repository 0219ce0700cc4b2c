/**
 * Laws of the adapter's redundant-state elision and of its single-slot
 * save/restore memento.
 */
module Properties {
  import opened Wrappers
  import opened Style
  import Page
  import GC = GraphicsContext
  import opened Session

  /**
   * Two style calls that set the same attribute to the same value as far as
   * the comparison can tell: colours with equal components (their native
   * handles may differ), equal widths, or patterns with the same dash array.
   */
  predicate SameStyleValue(c: Call, d: Call)
  {
    match c
    case SetFillColor(a) => d.SetFillColor? && d.color.components == a.components
    case SetLineColor(a) => d.SetLineColor? && d.color.components == a.components
    case SetLineWidth(w) => d == SetLineWidth(w)
    case SetLineDashingPattern(p) =>
      d.SetLineDashingPattern? && ResolveDashPattern(d.pattern) == ResolveDashPattern(p)
    case _ => false
  }

  /**
   * A style setter followed by one with the same value is idempotent: the
   * second call changes nothing, so a run of equal calls sends at most one
   * operation. Line width 0 is the exception, see `ZeroWidthIsNeverElided`.
   */
  lemma StyleSetterIdempotent(ctx: GC.Context, c: Call, d: Call)
    requires SameStyleValue(c, d)
    requires c != SetLineWidth(0)
    ensures IsStyleCall(c) && Step(ctx, c).Success?
    ensures Step(Step(ctx, c).value, d) == Step(ctx, c)
  {
  }

  /** Repeated `setLineWidth(0)` reaches the page every time. */
  lemma ZeroWidthIsNeverElided(ctx: GC.Context)
    ensures GC.SetLineWidth(ctx, 0).page == ctx.page + [Page.SetLineWidth(0)]
    ensures GC.SetLineWidth(GC.SetLineWidth(ctx, 0), 0).page == ctx.page + [Page.SetLineWidth(0), Page.SetLineWidth(0)]
  {
  }

  /**
   * "dotted" and the dash array [1, 2] are interchangeable: once either has
   * been applied, setting either again sends nothing.
   */
  lemma DottedMatchesItsDashArray(ctx: GC.Context, first: DashPattern, second: DashPattern)
    requires first == Dotted || first == Explicit([1, 2])
    requires second == Dotted || second == Explicit([1, 2])
    ensures var after := GC.SetLineDashingPattern(ctx, first);
      GC.SetLineDashingPattern(after, second) == after
  {
  }

  /**
   * Saving, performing any calls that neither save nor restore, and
   * restoring brings the cache back to its value at the save and clears the
   * memento; the save and the restore each send exactly one operation, at the
   * two ends of what the calls in between sent.
   */
  lemma SaveCallsRestore(ctx: GC.Context, calls: seq<Call>)
    requires NoSaveRestoreCall(calls)
    requires Run(GC.SaveGS(ctx), calls).Success?
    ensures var inner := Run(GC.SaveGS(ctx), calls).value;
      Run(ctx, [SaveGS] + calls + [RestoreGS]) ==
        Success(GC.Context(ctx.state, None, inner.page + [Page.RestoreGS]))
    ensures var inner := Run(GC.SaveGS(ctx), calls).value;
      && |inner.page| > |ctx.page|
      && inner.page[..|ctx.page| + 1] == ctx.page + [Page.SaveGS]
      && Page.NoSaveRestore(inner.page[|ctx.page| + 1..])
  {
    var saved := GC.SaveGS(ctx);
    RunExtendsPage(saved, calls);
    var inner := Run(saved, calls).value;
    assert inner.memento == Some(ctx.state);
    RunAppend(ctx, [SaveGS] + calls, [RestoreGS]);
    RunAppend(ctx, [SaveGS], calls);
    assert Run(ctx, [SaveGS]) == Success(saved);
    assert Run(ctx, [SaveGS] + calls) == Success(inner);
    assert inner.page[..|ctx.page| + 1] == inner.page[..|saved.page|];
  }

  /**
   * The memento is a single slot: a second save before the restore replaces
   * the snapshot, so the restore returns the cache to its value at the later
   * save.
   */
  lemma NestedSaveRestoresLaterSnapshot(ctx: GC.Context, outer: seq<Call>, inner: seq<Call>)
    requires NoSaveRestoreCall(inner)
    requires Run(ctx, [SaveGS] + outer + [SaveGS] + inner).Success?
    ensures Run(ctx, [SaveGS] + outer).Success?
    ensures Run(ctx, [SaveGS] + outer + [SaveGS] + inner + [RestoreGS]).Success?
    ensures Run(ctx, [SaveGS] + outer + [SaveGS] + inner + [RestoreGS]).value.state
         == Run(ctx, [SaveGS] + outer).value.state
    ensures Run(ctx, [SaveGS] + outer + [SaveGS] + inner + [RestoreGS]).value.memento.None?
  {
    var prefix := [SaveGS] + outer;
    RunAppend(ctx, prefix, [SaveGS] + inner);
    assert prefix + ([SaveGS] + inner) == [SaveGS] + outer + [SaveGS] + inner;
    var mid := Run(ctx, prefix).value;
    SaveCallsRestore(mid, inner);
    RunAppend(ctx, prefix, [SaveGS] + inner + [RestoreGS]);
    assert prefix + ([SaveGS] + inner + [RestoreGS]) == [SaveGS] + outer + [SaveGS] + inner + [RestoreGS];
    RunAppend(mid, [SaveGS], inner);
  }

  /**
   * A restore with no snapshot to return to (a second restore, or one with
   * no save before it) leaves every cached attribute unset, so the next
   * setter of each kind is always sent.
   */
  lemma RestoreWithoutSnapshotForgetsCache(ctx: GC.Context, color: Color)
    requires ctx.memento.None?
    ensures GC.RestoreGS(ctx).state == Unset
    ensures GC.SetFillColor(GC.RestoreGS(ctx), color).page == ctx.page + [Page.RestoreGS, Page.SetFillColor(color)]
  {
  }

  /**
   * The worked case: with fill RED cached, save, set BLUE, restore; RED is
   * cached again, so setting RED is elided and setting BLUE is not.
   */
  lemma RestoredFillColorDecidesElision(ctx: GC.Context, red: Color, blue: Color)
    requires red.components != blue.components
    ensures var restored := GC.RestoreGS(GC.SetFillColor(GC.SaveGS(GC.SetFillColor(ctx, red)), blue));
      && GC.SetFillColor(restored, red) == restored
      && GC.SetFillColor(restored, blue).page == restored.page + [Page.SetFillColor(blue)]
  {
  }
}
