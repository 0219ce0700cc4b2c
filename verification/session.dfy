/**
 * A caller's view of the adapter: one `Call` per public drawing method, the
 * single-call transition `Step`, and `Run` for a sequence of calls. A call
 * that throws ends the sequence with its error.
 */
module Session {
  import opened Wrappers
  import opened Style
  import opened FillTypes
  import Page
  import GC = GraphicsContext

  /** A call of one of the adapter's public drawing methods. */
  datatype Call =
    | ClipRectangle(x1: int, y1: int, x2: int, y2: int)
    | SaveGS
    | RestoreGS
    | DrawImage(image: Image, x1: int, y1: int, x2: int, y2: int)
    | DrawLine(x1: int, y1: int, x2: int, y2: int)
    | SetFont(font: Font, size: int)
    | SetFillColor(color: Color)
    | SetLineColor(color: Color)
    | DrawPolygon(xs: seq<int>, ys: seq<int>, fillType: FillType)
    | DrawText(text: string, x: int, y: int, encoding: string)
    | DrawRoundedRectangle(x1: int, y1: int, x2: int, y2: int, radius: int, fillType: FillType)
    | SetLineWidth(width: int)
    | SetLineDashingPattern(pattern: DashPattern)

  /** The four calls whose effect the adapter caches and may elide. */
  predicate IsStyleCall(c: Call)
  {
    c.SetFillColor? || c.SetLineColor? || c.SetLineWidth? || c.SetLineDashingPattern?
  }

  /** True iff no call in `calls` saves or restores the graphics state. */
  predicate NoSaveRestoreCall(calls: seq<Call>)
  {
    forall i :: 0 <= i < |calls| ==> !calls[i].SaveGS? && !calls[i].RestoreGS?
  }

  /**
   * The page operation a call sends whenever it reaches the page: resources
   * unwrapped, the dash pattern resolved, the rounded rectangle's fill type
   * translated (which can fail).
   */
  function Forwarded(c: Call): Result<Page.Op, Error>
  {
    match c
    case ClipRectangle(x1, y1, x2, y2) => Success(Page.ClipRectangle(x1, y1, x2, y2))
    case SaveGS => Success(Page.SaveGS)
    case RestoreGS => Success(Page.RestoreGS)
    case DrawImage(image, x1, y1, x2, y2) => Success(Page.DrawImage(image.wrapped, x1, y1, x2, y2))
    case DrawLine(x1, y1, x2, y2) => Success(Page.DrawLine(x1, y1, x2, y2))
    case SetFont(font, size) => Success(Page.SetFont(font.currentWrapped, size))
    case SetFillColor(color) => Success(Page.SetFillColor(color))
    case SetLineColor(color) => Success(Page.SetLineColor(color))
    case DrawPolygon(xs, ys, fillType) => Success(Page.DrawPolygon(xs, ys, fillType))
    case DrawText(text, x, y, encoding) => Success(Page.DrawText(text, x, y, encoding))
    case DrawRoundedRectangle(x1, y1, x2, y2, radius, fillType) =>
      var native :- TranslateFillType(fillType);
      Success(Page.DrawRoundedRectangle(x1, y1, x2, y2, radius, native))
    case SetLineWidth(width) => Success(Page.SetLineWidth(width))
    case SetLineDashingPattern(pattern) => Success(Page.SetLineDashingPattern(ResolveDashPattern(pattern)))
  }

  /** Performs one call on the adapter. */
  function Step(ctx: GC.Context, c: Call): Result<GC.Context, Error>
  {
    match c
    case ClipRectangle(x1, y1, x2, y2) => Success(GC.ClipRectangle(ctx, x1, y1, x2, y2))
    case SaveGS => Success(GC.SaveGS(ctx))
    case RestoreGS => Success(GC.RestoreGS(ctx))
    case DrawImage(image, x1, y1, x2, y2) => Success(GC.DrawImage(ctx, image, x1, y1, x2, y2))
    case DrawLine(x1, y1, x2, y2) => Success(GC.DrawLine(ctx, x1, y1, x2, y2))
    case SetFont(font, size) => Success(GC.SetFont(ctx, font, size))
    case SetFillColor(color) => Success(GC.SetFillColor(ctx, color))
    case SetLineColor(color) => Success(GC.SetLineColor(ctx, color))
    case DrawPolygon(xs, ys, fillType) => Success(GC.DrawPolygon(ctx, xs, ys, fillType))
    case DrawText(text, x, y, encoding) => Success(GC.DrawText(ctx, text, x, y, encoding))
    case DrawRoundedRectangle(x1, y1, x2, y2, radius, fillType) =>
      GC.DrawRoundedRectangle(ctx, x1, y1, x2, y2, radius, fillType)
    case SetLineWidth(width) => Success(GC.SetLineWidth(ctx, width))
    case SetLineDashingPattern(pattern) => Success(GC.SetLineDashingPattern(ctx, pattern))
  }

  /** Performs the calls in order, stopping at the first one that throws. */
  function Run(ctx: GC.Context, calls: seq<Call>): Result<GC.Context, Error>
    decreases |calls|
  {
    if calls == [] then Success(ctx)
    else
      var next :- Step(ctx, calls[0]);
      Run(next, calls[1..])
  }

  /**
   * Every call either reaches the page with exactly its forwarded operation
   * or is elided; only the four style setters can be elided, and a call fails
   * exactly when its forwarded operation cannot be formed, leaving nothing
   * appended.
   */
  lemma StepSendsForwardedOrNothing(ctx: GC.Context, c: Call)
    ensures Step(ctx, c).Failure? <==> Forwarded(c).Failure?
    ensures Step(ctx, c).Failure? ==> Step(ctx, c).error == Forwarded(c).error
    ensures Step(ctx, c).Success? ==>
      Step(ctx, c).value.page == ctx.page + [Forwarded(c).value] ||
      (IsStyleCall(c) && Step(ctx, c).value.page == ctx.page)
  {
  }

  /**
   * Every call other than the style setters and save/restore leaves the
   * cache and the memento as they were and sends exactly one operation.
   */
  lemma DrawCallsLeaveStateAlone(ctx: GC.Context, c: Call)
    requires !IsStyleCall(c) && !c.SaveGS? && !c.RestoreGS?
    requires Step(ctx, c).Success?
    ensures Step(ctx, c).value.state == ctx.state
    ensures Step(ctx, c).value.memento == ctx.memento
    ensures Step(ctx, c).value.page == ctx.page + [Forwarded(c).value]
    ensures !Page.IsStyleOp(Forwarded(c).value)
  {
  }

  /** Running two sequences back to back is running their concatenation. */
  lemma {:induction false} RunAppend(ctx: GC.Context, a: seq<Call>, b: seq<Call>)
    ensures Run(ctx, a + b) ==
      (if Run(ctx, a).Failure? then Run(ctx, a) else Run(Run(ctx, a).value, b))
    decreases |a|
  {
    if a == [] {
      assert a + b == b;
    } else {
      assert (a + b)[0] == a[0];
      assert (a + b)[1..] == a[1..] + b;
      if Step(ctx, a[0]).Success? {
        RunAppend(Step(ctx, a[0]).value, a[1..], b);
      }
    }
  }

  /**
   * The page is append-only: a successful run only extends the trace, and
   * calls that neither save nor restore keep the memento.
   */
  lemma {:induction false} RunExtendsPage(ctx: GC.Context, calls: seq<Call>)
    requires Run(ctx, calls).Success?
    ensures |Run(ctx, calls).value.page| >= |ctx.page|
    ensures Run(ctx, calls).value.page[..|ctx.page|] == ctx.page
    ensures |Run(ctx, calls).value.page| <= |ctx.page| + |calls|
    ensures NoSaveRestoreCall(calls) ==> Run(ctx, calls).value.memento == ctx.memento
    ensures NoSaveRestoreCall(calls) ==> Page.NoSaveRestore(Run(ctx, calls).value.page[|ctx.page|..])
    decreases |calls|
  {
    if calls != [] {
      var next := Step(ctx, calls[0]).value;
      StepSendsForwardedOrNothing(ctx, calls[0]);
      RunExtendsPage(next, calls[1..]);
      var fin := Run(ctx, calls).value;
      assert fin == Run(next, calls[1..]).value;
      assert fin.page[..|ctx.page|] == fin.page[..|next.page|][..|ctx.page|];
      if NoSaveRestoreCall(calls) {
        assert NoSaveRestoreCall(calls[1..]) by {
          forall i | 0 <= i < |calls[1..]|
            ensures !calls[1..][i].SaveGS? && !calls[1..][i].RestoreGS?
          {
            assert calls[1..][i] == calls[i + 1];
          }
        }
        assert fin.page[|ctx.page|..] == next.page[|ctx.page|..] + fin.page[|next.page|..];
      }
    }
  }
}
