/**
 * The Zend graphics-context adapter: a cache of four style attributes, a
 * single-slot memento, and the wrapped page as a trace. Each public method
 * of the adapter is a pure transition on `Context`.
 */
module GraphicsContext {
  import opened Wrappers
  import opened Style
  import opened FillTypes
  import Page

  /** The adapter's state: its style cache, its memento and the page so far. */
  datatype Context = Context(state: GraphicsState, memento: Option<GraphicsState>, page: Page.Trace)

  /** A newly constructed adapter over an empty page. */
  const Fresh := Context(Unset, None, [])

  /** Sends `op` to the page, leaving cache and memento alone. */
  function Forward(ctx: Context, op: Page.Op): (r: Context)
    ensures r.state == ctx.state && r.memento == ctx.memento
    ensures |r.page| == |ctx.page| + 1 && r.page[..|ctx.page|] == ctx.page
    ensures r.page[|ctx.page|] == op
  {
    ctx.(page := ctx.page + [op])
  }

  function ClipRectangle(ctx: Context, x1: int, y1: int, x2: int, y2: int): Context
  {
    Forward(ctx, Page.ClipRectangle(x1, y1, x2, y2))
  }

  /** Saves the page's graphics state and snapshots the cache into the memento, overwriting it. */
  function SaveGS(ctx: Context): (r: Context)
    ensures r.state == ctx.state && r.memento == Some(ctx.state)
    ensures r.page == ctx.page + [Page.SaveGS]
  {
    Context(ctx.state, Some(ctx.state), ctx.page + [Page.SaveGS])
  }

  /**
   * Restores the page's graphics state and the cache from the memento, then
   * clears the memento. Without a memento the cache becomes null in the
   * source, which reads as every attribute unset.
   */
  function RestoreGS(ctx: Context): (r: Context)
    ensures r.memento.None?
    ensures ctx.memento.Some? ==> r.state == ctx.memento.value
    ensures ctx.memento.None? ==> r.state == Unset
    ensures r.page == ctx.page + [Page.RestoreGS]
  {
    Context(ctx.memento.GetOr(Unset), None, ctx.page + [Page.RestoreGS])
  }

  function DrawImage(ctx: Context, image: Image, x1: int, y1: int, x2: int, y2: int): Context
  {
    Forward(ctx, Page.DrawImage(image.wrapped, x1, y1, x2, y2))
  }

  function DrawLine(ctx: Context, x1: int, y1: int, x2: int, y2: int): Context
  {
    Forward(ctx, Page.DrawLine(x1, y1, x2, y2))
  }

  /** Forwards the font's currently wrapped native font; fonts are not cached. */
  function SetFont(ctx: Context, font: Font, size: int): Context
  {
    Forward(ctx, Page.SetFont(font.currentWrapped, size))
  }

  /**
   * Sets the fill colour unless the cached one has the same components.
   * Only the fill slot of the cache may change.
   */
  function SetFillColor(ctx: Context, color: Color): (r: Context)
    ensures r.memento == ctx.memento
    ensures r.state == ctx.state.(fillColor := r.state.fillColor)
    ensures SameComponents(r.state.fillColor, color)
    ensures SameComponents(ctx.state.fillColor, color) ==> r == ctx
    ensures !SameComponents(ctx.state.fillColor, color) ==>
      r.page == ctx.page + [Page.SetFillColor(color)] && r.state.fillColor == Some(color)
  {
    if ctx.state.fillColor.None? || color.components != ctx.state.fillColor.value.components then
      Context(ctx.state.(fillColor := Some(color)), ctx.memento, ctx.page + [Page.SetFillColor(color)])
    else
      ctx
  }

  /**
   * Sets the stroke colour unless the cached one has the same components.
   * Only the line-colour slot of the cache may change.
   */
  function SetLineColor(ctx: Context, color: Color): (r: Context)
    ensures r.memento == ctx.memento
    ensures r.state == ctx.state.(lineColor := r.state.lineColor)
    ensures SameComponents(r.state.lineColor, color)
    ensures SameComponents(ctx.state.lineColor, color) ==> r == ctx
    ensures !SameComponents(ctx.state.lineColor, color) ==>
      r.page == ctx.page + [Page.SetLineColor(color)] && r.state.lineColor == Some(color)
  {
    if ctx.state.lineColor.None? || color.components != ctx.state.lineColor.value.components then
      Context(ctx.state.(lineColor := Some(color)), ctx.memento, ctx.page + [Page.SetLineColor(color)])
    else
      ctx
  }

  /** Forwards the coordinate arrays and the fill type untranslated. */
  function DrawPolygon(ctx: Context, xs: seq<int>, ys: seq<int>, fillType: FillType): Context
  {
    Forward(ctx, Page.DrawPolygon(xs, ys, fillType))
  }

  function DrawText(ctx: Context, text: string, x: int, y: int, encoding: string): Context
  {
    Forward(ctx, Page.DrawText(text, x, y, encoding))
  }

  /**
   * Draws a rounded rectangle after translating the fill type; an
   * unrecognised fill type raises InvalidArgument before the page is called.
   */
  function DrawRoundedRectangle(ctx: Context, x1: int, y1: int, x2: int, y2: int, radius: int, fillType: FillType)
    : (r: Result<Context, Error>)
    ensures r.Failure? <==> fillType.Unrecognized?
    ensures r.Failure? ==> r.error == InvalidArgument(fillType)
    ensures r.Success? ==> r.value.state == ctx.state && r.value.memento == ctx.memento
    ensures r.Success? ==> |r.value.page| == |ctx.page| + 1 && r.value.page[..|ctx.page|] == ctx.page
    ensures r.Success? ==> var op := r.value.page[|ctx.page|];
      op.DrawRoundedRectangle? && FromNative(op.nativeFillType) == fillType &&
      op == Page.DrawRoundedRectangle(x1, y1, x2, y2, radius, op.nativeFillType)
  {
    var native :- TranslateFillType(fillType);
    Success(Forward(ctx, Page.DrawRoundedRectangle(x1, y1, x2, y2, radius, native)))
  }

  /** `drawRoundedRectangle` called without a fill type: fills and strokes. */
  function DrawRoundedRectangleDefault(ctx: Context, x1: int, y1: int, x2: int, y2: int, radius: int)
    : (r: Result<Context, Error>)
    ensures r.Success?
    ensures r.value.state == ctx.state && r.value.memento == ctx.memento
    ensures r.value.page == ctx.page + [Page.DrawRoundedRectangle(x1, y1, x2, y2, radius, NativeFillAndStroke)]
  {
    DrawRoundedRectangle(ctx, x1, y1, x2, y2, radius, DefaultFillType)
  }

  /**
   * Sets the line width unless the cached width is truthy and equal. PHP's
   * loose `!=` is plain integer inequality here, since widths are integers.
   * Only the width slot of the cache may change.
   */
  function SetLineWidth(ctx: Context, width: int): (r: Context)
    ensures r.memento == ctx.memento
    ensures r.state == ctx.state.(lineWidth := Some(width))
    ensures r.page != ctx.page <==> WidthIsFalsy(ctx.state.lineWidth) || ctx.state.lineWidth.value != width
    ensures r.page == ctx.page || r.page == ctx.page + [Page.SetLineWidth(width)]
  {
    if WidthIsFalsy(ctx.state.lineWidth) || ctx.state.lineWidth.value != width then
      Context(ctx.state.(lineWidth := Some(width)), ctx.memento, ctx.page + [Page.SetLineWidth(width)])
    else
      ctx
  }

  /**
   * Sets the dashing pattern unless the cached one equals the resolved
   * pattern; "dotted" is resolved to its dash array before the comparison.
   * Only the dash slot of the cache may change.
   */
  function SetLineDashingPattern(ctx: Context, pattern: DashPattern): (r: Context)
    ensures r.memento == ctx.memento
    ensures r.state == ctx.state.(lineDashingPattern := Some(ResolveDashPattern(pattern)))
    ensures r.page != ctx.page <==> ctx.state.lineDashingPattern != Some(ResolveDashPattern(pattern))
    ensures r.page == ctx.page || r.page == ctx.page + [Page.SetLineDashingPattern(ResolveDashPattern(pattern))]
  {
    var dashes := ResolveDashPattern(pattern);
    if ctx.state.lineDashingPattern.None? || ctx.state.lineDashingPattern.value != dashes then
      Context(ctx.state.(lineDashingPattern := Some(dashes)), ctx.memento, ctx.page + [Page.SetLineDashingPattern(dashes)])
    else
      ctx
  }
}
