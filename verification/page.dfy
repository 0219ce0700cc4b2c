/**
 * The wrapped Zend page, seen only through the operations the adapter sends
 * it: an append-only trace.
 */
module Page {
  import opened Style
  import opened FillTypes

  /**
   * One call received by the page. Colour setters carry the whole colour so
   * its components stay visible; the page itself receives `color.wrapped`.
   */
  datatype Op =
    | ClipRectangle(x1: int, y1: int, x2: int, y2: int)
    | SaveGS
    | RestoreGS
    | DrawImage(image: Handle, x1: int, y1: int, x2: int, y2: int)
    | DrawLine(x1: int, y1: int, x2: int, y2: int)
    | SetFont(font: Handle, size: int)
    | SetFillColor(color: Color)
    | SetLineColor(color: Color)
    | DrawPolygon(xs: seq<int>, ys: seq<int>, fillType: FillType)
    | DrawText(text: string, x: int, y: int, encoding: string)
    | DrawRoundedRectangle(x1: int, y1: int, x2: int, y2: int, radius: int, nativeFillType: NativeFillType)
    | SetLineWidth(width: int)
    | SetLineDashingPattern(pattern: seq<int>)

  /** Everything sent to the page so far, oldest first. */
  type Trace = seq<Op>

  /** The operations that change one of the four cached style attributes. */
  predicate IsStyleOp(op: Op)
  {
    op.SetFillColor? || op.SetLineColor? || op.SetLineWidth? || op.SetLineDashingPattern?
  }

  /** True iff the trace holds no save or restore of the graphics state. */
  predicate NoSaveRestore(t: Trace)
  {
    forall i :: 0 <= i < |t| ==> !t[i].SaveGS? && !t[i].RestoreGS?
  }
}
