/**
 * What a page trace means for styling: the page keeps a current graphics
 * state and a stack of saved ones (PDF's save/restore operators), and every
 * operation other than a style change or a save/restore is performed under
 * the current style.
 */
module PageSemantics {
  import opened Wrappers
  import opened Style
  import Page

  /** A non-style operation and the style in effect when the page performed it. */
  datatype Effect = Effect(op: Page.Op, style: GraphicsState)

  /** The page's graphics state: current style, saved styles (top last), effects so far. */
  datatype Machine = Machine(current: GraphicsState, saved: seq<GraphicsState>, effects: seq<Effect>)

  /** A page nothing has been sent to; no style has been set on it. */
  const Blank := Machine(Unset, [], [])

  /**
   * Performs one operation. A restore with nothing saved leaves the style
   * as it is.
   */
  function Apply(m: Machine, op: Page.Op): Machine
  {
    match op
    case SaveGS => m.(saved := m.saved + [m.current])
    case RestoreGS =>
      if m.saved == [] then m
      else Machine(m.saved[|m.saved| - 1], m.saved[..|m.saved| - 1], m.effects)
    case SetFillColor(color) => m.(current := m.current.(fillColor := Some(color)))
    case SetLineColor(color) => m.(current := m.current.(lineColor := Some(color)))
    case SetLineWidth(width) => m.(current := m.current.(lineWidth := Some(width)))
    case SetLineDashingPattern(pattern) => m.(current := m.current.(lineDashingPattern := Some(pattern)))
    case _ => m.(effects := m.effects + [Effect(op, m.current)])
  }

  /** The page after performing the whole trace from a blank page. */
  function Interpret(t: Page.Trace): Machine
    decreases |t|
  {
    if t == [] then Blank else Apply(Interpret(t[..|t| - 1]), t[|t| - 1])
  }

  lemma InterpretAppend(t: Page.Trace, op: Page.Op)
    ensures Interpret(t + [op]) == Apply(Interpret(t), op)
  {
    assert (t + [op])[..|t|] == t;
  }

  /** Two colour slots that are both unset, or both hold the same components. */
  predicate SameColorSlot(a: Option<Color>, b: Option<Color>)
  {
    a.None? == b.None? && (a.Some? ==> a.value.components == b.value.components)
  }

  /** Two styles that render alike: colours compared by components, the rest exactly. */
  predicate Similar(a: GraphicsState, b: GraphicsState)
  {
    && SameColorSlot(a.fillColor, b.fillColor)
    && SameColorSlot(a.lineColor, b.lineColor)
    && a.lineWidth == b.lineWidth
    && a.lineDashingPattern == b.lineDashingPattern
  }

  /**
   * Two pages in the same rendering state: similar current and saved styles,
   * and the same effects performed under similar styles.
   */
  predicate Equivalent(m: Machine, n: Machine)
  {
    && Similar(m.current, n.current)
    && |m.saved| == |n.saved|
    && (forall i :: 0 <= i < |m.saved| ==> Similar(m.saved[i], n.saved[i]))
    && |m.effects| == |n.effects|
    && (forall i :: 0 <= i < |m.effects| ==>
          m.effects[i].op == n.effects[i].op && Similar(m.effects[i].style, n.effects[i].style))
  }

  /** Every attribute `cache` has set holds the same value in `style`. */
  predicate Agrees(cache: GraphicsState, style: GraphicsState)
  {
    && (cache.fillColor.Some? ==> style.fillColor == cache.fillColor)
    && (cache.lineColor.Some? ==> style.lineColor == cache.lineColor)
    && (cache.lineWidth.Some? ==> style.lineWidth == cache.lineWidth)
    && (cache.lineDashingPattern.Some? ==> style.lineDashingPattern == cache.lineDashingPattern)
  }

  /** Performing the same operation on equivalent pages keeps them equivalent. */
  lemma ApplyKeepsEquivalent(m: Machine, n: Machine, op: Page.Op)
    requires Equivalent(m, n)
    ensures Equivalent(Apply(m, op), Apply(n, op))
  {
    if op.RestoreGS? && m.saved != [] {
      assert Similar(m.saved[|m.saved| - 1], n.saved[|n.saved| - 1]);
    }
  }
}
