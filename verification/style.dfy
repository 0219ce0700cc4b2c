/**
 * The value objects the graphics context receives from its callers, and the
 * style cache it keeps. Engine-native resources (the Zend colour, font and
 * image objects) are opaque handles.
 */
module Style {
  import opened Wrappers

  /** An engine-native resource handle; the model never looks inside one. */
  type Handle = int

  /**
   * A colour: the component values it reports and the native colour it wraps.
   * The adapter compares colours by their components only.
   */
  datatype Color = Color(components: seq<int>, wrapped: Handle)

  /** An image wrapping a native image resource. */
  datatype Image = Image(wrapped: Handle)

  /** A font; `currentWrapped` is the native font it currently resolves to. */
  datatype Font = Font(currentWrapped: Handle)

  /** A line dashing pattern: the named "dotted" pattern or an explicit dash array. */
  datatype DashPattern = Dotted | Explicit(dashes: seq<int>)

  /** The dash array the named "dotted" pattern stands for. */
  const DottedDashes: seq<int> := [1, 2]

  /** The dash array a pattern denotes: "dotted" is replaced, anything else passes through. */
  function ResolveDashPattern(p: DashPattern): seq<int>
  {
    match p
    case Dotted => DottedDashes
    case Explicit(dashes) => dashes
  }

  /**
   * The four cached style attributes; `None` is the unset (null) slot.
   * The same shape also describes a page's effective style.
   */
  datatype GraphicsState = GraphicsState(
    fillColor: Option<Color>,
    lineColor: Option<Color>,
    lineWidth: Option<int>,
    lineDashingPattern: Option<seq<int>>)

  /** The cache of a freshly built context: nothing applied yet. */
  const Unset := GraphicsState(None, None, None, None)

  /** PHP truthiness of the cached width: null and 0 are both false. */
  predicate WidthIsFalsy(w: Option<int>)
  {
    w.None? || w.value == 0
  }

  /** True iff the slot holds a colour whose components equal `color`'s. */
  predicate SameComponents(slot: Option<Color>, color: Color)
  {
    slot.Some? && slot.value.components == color.components
  }
}
