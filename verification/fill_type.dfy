/**
 * The portable shape-drawing fill types and their translation to the page's
 * native constants.
 */
module FillTypes {
  import opened Wrappers

  /**
   * The fill type a caller passes. `Unrecognized` stands for any value other
   * than the three named constants.
   */
  datatype FillType = Stroke | Fill | FillAndStroke | Unrecognized(raw: int)

  /** The page's own fill-type constants. */
  datatype NativeFillType = NativeStroke | NativeFill | NativeFillAndStroke

  /** The errors the adapter raises itself. */
  datatype Error = InvalidArgument(fillType: FillType)

  /** The fill type `drawRoundedRectangle` uses when the caller gives none. */
  const DefaultFillType: FillType := FillAndStroke

  /** The portable constant a native one corresponds to (the inverse mapping). */
  function FromNative(n: NativeFillType): (t: FillType)
    ensures !t.Unrecognized?
  {
    match n
    case NativeStroke => Stroke
    case NativeFill => Fill
    case NativeFillAndStroke => FillAndStroke
  }

  /**
   * Maps a portable fill type to the native one, or fails with
   * InvalidArgument carrying the offending value.
   */
  function TranslateFillType(t: FillType): (r: Result<NativeFillType, Error>)
    ensures r.Success? <==> !t.Unrecognized?
    ensures r.Success? ==> FromNative(r.value) == t
    ensures r.Failure? ==> r.error == InvalidArgument(t)
  {
    match t
    case Stroke => Success(NativeStroke)
    case Fill => Success(NativeFill)
    case FillAndStroke => Success(NativeFillAndStroke)
    case Unrecognized(_) => Failure(InvalidArgument(t))
  }

  /** Every native constant is reached, from exactly its portable counterpart. */
  lemma TranslateFromNative(n: NativeFillType)
    ensures TranslateFillType(FromNative(n)) == Success(n)
  {
  }

  /** The translation is one-to-one on the recognised constants. */
  lemma TranslateInjective(a: FillType, b: FillType)
    requires TranslateFillType(a).Success?
    requires TranslateFillType(a) == TranslateFillType(b)
    ensures a == b
  {
    assert FromNative(TranslateFillType(a).value) == a;
  }
}
