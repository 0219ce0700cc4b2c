# PHPPdf Zend graphics context: a Dafny model

PHPPdf draws PDF pages through a graphics-context adapter over a Zend_Pdf page
(`lib/PHPPdf/Engine/ZF/GraphicsContext.php`). Most of the adapter forwards
calls straight to the page. Its own logic is a cache of four style attributes:
fill colour, line colour, line width and line dashing pattern. A setter
reaches the page only when its value differs from the cached one. The adapter
also keeps a single-slot memento that `saveGS` fills and `restoreGS` consumes.

The model in brief:

- The wrapped page is an append-only trace of the operations it receives
  (`Page.Op`).
- The adapter is a value `GraphicsContext.Context` made of the cache, the
  memento and the trace. Every public method is a pure function on it.
- `drawRoundedRectangle` returns `Failure(InvalidArgument(..))` for a fill
  type it does not recognise.
- `Session` turns method calls into a `Call` datatype. It defines `Step` for
  one call and `Run` for a sequence; a sequence stops at the first call that
  throws.

Beyond the per-method laws, the model proves that eliding is safe. Three parts
make up that proof:

- `PageSemantics` interprets a trace the way a PDF page treats it. The page
  holds a current style and a stack of saved styles, and every non-style
  operation is performed under the current style.
- `PlainAdapter` is a reference adapter with no cache. It forwards every call.
- `Soundness` proves two things. First, the cache never runs ahead of the
  page: every attribute it holds is the page's current value, and the memento
  agrees with the innermost saved state on every attribute it holds. Second,
  for any call sequence the eliding adapter fails exactly when the plain one
  does. When neither fails, the
  eliding adapter performs the same drawing operations under similar styles
  (colours compared by components), with no more page operations.

Modelling choices:

- Colours are `Style.Color(components, wrapped)` and are compared by their
  components. The page receives the wrapped native colour. The trace keeps the
  whole colour so that its components can be reasoned about.
- Images and fonts appear only as the native handles they wrap.
- Coordinates, sizes and widths are integers.
- The cached width is tested with PHP truthiness, so an unset width and a
  width of 0 both count as "not set".
- The source compares widths with loose `!=`. With integer widths this is
  plain inequality.
- A dash pattern is `Dotted | Explicit(dashes)`. `Dotted` resolves to `[1, 2]`
  before the comparison, and the resolved array is what gets cached and sent.
- A `restoreGS` with no memento sets the source's `$state` to null. Every
  later read of a key that has not been written since then yields null, the
  same value an unset attribute has, so the model writes this cache as
  `Style.Unset`. PHP also reports a notice for such a read (see Left out).
- `drawPolygon` forwards the caller's fill type without translating it. The
  model keeps that: `Page.DrawPolygon` carries the portable `FillType`.

`setLineWidth` always forwards a width of 0, because 0 is falsy at line 141 of
`GraphicsContext.php` (`Properties.ZeroWidthIsNeverElided`).

## Model

| member | source | states |
|---|---|---|
| GraphicsContext.SaveGS | lib/PHPPdf/Engine/ZF/GraphicsContext.php:52-56 | sends one save to the page, keeps the cache, and overwrites the memento with the current cache |
| GraphicsContext.RestoreGS | lib/PHPPdf/Engine/ZF/GraphicsContext.php:58-63 | sends one restore, takes the cache from the memento (all unset when there is none), and clears the memento |
| GraphicsContext.SetFillColor | lib/PHPPdf/Engine/ZF/GraphicsContext.php:81-88 | when the cached fill colour has the argument's components, nothing changes at all; otherwise exactly one SetFillColor goes to the page and the argument is cached; afterwards the cached fill colour has the argument's components; only the fill slot can change and the memento is kept |
| GraphicsContext.SetLineColor | lib/PHPPdf/Engine/ZF/GraphicsContext.php:90-97 | the same law for the line colour; the other three cache slots and the memento are untouched |
| GraphicsContext.SetLineWidth | lib/PHPPdf/Engine/ZF/GraphicsContext.php:139-146 | one SetLineWidth is sent if and only if the cached width is unset, is 0, or differs from the argument; otherwise nothing is sent; afterwards the cached width is the argument and nothing else in the cache or memento changes |
| GraphicsContext.SetLineDashingPattern | lib/PHPPdf/Engine/ZF/GraphicsContext.php:148-161 | the pattern is resolved ("dotted" becomes [1, 2]); the resolved array is sent if and only if it differs from the cached one; afterwards it is cached and nothing else changes |
| GraphicsContext.DrawRoundedRectangle | lib/PHPPdf/Engine/ZF/GraphicsContext.php:119-137 | fails with InvalidArgument carrying the value exactly when the fill type is unrecognised; on success exactly one rounded rectangle is sent, whose native fill type corresponds to the argument; cache and memento are untouched |
| GraphicsContext.DrawRoundedRectangleDefault | lib/PHPPdf/Engine/ZF/GraphicsContext.php:119-121 | with no fill type given, the call succeeds and draws with the native fill-and-stroke constant |
| FillTypes.TranslateFillType | lib/PHPPdf/Engine/ZF/GraphicsContext.php:124-137 | succeeds exactly for STROKE, FILL and FILL_AND_STROKE, and the native result maps back to the argument; any other value fails with InvalidArgument carrying that value |
| FillTypes.TranslateFromNative | lib/PHPPdf/Engine/ZF/GraphicsContext.php:126-133 | every native fill constant is the translation of its portable counterpart |
| FillTypes.TranslateInjective | lib/PHPPdf/Engine/ZF/GraphicsContext.php:126-133 | two fill types that translate to the same native constant are equal, so the mapping is one-to-one |
| Session.StepSendsForwardedOrNothing | lib/PHPPdf/Engine/ZF/GraphicsContext.php:47-161 | every call either sends exactly the operation it forwards or, for the four style setters only, sends nothing; a call fails exactly when its operation cannot be formed, and then nothing is sent |
| Session.DrawCallsLeaveStateAlone | lib/PHPPdf/Engine/ZF/GraphicsContext.php:47-122 | the contract of the forwarding methods `GraphicsContext.ClipRectangle`, `DrawImage`, `DrawLine`, `SetFont`, `DrawPolygon`, `DrawText`, and of a successful `DrawRoundedRectangle`: each sends exactly one non-style operation, the call's forwarded operation, and leaves the cache and memento unchanged |
| Session.RunExtendsPage | lib/PHPPdf/Engine/ZF/GraphicsContext.php:47-161 | the page is append-only: a run keeps the old trace as a prefix and adds at most one operation per call; calls that neither save nor restore keep the memento and send no save or restore |
| Properties.StyleSetterIdempotent | lib/PHPPdf/Engine/ZF/GraphicsContext.php:81-161 | a style setter followed by one with the same value changes nothing the second time, width 0 excepted; colours need only equal components (their native handles may differ), patterns only the same resolved dash array, so "dotted" after [1, 2] is elided too |
| Properties.ZeroWidthIsNeverElided | lib/PHPPdf/Engine/ZF/GraphicsContext.php:139-146 | setting width 0 twice sends two SetLineWidth(0) operations |
| Properties.DottedMatchesItsDashArray | lib/PHPPdf/Engine/ZF/GraphicsContext.php:148-161 | after "dotted" or [1, 2] is applied, setting either of them again sends nothing |
| Properties.SaveCallsRestore | lib/PHPPdf/Engine/ZF/GraphicsContext.php:52-63 | save, then any calls that neither save nor restore, then restore: the cache is back to its value at the save and the memento is cleared; the save and the restore each send one operation, at the two ends of the run |
| Properties.NestedSaveRestoresLaterSnapshot | lib/PHPPdf/Engine/ZF/GraphicsContext.php:52-63 | the memento is a single slot: after two saves, a restore returns the cache to its value at the second save |
| Properties.RestoreWithoutSnapshotForgetsCache | lib/PHPPdf/Engine/ZF/GraphicsContext.php:58-63 | a restore with no memento leaves every attribute unset, so the next fill colour is always sent |
| Properties.RestoredFillColorDecidesElision | lib/PHPPdf/Engine/ZF/GraphicsContext.php:52-88 | with RED set, then save, then BLUE, then restore: setting RED is elided and setting BLUE is sent |
| Soundness.StepKeepsCacheSound | lib/PHPPdf/Engine/ZF/GraphicsContext.php:22-161 | every call keeps two things true: each cached attribute equals the page's current value, and every attribute the memento holds equals that attribute in the page's innermost saved state |
| Soundness.RunTracksPlain | lib/PHPPdf/Engine/ZF/GraphicsContext.php:47-161 | over any call sequence, the eliding adapter and the always-forwarding adapter fail together; on success they keep cache soundness and render alike |
| Soundness.ElisionIsInvisible | lib/PHPPdf/Engine/ZF/GraphicsContext.php:81-161 | from a fresh adapter, each drawing operation is performed under a style similar to the one the always-forwarding adapter gives it; the same calls fail; no more page operations are sent |
| PlainAdapter.PlainRun | lib/PHPPdf/Engine/ZF/GraphicsContext.php:47-161 | the reference adapter without a cache succeeds exactly when every call's operation can be formed; it then keeps the old trace and appends, for the i-th call, exactly that call's forwarded operation; on failure the error is one of the calls' errors |

## Left out

- `uriAction`, `goToAction`, `createAnnotationLink` and `addBookmark` (lines 164-225): they only build Zend annotation, destination and outline objects and re-wrap Zend exceptions. No adapter state is involved.
- `__clone` and `getPage`: the independent page copy is made by the external Zend page object.
- `getWrappedColor`, `getWrappedImage`, `getCurrentWrappedFont`: these are modelled as the opaque handles `Color.wrapped`, `Image.wrapped` and `Font.currentWrapped`.
- The Zend page itself, including the content-stream bytes it writes and the errors it may raise, for example on a restore with nothing saved. The page never fails in this model. The trace interpreter treats a restore with nothing saved as a no-op.
- The constructor's engine reference: only `addBookmark` uses it.
- Floating-point coordinates and widths: they are modelled as integers.
- Notices from a memento-less `restoreGS`: afterwards `$state` is null, the first setter makes it a one-key array, and later reads of the other keys raise PHP's undefined-index notice (a warning on PHP 8) while yielding null. The model keeps the values read and does not model the notices.
- PHP loose comparison: the `switch` in `setLineDashingPattern` and `translateFillType` and the `!=` on widths. `Dotted` and the three fill types are distinct constructors. Scalar dash constants other than "dotted" are not modelled.
