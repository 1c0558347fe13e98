# RoundedImageView shape logic in Dafny

RoundedImageView is an Android `ImageView` that masks its picture. The mask is either a circle or a rectangle whose corners can each be rounded. A "reverse mask" mode clips the inside of the shape instead of the outside. This project models the part of the view that decides which mask to build and keeps that mask in step with the view's state. It then proves what that logic promises.

The project has five modules:

- `JvmInt` (`jvm_int.dfy`) models Kotlin `Int` arithmetic. Sums and differences wrap around at 32 bits, and `/ 2` rounds toward zero.
- `CornerMask` (`corner_mask.dfy`) covers the four corners and the corner bitmask: top-left 8, top-right 4, bottom-left 2, bottom-right 1, all 15. It has a decoder, an encoder, and decoding from the set of corners that `setRoundCorners` takes.
- `Graphics` (`graphics.dfy`) models `android.graphics.Path` as a class. It records the commands issued on it and its fill type. A pen-walk semantics (`Trace`, `Visits`, `Controls`) says where relative commands take the pen.
- `Shapes` (`shapes.dfy`) holds the companion builders `circlePath` and `roundedRect`. Both are methods that reset the shared path and append commands to it step by step. Each is proved against a function giving the command list. Lemmas about those functions cover:
  - radius clamping;
  - each corner's displacement and control point or vertex;
  - closure of the outline back to its start point;
  - the fill type under the reverse mask.
- `View` (`view.dfy`) holds the `RoundedImageView` class. Its fields are:
  - the four corner flags and the corner radius;
  - the reverse mask;
  - the path size and `isCircle`;
  - the saved `_padding*` values and the view's padding;
  - the outline provider;
  - the one `Path` object.

  Its methods are the setters, `onSizeChanged`, `fixPadding`/`copyPadding`, `setupPath` and `setOutlineProvider`. Each is proved against pure functions of the state:
  - `FixedPadding`, for the padding;
  - `IsCircleShape`, for the circle test;
  - `ResolveProvider`/`RefreshedProvider`, for the provider;
  - `RoundedRectangleOutline`, for the outline fallback.

  Two predicates hold between calls:
  - `Valid()`: `isCircle` is the circle test on the current fields, a built-in provider is the one the state calls for, and the padding is settled.
  - `PathInSync()`: the path holds exactly the mask that `setupPath` builds for the current state.

Coordinates are `real`. Kotlin `Int` values are `Int32`.


## Model

| member | source | states |
|---|---|---|
| JvmInt.Wrap | roundedimageview/src/main/java/com/rishabhharit/roundedimageview/RoundedImageView.kt:101-102 | the 32-bit result of an Int operation is congruent to the exact value modulo 2^32, and equals it when it is in range |
| JvmInt.Plus | roundedimageview/src/main/java/com/rishabhharit/roundedimageview/RoundedImageView.kt:101-102 | Kotlin `+` on Int is congruent to the exact sum modulo 2^32, so it is the wrapped 32-bit sum, and it equals the exact sum whenever that is in range |
| JvmInt.Minus | roundedimageview/src/main/java/com/rishabhharit/roundedimageview/RoundedImageView.kt:101-102 | Kotlin `-` on Int is congruent to the exact difference modulo 2^32, so it is the wrapped 32-bit difference, and it equals the exact difference whenever that is in range |
| JvmInt.Half | roundedimageview/src/main/java/com/rishabhharit/roundedimageview/RoundedImageView.kt:182 | `x / 2` rounds toward zero: for x >= 0 the remainder x - 2r is 0 or 1, for x < 0 it is 0 or -1 |
| CornerMask.And | roundedimageview/src/main/java/com/rishabhharit/roundedimageview/RoundedImageView.kt:157-162 | masking with a single-bit constant yields either 0 or that bit |
| CornerMask.DecodeHas | roundedimageview/src/main/java/com/rishabhharit/roundedimageview/RoundedImageView.kt:157-162 | after decoding a bitmask, a corner is rounded exactly when its bit (8, 4, 2 or 1) is set |
| CornerMask.DecodeConstants | roundedimageview/src/main/java/com/rishabhharit/roundedimageview/RoundedImageView.kt:294-298 | 15 rounds all four corners, 0 rounds none, and each corner's own constant rounds just that corner |
| CornerMask.Encode | roundedimageview/src/main/java/com/rishabhharit/roundedimageview/RoundedImageView.kt:294-298 | the bitmask of a corner set lies in 0..15; it is 0 exactly for no rounded corner and 15 exactly for all four |
| CornerMask.DecodeEncode | roundedimageview/src/main/java/com/rishabhharit/roundedimageview/RoundedImageView.kt:157-162 | decoding the bitmask of any corner set gives back that set |
| CornerMask.EncodeDecode | roundedimageview/src/main/java/com/rishabhharit/roundedimageview/RoundedImageView.kt:157-162 | decoding then encoding an Int keeps exactly its low four bits (n mod 16), negative Ints included |
| CornerMask.DecodeLowBits | roundedimageview/src/main/java/com/rishabhharit/roundedimageview/RoundedImageView.kt:157-162 | bits above the lowest four do not affect the decoded corners |
| CornerMask.Decode | roundedimageview/src/main/java/com/rishabhharit/roundedimageview/RoundedImageView.kt:157-162 | the four flags setRoundedCornersInternal derives from an Int, each `BIT == n and BIT`; DecodeHas states which bit sets which flag, EncodeDecode/DecodeEncode tie it to Encode |
| CornerMask.FromSet | roundedimageview/src/main/java/com/rishabhharit/roundedimageview/RoundedImageView.kt:144-152 | a corner is rounded exactly when it is in the given set |
| Graphics.FillType.Toggled | roundedimageview/src/main/java/com/rishabhharit/roundedimageview/RoundedImageView.kt:368 | toggling a fill type flips whether it is inverse |
| Graphics.WalkAppend | roundedimageview/src/main/java/com/rishabhharit/roundedimageview/RoundedImageView.kt:333-366 | walking commands a then b ends where walking b from the end of a ends; the points visited and the control points are concatenated |
| Graphics.NoControlsNoCurves | roundedimageview/src/main/java/com/rishabhharit/roundedimageview/RoundedImageView.kt:333-366 | a command list without control points contains no quadratic curve |
| Graphics.Path.constructor | roundedimageview/src/main/java/com/rishabhharit/roundedimageview/RoundedImageView.kt:95 | a new path is empty, with the WINDING fill type |
| Graphics.Path.Reset | roundedimageview/src/main/java/com/rishabhharit/roundedimageview/RoundedImageView.kt:301 | reset empties the command list |
| Graphics.Path.MoveTo | roundedimageview/src/main/java/com/rishabhharit/roundedimageview/RoundedImageView.kt:333 | appends one absolute move to the recorded commands |
| Graphics.Path.RLineTo | roundedimageview/src/main/java/com/rishabhharit/roundedimageview/RoundedImageView.kt:337-340 | appends one relative line to the recorded commands |
| Graphics.Path.RQuadTo | roundedimageview/src/main/java/com/rishabhharit/roundedimageview/RoundedImageView.kt:335 | appends one relative quadratic curve to the recorded commands |
| Graphics.Path.AddCircle | roundedimageview/src/main/java/com/rishabhharit/roundedimageview/RoundedImageView.kt:303 | appends one circle to the recorded commands |
| Graphics.Path.Close | roundedimageview/src/main/java/com/rishabhharit/roundedimageview/RoundedImageView.kt:366 | appends close to the recorded commands |
| Graphics.Path.SetFillType | roundedimageview/src/main/java/com/rishabhharit/roundedimageview/RoundedImageView.kt:304 | the path's fill type becomes the given one |
| Shapes.FillFor | roundedimageview/src/main/java/com/rishabhharit/roundedimageview/RoundedImageView.kt:304 | the fill type is EVEN_ODD or INVERSE_EVEN_ODD, and it is inverse exactly when the reverse mask is off |
| Shapes.ReverseMaskTogglesFill | roundedimageview/src/main/java/com/rishabhharit/roundedimageview/RoundedImageView.kt:368 | flipping the reverse mask flips the fill type to its inverse counterpart |
| Shapes.ClampRadius | roundedimageview/src/main/java/com/rishabhharit/roundedimageview/RoundedImageView.kt:313-329 | roundedRect's clamping of one radius: negative to 0, then above half the extent to half the extent; ClampRadiusBounds states its range, identity in range and idempotence |
| Shapes.ClampRadiusBounds | roundedimageview/src/main/java/com/rishabhharit/roundedimageview/RoundedImageView.kt:313-329 | the clamped radius is min(max(r, 0), extent/2). For extent >= 0 it lies in [0, extent/2]. A radius already in range is kept, and clamping twice equals clamping once |
| Shapes.RoundedRectClamped | roundedimageview/src/main/java/com/rishabhharit/roundedimageview/RoundedImageView.kt:313-329 | any rx and ry give the same outline as their clamped values: a radius over the limit acts as the limit, and a negative one as 0 |
| Shapes.CircleRadius | roundedimageview/src/main/java/com/rishabhharit/roundedimageview/RoundedImageView.kt:302 | the circle's radius is half of one of the sides and at most half of each; it is non-negative for non-negative sides |
| Shapes.CircleCmds | roundedimageview/src/main/java/com/rishabhharit/roundedimageview/RoundedImageView.kt:300-306 | the one command circlePath records: a counter-clockwise circle at (x, y) with CircleRadius; CirclePath is proved to record exactly this |
| Shapes.CirclePath | roundedimageview/src/main/java/com/rishabhharit/roundedimageview/RoundedImageView.kt:300-306 | circlePath returns the path it was given. The path holds exactly one counter-clockwise circle at (x, y) with radius min(w, h)/2, and the mask's fill type |
| Shapes.Side | roundedimageview/src/main/java/com/rishabhharit/roundedimageview/RoundedImageView.kt:334-340 | one corner (one curve, or two lines) followed by the straight side is appended to the path |
| Shapes.Walk | roundedimageview/src/main/java/com/rishabhharit/roundedimageview/RoundedImageView.kt:333-366 | the move, four corners, four sides and close are appended in the source's order, and the result is the outline function |
| Shapes.OutlineCmds | roundedimageview/src/main/java/com/rishabhharit/roundedimageview/RoundedImageView.kt:333-366 | the move, the four corner-and-side pieces (OutlineSide) and close that roundedRect records for given radii; OutlineCloses and OutlineCorners state its closure and corner geometry |
| Shapes.RoundedRectCmds | roundedimageview/src/main/java/com/rishabhharit/roundedimageview/RoundedImageView.kt:313-366 | the outline for the radii after clamping; RoundedRectClamped states that clamped and unclamped radii give the same outline, SharpRectangle that no rounded corner gives no curve |
| Shapes.RoundedRect | roundedimageview/src/main/java/com/rishabhharit/roundedimageview/RoundedImageView.kt:308-370 | roundedRect returns the path it was given. The path holds the outline for the clamped radii and the four corner flags, with the mask's fill type |
| Shapes.CornerWalk | roundedimageview/src/main/java/com/rishabhharit/roundedimageview/RoundedImageView.kt:334-339 | a corner moves the pen by the same displacement whether it is rounded (one curve) or sharp (two lines). A rounded corner's control point is the first leg's end, and a sharp corner passes through it |
| Shapes.SideWalk | roundedimageview/src/main/java/com/rishabhharit/roundedimageview/RoundedImageView.kt:334-340 | a corner followed by its straight side moves the pen by the sum of the three legs; the control points and vertex are as for the corner |
| Shapes.OutlineSideWalk | roundedimageview/src/main/java/com/rishabhharit/roundedimageview/RoundedImageView.kt:333-364 | each corner's part of the walk takes the pen to the next corner's start. A rounded corner's one control point is the rectangle's vertex, and a sharp corner's path visits that vertex |
| Shapes.OutlineWalk | roundedimageview/src/main/java/com/rishabhharit/roundedimageview/RoundedImageView.kt:333-364 | the four parts of the walk in sequence bring the pen back to (right, top + ry); the control points are the vertices of the rounded corners |
| Shapes.OutlineCloses | roundedimageview/src/main/java/com/rishabhharit/roundedimageview/RoundedImageView.kt:333-366 | the outline starts with a move to (right, top + ry) and ends with close. The relative steps before the close return the pen to that start, for any radii |
| Shapes.OutlineCorners | roundedimageview/src/main/java/com/rishabhharit/roundedimageview/RoundedImageView.kt:333-366 | the outline's curve control points are exactly the vertices of the rounded corners, in walk order; the outline passes through the vertex of every sharp corner |
| Shapes.SharpRectangle | roundedimageview/src/main/java/com/rishabhharit/roundedimageview/RoundedImageView.kt:333-366 | with no corner rounded the outline contains no curve |
| View.FixedPadding | roundedimageview/src/main/java/com/rishabhharit/roundedimageview/RoundedImageView.kt:73-91 | the padding state fixPadding leaves, the nested setPaddingRelative call included; FixPaddingEffect, FixPaddingIdempotent and ReverseMaskRoundTripLosesPadding state its effect |
| View.FixPaddingEffect | roundedimageview/src/main/java/com/rishabhharit/roundedimageview/RoundedImageView.kt:73-91 | Under the reverse mask, fixPadding zeroes the padding and saves any non-zero padding from before the call. Otherwise it keeps the padding and sets the saved copy to it. Either way the result is settled |
| View.FixPaddingIdempotent | roundedimageview/src/main/java/com/rishabhharit/roundedimageview/RoundedImageView.kt:83-89 | a settled padding is left alone, so the nested fixPadding reached through setPaddingRelative does nothing; fixPadding is idempotent |
| View.ReverseMaskRoundTripLosesPadding | roundedimageview/src/main/java/com/rishabhharit/roundedimageview/RoundedImageView.kt:73-91 | turning the reverse mask on and off again ends with zero padding: a non-zero padding is not restored |
| View.IsCircleShape | roundedimageview/src/main/java/com/rishabhharit/roundedimageview/RoundedImageView.kt:181-182 | setupPath's circle test on the corner flags, radius and path size with Int halves; CircleClassification characterises it without division |
| View.CircleClassification | roundedimageview/src/main/java/com/rishabhharit/roundedimageview/RoundedImageView.kt:181-182 | the shape is a circle exactly when all four corners are rounded and the radius reaches half of each side, halves rounded toward zero; one sharp corner rules a circle out |
| View.HalfBound | roundedimageview/src/main/java/com/rishabhharit/roundedimageview/RoundedImageView.kt:182 | `radius >= n / 2` with Int division is 2·radius + 1 >= n for n >= 0, and 2·radius >= n for n < 0 |
| View.CircleExamples | roundedimageview/src/main/java/com/rishabhharit/roundedimageview/RoundedImageView.kt:181-182 | 400×400 with radius 200 and 401×400 with radius 200 are circles; radius 199 is not, nor radius 40 with only the top corners rounded |
| View.ChosenProvider | roundedimageview/src/main/java/com/rishabhharit/roundedimageview/RoundedImageView.kt:248-252 | setOutlineProvider's choice: none under the reverse mask, else circular for a circle, else rounded-rectangle; ProviderChoice states each case both ways |
| View.ResolveProvider | roundedimageview/src/main/java/com/rishabhharit/roundedimageview/RoundedImageView.kt:241-257 | the provider setOutlineProvider stores: the choice for a built-in request, the request itself otherwise; ProviderChoice states it |
| View.ProviderChoice | roundedimageview/src/main/java/com/rishabhharit/roundedimageview/RoundedImageView.kt:241-257 | for a built-in request, the stored provider is none exactly under the reverse mask. It is circular exactly for an unreversed circle, and rounded-rectangle exactly otherwise. BACKGROUND is never stored, and a custom provider is stored as is |
| View.RefreshedProvider | roundedimageview/src/main/java/com/rishabhharit/roundedimageview/RoundedImageView.kt:200-204 | setupPath's refresh: a built-in provider is re-requested as BACKGROUND, any other kept; ProviderRefresh states that it matches the state and never reinstates a cleared provider |
| View.ProviderRefresh | roundedimageview/src/main/java/com/rishabhharit/roundedimageview/RoundedImageView.kt:200-204 | setupPath's refresh leaves a provider that matches the state; once the reverse mask has cleared a built-in provider, no later refresh reinstates one |
| View.RoundedRectangleOutline | roundedimageview/src/main/java/com/rishabhharit/roundedimageview/RoundedImageView.kt:229-239 | RoundedRectangleOutlineProvider.getOutline with the platform's acceptance as an input; OutlineFallback states when each outline results and the round rectangle's box |
| View.OutlineFallback | roundedimageview/src/main/java/com/rishabhharit/roundedimageview/RoundedImageView.kt:229-239 | The outline is the convex path exactly when it is accepted. Otherwise it is a round rectangle exactly when all corners are rounded, and empty exactly when one is sharp. Without overflow, the round rectangle is the padded content box with the corner radius |
| View.RoundedImageView.Plain | roundedimageview/src/main/java/com/rishabhharit/roundedimageview/RoundedImageView.kt:35-38 | the one-argument constructor builds a view with its own new path, no rounded corner, radius 0, no reverse mask, size 0 and no padding. It is valid, holds its mask, and has the rounded-rectangle provider |
| View.RoundedImageView.FromAttributes | roundedimageview/src/main/java/com/rishabhharit/roundedimageview/RoundedImageView.kt:40-51 | the attribute constructor gives the view its own new path and stores the radius, the decoded corner mask and the reverse mask. It fixes the initial padding for the mode, is valid, and holds its mask |
| View.RoundedImageView.CopyPadding | roundedimageview/src/main/java/com/rishabhharit/roundedimageview/RoundedImageView.kt:66-71 | the saved padding becomes the view's current padding |
| View.RoundedImageView.FixPadding | roundedimageview/src/main/java/com/rishabhharit/roundedimageview/RoundedImageView.kt:73-91 | the padding state becomes FixedPadding of the old one (see FixPaddingEffect) and is settled |
| View.RoundedImageView.SetPaddingRelative | roundedimageview/src/main/java/com/rishabhharit/roundedimageview/RoundedImageView.kt:273-276 | the new padding is set and then fixed for the current mode; the view stays valid |
| View.RoundedImageView.SetPadding | roundedimageview/src/main/java/com/rishabhharit/roundedimageview/RoundedImageView.kt:278-281 | as SetPaddingRelative, with left as start and right as end |
| View.RoundedImageView.SetupPath | roundedimageview/src/main/java/com/rishabhharit/roundedimageview/RoundedImageView.kt:180-210 | isCircle becomes the circle test. The path holds the circle or the rounded rectangle of the padded box, with the mode's fill type. A built-in provider is re-chosen, and corners and padding are unchanged |
| View.RoundedImageView.BuildCircle | roundedimageview/src/main/java/com/rishabhharit/roundedimageview/RoundedImageView.kt:183-184 | isCircle is set, and the path is the circle centred in the padded box |
| View.RoundedImageView.BuildRoundedRect | roundedimageview/src/main/java/com/rishabhharit/roundedimageview/RoundedImageView.kt:185-198 | isCircle is cleared, and the path is roundedRect's outline of the padded box with the corner radius |
| View.RoundedImageView.SetOutlineProvider | roundedimageview/src/main/java/com/rishabhharit/roundedimageview/RoundedImageView.kt:241-257 | a built-in request is replaced by the view's own choice (none, circular or rounded-rectangle), and any other is kept; the mask is untouched |
| View.RoundedImageView.OnSizeChanged | roundedimageview/src/main/java/com/rishabhharit/roundedimageview/RoundedImageView.kt:99-109 | the path size becomes the new size less the saved paddings, with Int arithmetic. When that size changed the mask is rebuilt and a built-in provider refreshed (a custom or cleared one is kept); otherwise nothing else changes |
| View.RoundedImageView.SetCornerRadiusInternal | roundedimageview/src/main/java/com/rishabhharit/roundedimageview/RoundedImageView.kt:121-127 | the radius is stored, and the result is true exactly when it differs from the old one |
| View.RoundedImageView.SetCornerRadius | roundedimageview/src/main/java/com/rishabhharit/roundedimageview/RoundedImageView.kt:114-118 | the radius is stored; when it changed the mask is rebuilt and the provider refreshed as by setupPath, otherwise the shape, provider and path are unchanged |
| View.RoundedImageView.SetReverseMask | roundedimageview/src/main/java/com/rishabhharit/roundedimageview/RoundedImageView.kt:133-139 | on a change, the flag is stored, the padding is fixed for the new mode, the mask is rebuilt and the provider refreshed; with no change, nothing changes |
| View.RoundedImageView.SetRoundCorners | roundedimageview/src/main/java/com/rishabhharit/roundedimageview/RoundedImageView.kt:144-155 | the corners become exactly those in the set; when a flag changed the mask is rebuilt and the provider refreshed as by setupPath, otherwise shape, provider and path are unchanged |
| View.RoundedImageView.SetRoundedCornersInternal | roundedimageview/src/main/java/com/rishabhharit/roundedimageview/RoundedImageView.kt:157-162 | the four flags become the decoded bitmask |
| View.RoundedImageView.SetRoundedCorners | roundedimageview/src/main/java/com/rishabhharit/roundedimageview/RoundedImageView.kt:167-170 | the flags become the decoded bitmask; the mask is always rebuilt and the provider refreshed as by setupPath |
| View.RoundedImageView.RoundedRectangleGetOutline | roundedimageview/src/main/java/com/rishabhharit/roundedimageview/RoundedImageView.kt:229-239 | the outline follows the fallback rule on the view's own path and corners. With this provider installed, a fallback round rectangle starts at the saved start and top paddings |

## Left out

- `onDraw` and `setupPaint` are not modelled. They draw through `saveLayer` and `drawPath` with a CLEAR `PorterDuffXfermode`, and that canvas compositing is not visible in the repository.
- Attribute parsing (`obtainStyledAttributes`, `recycle`) is left out. `FromAttributes` takes the parsed corner radius, the corner bitmask (whose XML default is 15) and the reverse mask as inputs.
- The three-argument constructor is left out. It does the same as the two-argument one and is covered by `FromAttributes`.
- The `Build.VERSION` checks are left out; the model behaves as on API 21 and later. The `isInEditMode`/`clipToOutline` tweak is also left out.
- Float arithmetic is modelled with exact `real` numbers. The model claims no bit-exact float results.
- `CircularOutlineProvider` (its oval bounds use `Math.ceil().roundToInt()`) is not modelled. In the model, the circular provider is only a value of `Provider`.
- Whether `Outline.setConvexPath` throws is decided by the platform. It is the boolean input `convexAccepted`.
- The pen position after `addCircle` is not modelled. `Trace` leaves the pen where it was, since no outline lemma needs it.
- `SetPadding` models a left-to-right layout, where left is start and right is end.
- The paddings the platform may set before the view's own constructor body runs are not modelled. `Plain` starts with no padding.
- The calls the super constructor may make into the overrides are left out.
- Outline providers are values, not objects, so provider identity and custom providers' behaviour are left out. `Custom(id)` stands for any provider the host installs.
- `example/src/main/java/com/rishabhharit/MainActivity.kt` only sets up an activity and loads images, so it is left out.
- `View.RoundedImageView.FixPadding`, `SetPadding` and `SetPaddingRelative` do not rebuild the mask. This matches the source, where the mask follows a padding change only at the next `setupPath`. So those methods keep `Valid()` but promise nothing about `PathInSync()`.
- View.RoundedImageView.FromAttributes: does not state that the path size is 0 and the provider is the built-in choice. It states validity, the stored attributes, the fixed padding and the synchronised mask.
- Shapes.RoundedRect: does not model the NullPointerException that `path!!.reset()` throws when the companion `roundedRect` is given a null path; the model's path is never null, because setupPath always passes the view's own path.
- The `Corner` enum's `ALL` and `TOP` sets are not modelled. They are plain constants that no core operation uses.
