# FillingProgressBar — a verified model of the widget's core

The library draws a circular "filling" progress indicator as an Android `View`.
It draws three concentric circles:

- a filled disc whose alpha follows the progress;
- a back stroke (the track);
- a front stroke tinted by the fill colour.

The disabled state repaints all three with a disabled colour at reduced opacity.

This project models the `FillingProgressBar` class. It covers:

- the configuration fields and the three `Paint` objects;
- the property setters, `init` and `setEnabled`, which update the paints in place;
- the colour helpers `colorLightModifying`, `Paint.computeAlpha` and `Paint.computeBackStrokeAlpha`;
- `checkProgress`;
- the circle commands `onDraw` issues;
- the intrinsic size `onMeasure` asks for.

Modules:

- `ColorMath` (`color_math.dfy`): 8-bit ARGB channels, darkening by the light modifier 0.9, the two alpha rules with the disabled opacity 0.38, and the alpha after repeated progress updates. The product alpha × progress is written as repeated addition (`Scaled`), with a lemma proving it equal to the product, so that the proofs about truncated alphas stay in linear arithmetic.
- `PaintRules` (`paint_rules.dfy`): the three paint colours as a `Palette` value, and what `setEnabled` and the progress setter turn them into.
- `Geometry` (`geometry.dfy`): the circle command and Kotlin's `Float.toInt()`.
- `ProgressBar` (`filling_progress_bar.dfy`): the `Paint` and `FillingProgressBar` classes, `checkProgress`, and `Create`, which is `init` with its exception.
- `Scenarios` (`scenarios.dfy`): call sequences on the class, proved from its contracts.

The class invariant `Valid()` holds after construction and after every setter. It states:

- the progress is in [0, 1];
- the fill and front stroke share one alpha;
- while enabled, the track is the back-stroke colour, the fill has the fill colour's hue and at most its alpha, and the front stroke has the fill colour's hue, plain or darkened;
- while disabled, all three paints have the disabled hue, and the progress-driven paints are never more opaque than the track.

Behaviours of the code that the model states as written:

- The progress setter (lines 100-101) rescales the alpha the fill and front stroke currently hold, not the configured colour's alpha, so alphas compound: 255, then 127, then 63 for progress 0.5 set twice.
- The front stroke is darkened by the `frontFillColor` setter (line 69) and in `init` (line 138), but `setEnabled(true)` gives it the undarkened fill colour (line 154). So an enabled front stroke is darkened or not depending on which of these ran last.
- `init` ends by calling `setEnabled` (line 148), so the paints after construction are `setEnabled`'s result. The darkened front stroke built at line 138 is overwritten.
- The `strokeWidth` setter never updates the paints' stroke widths. `onDraw` places the rings by the new width but strokes them with the old one.

## Model

| member | source | states |
|---|---|---|
| ColorMath.ScaleChannel | fillingprogressbar/src/main/java/kanti/fillingprogressbar/FillingProgressBar.kt:203-205 | a channel times 0.9, truncated: at most the original channel and still a byte |
| ColorMath.Darken | fillingprogressbar/src/main/java/kanti/fillingprogressbar/FillingProgressBar.kt:195-207 | `colorLightModifying`: alpha kept; each of R, G, B is the truncation of channel × 0.9 and is at most the original |
| ColorMath.DarkenFixedPoint | fillingprogressbar/src/main/java/kanti/fillingprogressbar/FillingProgressBar.kt:195-207 | darkening leaves a colour unchanged if and only if its R, G and B are all zero |
| ColorMath.DarkenWhite | fillingprogressbar/src/main/java/kanti/fillingprogressbar/FillingProgressBar.kt:201-206 | truncation, not rounding: 255 becomes 229 and 200 becomes 180 |
| ColorMath.ScaledIsProduct | fillingprogressbar/src/main/java/kanti/fillingprogressbar/FillingProgressBar.kt:211 | the repeated-addition `Scaled(a, p)` that the alpha rules use is exactly the product a × p |
| ColorMath.ScaledBounds | fillingprogressbar/src/main/java/kanti/fillingprogressbar/FillingProgressBar.kt:211 | a × progress lies in [0, a] for a progress in [0, 1] (arithmetic support for the `ScaleAlpha` lemmas) |
| ColorMath.ScaledMonotone | fillingprogressbar/src/main/java/kanti/fillingprogressbar/FillingProgressBar.kt:211 | a × progress grows with the progress (arithmetic support for the `ScaleAlpha` lemmas) |
| ColorMath.ScaledBelow | fillingprogressbar/src/main/java/kanti/fillingprogressbar/FillingProgressBar.kt:211 | a × progress is strictly below a when a > 0 and progress < 1 (arithmetic support for the `ScaleAlpha` lemmas) |
| ColorMath.ScaledEnds | fillingprogressbar/src/main/java/kanti/fillingprogressbar/FillingProgressBar.kt:211 | a × 1 = a and a × 0 = 0 (arithmetic support for the `ScaleAlpha` lemmas) |
| ColorMath.TruncateWithin | fillingprogressbar/src/main/java/kanti/fillingprogressbar/FillingProgressBar.kt:211 | `toInt()` of a value in [0, hi] is its integer part and stays in [0, hi] (arithmetic support for the `ScaleAlpha` lemmas) |
| ColorMath.Faded | fillingprogressbar/src/main/java/kanti/fillingprogressbar/FillingProgressBar.kt:221 | `toInt()` of a value × 0.38 is its integer part and stays in [0, hi] (arithmetic support for `ScaleAlpha` and `BackStrokeAlpha`) |
| ColorMath.ScaleAlpha | fillingprogressbar/src/main/java/kanti/fillingprogressbar/FillingProgressBar.kt:209-215 | `computeAlpha`: the new alpha is the truncation of a × progress when enabled and of a × progress × 0.38 when disabled, and lies in [0, a] |
| ColorMath.ScaleAlphaTruncatesProduct | fillingprogressbar/src/main/java/kanti/fillingprogressbar/FillingProgressBar.kt:209-215 | `computeAlpha` stated over the real product itself: the new alpha is ⌊a × progress⌋ when enabled and ⌊a × progress × 0.38⌋ when disabled |
| ColorMath.BackStrokeAlpha | fillingprogressbar/src/main/java/kanti/fillingprogressbar/FillingProgressBar.kt:217-223 | `computeBackStrokeAlpha`: the alpha is unchanged when enabled and is the truncation of a × 0.38 when disabled; it takes no progress |
| ColorMath.ScaleAlphaMonotone | fillingprogressbar/src/main/java/kanti/fillingprogressbar/FillingProgressBar.kt:209-215 | a larger progress never gives a smaller alpha |
| ColorMath.DisabledNotBrighter | fillingprogressbar/src/main/java/kanti/fillingprogressbar/FillingProgressBar.kt:209-215 | the disabled alpha is at most the enabled alpha for the same a and progress |
| ColorMath.DisabledBelowTrack | fillingprogressbar/src/main/java/kanti/fillingprogressbar/FillingProgressBar.kt:209-223 | when disabled, a progress-driven alpha is at most the back-stroke alpha from the same colour |
| ColorMath.ScaleAlphaEnds | fillingprogressbar/src/main/java/kanti/fillingprogressbar/FillingProgressBar.kt:209-215 | progress 1 keeps an enabled alpha; progress 0 clears it in both states |
| ColorMath.ScaleAlphaShrinks | fillingprogressbar/src/main/java/kanti/fillingprogressbar/FillingProgressBar.kt:209-215 | a progress below 1 strictly lowers a non-zero alpha |
| ColorMath.Rescaled | fillingprogressbar/src/main/java/kanti/fillingprogressbar/FillingProgressBar.kt:95-103 | the alpha after n progress updates with one value is at most the starting alpha |
| ColorMath.RescaledFades | fillingprogressbar/src/main/java/kanti/fillingprogressbar/FillingProgressBar.kt:95-103 | repeating a progress below 1 loses at least one alpha step per update, so the paint is transparent after `a` updates |
| ColorMath.RescaledHalfTwice | fillingprogressbar/src/main/java/kanti/fillingprogressbar/FillingProgressBar.kt:99-101 | progress 0.5 set twice takes alpha 255 to 127, then 63 |
| PaintRules.ProgressLayer | fillingprogressbar/src/main/java/kanti/fillingprogressbar/FillingProgressBar.kt:209-215 | `color = c` then `computeAlpha`: hue kept, alpha at most c's, and exactly c at full progress when enabled |
| PaintRules.TrackLayer | fillingprogressbar/src/main/java/kanti/fillingprogressbar/FillingProgressBar.kt:217-223 | `color = c` then `computeBackStrokeAlpha`: hue kept, alpha at most c's, and exactly c when enabled |
| PaintRules.EnabledPalette | fillingprogressbar/src/main/java/kanti/fillingprogressbar/FillingProgressBar.kt:151-164 | after `setEnabled`, front stroke and fill are the same colour. Enabled: the track is the back-stroke colour and the fill has the fill colour's hue. Disabled: all three have the disabled hue and the fill is no more opaque than the track |
| PaintRules.Reprogressed | fillingprogressbar/src/main/java/kanti/fillingprogressbar/FillingProgressBar.kt:99-101 | the progress setter leaves the back stroke and every hue alone, never raises an alpha, and keeps equal fill and front-stroke alphas equal |
| PaintRules.ReprogressedCompounds | fillingprogressbar/src/main/java/kanti/fillingprogressbar/FillingProgressBar.kt:95-103 | n progress updates give the alpha of n successive rescalings, not one, and leave the back stroke alone |
| PaintRules.FrontStrokeDependsOnHistory | fillingprogressbar/src/main/java/kanti/fillingprogressbar/FillingProgressBar.kt:151-155 | the front stroke from `setEnabled(true)` equals the one from the `frontFillColor` setter if and only if the colour is black |
| Geometry.FloatToInt | fillingprogressbar/src/main/java/kanti/fillingprogressbar/FillingProgressBar.kt:181-182 | `Float.toInt()`: rounds toward zero and saturates at the `Int` bounds |
| Geometry.FloatToIntExact | fillingprogressbar/src/main/java/kanti/fillingprogressbar/FillingProgressBar.kt:181-182 | a whole number within `Int` range converts to itself |
| ProgressBar.CheckProgress | fillingprogressbar/src/main/java/kanti/fillingprogressbar/FillingProgressBar.kt:190-193 | passes if and only if 0 ≤ value ≤ 1; otherwise fails with `IllegalArgument` carrying the value |
| ProgressBar.Paint.constructor | fillingprogressbar/src/main/java/kanti/fillingprogressbar/FillingProgressBar.kt:131-146 | a new paint is opaque black with stroke width 0 until the widget sets it |
| ProgressBar.FillingProgressBar.constructor | fillingprogressbar/src/main/java/kanti/fillingprogressbar/FillingProgressBar.kt:105-149 | `init` stores the configuration, gives both stroke paints the configured stroke width, and ends in exactly the paints `setEnabled(enabled)` produces, with the invariant established |
| ProgressBar.FillingProgressBar.ComputeAlpha | fillingprogressbar/src/main/java/kanti/fillingprogressbar/FillingProgressBar.kt:209-215 | rescales the paint's current alpha by the stored progress; nothing else of the paint changes |
| ProgressBar.FillingProgressBar.ComputeBackStrokeAlpha | fillingprogressbar/src/main/java/kanti/fillingprogressbar/FillingProgressBar.kt:217-223 | fades the paint's current alpha when disabled; nothing else changes |
| ProgressBar.FillingProgressBar.SetEnabled | fillingprogressbar/src/main/java/kanti/fillingprogressbar/FillingProgressBar.kt:151-166 | the paints become the enabled-state palette whatever they held before, with the front stroke undarkened; only the flag changes among the settings; the invariant holds afterwards |
| ProgressBar.FillingProgressBar.SetDiameter | fillingprogressbar/src/main/java/kanti/fillingprogressbar/FillingProgressBar.kt:39-45 | stores the diameter and requests repaint and relayout; paints untouched |
| ProgressBar.FillingProgressBar.SetStrokeWidth | fillingprogressbar/src/main/java/kanti/fillingprogressbar/FillingProgressBar.kt:47-52 | stores the width and requests a repaint only; the paints and their stroke widths are untouched |
| ProgressBar.FillingProgressBar.SetBackStrokeColor | fillingprogressbar/src/main/java/kanti/fillingprogressbar/FillingProgressBar.kt:54-62 | always stores the colour; only when enabled does it set the track to that colour (alpha not recomputed) and request a repaint |
| ProgressBar.FillingProgressBar.SetFrontFillColor | fillingprogressbar/src/main/java/kanti/fillingprogressbar/FillingProgressBar.kt:64-76 | always stores the colour; only when enabled does it set the front stroke to the darkened colour and the fill to the colour, both alpha-rescaled, and request a repaint |
| ProgressBar.FillingProgressBar.SetDisabledColor | fillingprogressbar/src/main/java/kanti/fillingprogressbar/FillingProgressBar.kt:78-93 | always stores the colour; only when disabled does it make the paints exactly what `setEnabled(false)` would, and request a repaint |
| ProgressBar.FillingProgressBar.SetProgress | fillingprogressbar/src/main/java/kanti/fillingprogressbar/FillingProgressBar.kt:95-103 | rejects a value outside [0, 1] with nothing changed. Otherwise it stores the value, rescales only the fill and front-stroke alphas from their current values, and requests a repaint |
| ProgressBar.FillingProgressBar.OnDraw | fillingprogressbar/src/main/java/kanti/fillingprogressbar/FillingProgressBar.kt:168-178 | three circles in the order fill, back stroke, front stroke, sharing one centre. The disc has radius d/2 and touches the padding's left and top edges. Both rings have radius d/2 − strokeWidth/2, which is non-negative if and only if strokeWidth ≤ d. Each circle carries its paint's colour and width |
| ProgressBar.FillingProgressBar.MinimumSize | fillingprogressbar/src/main/java/kanti/fillingprogressbar/FillingProgressBar.kt:180-182 | the intrinsic width and height are padding plus diameter truncated to an `Int` (saturating) |
| ProgressBar.Create | fillingprogressbar/src/main/java/kanti/fillingprogressbar/FillingProgressBar.kt:121-123 | construction fails with `IllegalArgument` if and only if the configured progress is outside [0, 1]; otherwise the bar holds the configuration and `setEnabled`'s paints, both stroke paints have the configured stroke width, and no repaint or relayout is pending |
| Scenarios.ProgressCompounds | fillingprogressbar/src/main/java/kanti/fillingprogressbar/FillingProgressBar.kt:95-103 | on a constructed bar, progress 0.5 set twice leaves fill alpha 127, then 63 |
| Scenarios.FrontStrokeDarkenedOnlyBySetter | fillingprogressbar/src/main/java/kanti/fillingprogressbar/FillingProgressBar.kt:148-155 | after construction the front stroke's red is 200, the undarkened fill colour; setting the same fill colour makes it 180 |
| Scenarios.ToggleRestoresPaints | fillingprogressbar/src/main/java/kanti/fillingprogressbar/FillingProgressBar.kt:151-166 | disabling then enabling restores the construction paints exactly; re-enabling after compounded progress updates gives the single-rescale alpha |
| Scenarios.StrokeWidthSetterLeavesPaints | fillingprogressbar/src/main/java/kanti/fillingprogressbar/FillingProgressBar.kt:47-52 | after the stroke width goes from 4 to 8, the rings' outer edge sits at 22 instead of 24 |
| Scenarios.MinimumSizeOfSample | fillingprogressbar/src/main/java/kanti/fillingprogressbar/FillingProgressBar.kt:180-182 | a 48-unit bar with no padding asks for 48 by 48 |
| Scenarios.OutOfRangeProgressRejected | fillingprogressbar/src/main/java/kanti/fillingprogressbar/FillingProgressBar.kt:95-99 | progress 1.5 at construction is refused; progress −0.1 in the setter is refused and the stored 0.25 is kept |

## Left out

- Attribute parsing (`obtainStyledAttributes`, the `get*OrThrow` calls, `recycle`): construction takes an already parsed `Config`. A missing attribute is the parser's error and is not modelled. Only the progress check in `init` is modelled.
- `View.resolveSizeAndState` and `setMeasuredDimension`: they are framework code. The model stops at the intrinsic size, so the host's measure-spec modes (exact, at most, unspecified) are not modelled.
- `invalidate()` and `requestLayout()` are two flags the setters raise. Scheduling the repaint is the host's business.
- `super.setEnabled` is modelled as storing `isEnabled`. Whatever else the framework's `View.setEnabled` does (its own invalidation when the flag changes, drawable state) is not modelled. The two request flags record only the widget's own `invalidate()` and `requestLayout()` calls, so `SetEnabled` leaves them as they were.
- Colours are four channels, not a packed `Int`. `Color.alpha`/`red`/`green`/`blue`/`argb` and the `Paint.color`/`alpha` accessors are framework code whose behaviour is taken as splitting and joining the channels.
- `Float` arithmetic is idealised as exact reals with 9/10 and 38/100. The literals `0.9f` and `0.38f` are not exact, so an IEEE product can land on the other side of an integer. For example, `200 * 0.9f` rounds to 180.0f, which agrees with the model, but not every product is guaranteed to agree. NaN and infinite progress values are not modelled; a real is always ordered.
- `Paint.Style`, `ANTI_ALIAS_FLAG` and the canvas itself: drawing is a returned list of circle commands.
- A negative ring radius when the stroke width exceeds the diameter is passed through to the draw command unchanged, as the code does. `OnDraw` states when the radius is negative.
- ProgressBar.FillingProgressBar.MinimumSize: the contract states the truncation only for non-negative sums of padding and diameter. `Geometry.FloatToInt` states the negative case.
- The Compose demo screen (`fpb-compose-tester/.../MainActivity.kt`) and the build settings contain no widget logic.
