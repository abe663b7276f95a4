/** The colours of the three paints of the bar (back stroke, front stroke,
    fill) as values, and what `setEnabled` and the progress setter turn them
    into. A paint's colour includes its alpha: assigning `Paint.color`
    replaces all four channels, and `computeAlpha` then rescales the alpha
    just assigned. */
module PaintRules {
  import opened ColorMath

  /** The colours of the three paints. */
  datatype Palette = Palette(backStroke: Argb, frontStroke: Argb, fill: Argb)

  /** A progress-driven paint after `color = c` followed by `computeAlpha`. */
  function ProgressLayer(c: Argb, progress: real, enabled: bool): (l: Argb)
    requires InUnitRange(progress)
    ensures SameRgb(l, c) && l.a <= c.a
    ensures enabled && progress == 1.0 ==> l == c
  {
    ScaleAlphaEnds(c.a, enabled);
    c.(a := ScaleAlpha(c.a, progress, enabled))
  }

  /** The back-stroke paint after `color = c` followed by `computeBackStrokeAlpha`. */
  function TrackLayer(c: Argb, enabled: bool): (l: Argb)
    ensures SameRgb(l, c) && l.a <= c.a
    ensures enabled ==> l == c
  {
    c.(a := BackStrokeAlpha(c.a, enabled))
  }

  /** The three paints after `setEnabled(enabled)`: every colour and alpha is
      rebuilt from the configured colours, so the result does not depend on
      what the paints held before. */
  function EnabledPalette(backStrokeColor: Argb, frontFillColor: Argb, disabledColor: Argb,
                          progress: real, enabled: bool): (p: Palette)
    requires InUnitRange(progress)
    ensures p.frontStroke == p.fill
    ensures enabled ==> p.backStroke == backStrokeColor && SameRgb(p.fill, frontFillColor)
    ensures !enabled ==> SameRgb(p.backStroke, disabledColor) && SameRgb(p.fill, disabledColor)
    ensures !enabled ==> p.fill.a <= p.backStroke.a
  {
    if enabled then
      Palette(TrackLayer(backStrokeColor, true),
              ProgressLayer(frontFillColor, progress, true),
              ProgressLayer(frontFillColor, progress, true))
    else
      DisabledBelowTrack(disabledColor.a, progress);
      Palette(TrackLayer(disabledColor, false),
              ProgressLayer(disabledColor, progress, false),
              ProgressLayer(disabledColor, progress, false))
  }

  /** The three paints after the progress setter stored `progress`: the fill
      and the front stroke rescale the alpha they currently hold. */
  function Reprogressed(p: Palette, progress: real, enabled: bool): (q: Palette)
    requires InUnitRange(progress)
    ensures q.backStroke == p.backStroke
    ensures SameRgb(q.frontStroke, p.frontStroke) && SameRgb(q.fill, p.fill)
    ensures q.frontStroke.a <= p.frontStroke.a && q.fill.a <= p.fill.a
    ensures p.frontStroke.a == p.fill.a ==> q.frontStroke.a == q.fill.a
  {
    p.(frontStroke := ProgressLayer(p.frontStroke, progress, enabled),
       fill := ProgressLayer(p.fill, progress, enabled))
  }

  /** The palette after `n` progress updates with the same value. */
  function ReprogressedTimes(p: Palette, progress: real, enabled: bool, n: nat): (q: Palette)
    requires InUnitRange(progress)
    decreases n
  {
    if n == 0 then p else Reprogressed(ReprogressedTimes(p, progress, enabled, n - 1), progress, enabled)
  }

  /** Repeated progress updates compound: the fill's alpha is the one `n`
      successive rescalings of its starting alpha give, not a single rescale. */
  lemma {:induction false} ReprogressedCompounds(p: Palette, progress: real, enabled: bool, n: nat)
    requires InUnitRange(progress)
    ensures ReprogressedTimes(p, progress, enabled, n).fill.a == Rescaled(p.fill.a, progress, enabled, n)
    ensures ReprogressedTimes(p, progress, enabled, n).frontStroke.a == Rescaled(p.frontStroke.a, progress, enabled, n)
    ensures ReprogressedTimes(p, progress, enabled, n).backStroke == p.backStroke
  {
    if n > 0 {
      ReprogressedCompounds(p, progress, enabled, n - 1);
    }
  }

  /** With the bar enabled, the front stroke left by `setEnabled(true)`
      (the fill colour itself) and the one left by the `frontFillColor`
      setter (the darkened fill colour) differ unless the colour is black. */
  lemma FrontStrokeDependsOnHistory(c: Argb, progress: real)
    requires InUnitRange(progress)
    ensures ProgressLayer(Darken(c), progress, true) == ProgressLayer(c, progress, true)
            <==> c.r == 0 && c.g == 0 && c.b == 0
  {
    DarkenFixedPoint(c);
    if Darken(c) != c {
      assert !SameRgb(Darken(c), c);
    }
  }
}
