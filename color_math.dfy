/** Colour arithmetic of the filling progress bar: 8-bit ARGB channels, the
    light modifier that darkens the front stroke, and the two alpha rules
    (`Paint.computeAlpha` and `Paint.computeBackStrokeAlpha`).

    Android's `Float` products are idealised as exact reals; `toInt()` on a
    non-negative product is truncation. */
module ColorMath {

  /** One 8-bit colour channel. */
  type Byte = x: int | 0 <= x < 256

  /** A colour split into its alpha, red, green and blue channels. */
  datatype Argb = Argb(a: Byte, r: Byte, g: Byte, b: Byte)

  /** Factor applied to each RGB channel of the fill colour (`mLightModifier`). */
  const LightModifier: real := 0.9

  /** Alpha multiplier applied while the bar is disabled (`mOpacity`). */
  const Opacity: real := 0.38

  /** The valid range of a progress value, bounds included. */
  predicate InUnitRange(p: real) {
    0.0 <= p <= 1.0
  }

  /** `n` is the non-negative real `x` with its fractional part dropped. */
  predicate Truncates(x: real, n: int) {
    n as real <= x < n as real + 1.0
  }

  /** Two colours agree on red, green and blue (alpha may differ). */
  predicate SameRgb(c: Argb, d: Argb) {
    c.r == d.r && c.g == d.g && c.b == d.b
  }

  /** One channel multiplied by the light modifier and truncated. */
  function ScaleChannel(v: Byte): (w: Byte)
    ensures w <= v
    ensures Truncates(v as real * LightModifier, w)
  {
    (v as real * LightModifier).Floor
  }

  /** `colorLightModifying`: the front stroke's hue, derived from a fill colour. */
  function Darken(c: Argb): (d: Argb)
    ensures d.a == c.a
    ensures d.r <= c.r && d.g <= c.g && d.b <= c.b
    ensures Truncates(c.r as real * LightModifier, d.r)
    ensures Truncates(c.g as real * LightModifier, d.g)
    ensures Truncates(c.b as real * LightModifier, d.b)
  {
    Argb(c.a, ScaleChannel(c.r), ScaleChannel(c.g), ScaleChannel(c.b))
  }

  /** Darkening changes a colour unless its red, green and blue are all zero. */
  lemma DarkenFixedPoint(c: Argb)
    ensures Darken(c) == c <==> c.r == 0 && c.g == 0 && c.b == 0
  {
    if c.r > 0 {
      assert Darken(c).r < c.r;
    } else if c.g > 0 {
      assert Darken(c).g < c.g;
    } else if c.b > 0 {
      assert Darken(c).b < c.b;
    }
  }

  /** Darkening truncates rather than rounds: white becomes 229, not 230. */
  lemma DarkenWhite()
    ensures Darken(Argb(255, 255, 255, 255)) == Argb(255, 229, 229, 229)
    ensures Darken(Argb(255, 200, 200, 200)) == Argb(255, 180, 180, 180)
  {
  }

  /** `k × p` for a whole `k`, written as `k` additions of `p` so that the
      alpha proofs stay linear; `ScaledIsProduct` shows it is the product. */
  function Scaled(k: nat, p: real): real
    decreases k
  {
    if k == 0 then 0.0 else Scaled(k - 1, p) + p
  }

  /** `Scaled` is multiplication. */
  lemma {:induction false} ScaledIsProduct(k: nat, p: real)
    ensures Scaled(k, p) == k as real * p
  {
    if k > 0 {
      ScaledIsProduct(k - 1, p);
    }
  }

  /** `k × p` lies in [0, k] for a progress `p` in [0, 1]. */
  lemma {:induction false} ScaledBounds(k: nat, p: real)
    requires InUnitRange(p)
    ensures 0.0 <= Scaled(k, p) <= k as real
  {
    if k > 0 {
      ScaledBounds(k - 1, p);
    }
  }

  /** `k × p` grows with `p`. */
  lemma {:induction false} ScaledMonotone(k: nat, p: real, q: real)
    requires p <= q
    ensures Scaled(k, p) <= Scaled(k, q)
  {
    if k > 0 {
      ScaledMonotone(k - 1, p, q);
    }
  }

  /** `k × p` is below `k` when `k` is positive and `p` below 1. */
  lemma {:induction false} ScaledBelow(k: nat, p: real)
    requires k > 0 && p < 1.0
    ensures Scaled(k, p) < k as real
  {
    if k > 1 {
      ScaledBelow(k - 1, p);
    }
  }

  /** `k × 1 = k` and `k × 0 = 0`. */
  lemma {:induction false} ScaledEnds(k: nat)
    ensures Scaled(k, 1.0) == k as real && Scaled(k, 0.0) == 0.0
  {
    if k > 0 {
      ScaledEnds(k - 1);
    }
  }

  /** `toInt()` of a real known to lie in [0, hi]. */
  function TruncateWithin(x: real, hi: int): (n: int)
    requires 0.0 <= x <= hi as real
    ensures 0 <= n <= hi && Truncates(x, n)
  {
    x.Floor
  }

  /** `toInt()` of `x * mOpacity`, for an `x` known to lie in [0, hi]. */
  function Faded(x: real, hi: int): (n: int)
    requires 0.0 <= x <= hi as real
    ensures 0 <= n <= hi && Truncates(x * Opacity, n)
  {
    (x * Opacity).Floor
  }

  /** `Paint.computeAlpha`: the alpha a paint gets from its current alpha `a`
      and the progress: `a × progress` truncated, times the opacity first when
      disabled. */
  function ScaleAlpha(alpha: Byte, progress: real, enabled: bool): (r: Byte)
    requires InUnitRange(progress)
    ensures r <= alpha
    ensures enabled ==> Truncates(Scaled(alpha, progress), r)
    ensures !enabled ==> Truncates(Scaled(alpha, progress) * Opacity, r)
  {
    ScaledBounds(alpha, progress);
    if enabled then TruncateWithin(Scaled(alpha, progress), alpha)
    else Faded(Scaled(alpha, progress), alpha)
  }

  /** `ScaleAlpha` over the real product itself: the truncation of
      a × progress when enabled, and of a × progress × 0.38 when disabled. */
  lemma ScaleAlphaTruncatesProduct(alpha: Byte, progress: real, enabled: bool)
    requires InUnitRange(progress)
    ensures enabled ==> Truncates(alpha as real * progress, ScaleAlpha(alpha, progress, enabled))
    ensures !enabled ==> Truncates(alpha as real * progress * Opacity, ScaleAlpha(alpha, progress, enabled))
  {
    ScaledIsProduct(alpha, progress);
  }

  /** `Paint.computeBackStrokeAlpha`: the track keeps its alpha unless disabled; progress plays no part. */
  function BackStrokeAlpha(alpha: Byte, enabled: bool): (r: Byte)
    ensures r <= alpha
    ensures enabled ==> r == alpha
    ensures !enabled ==> Truncates(alpha as real * Opacity, r)
  {
    if enabled then alpha else Faded(alpha as real, alpha)
  }

  /** Truncation preserves order. */
  lemma TruncatesMonotone(x: real, y: real, m: int, n: int)
    requires Truncates(x, m) && Truncates(y, n) && x <= y
    ensures m <= n
  {
  }

  /** Scaling by the disabled opacity preserves order and never increases a
      non-negative real. */
  lemma OpacityMonotone(x: real, y: real)
    requires 0.0 <= x <= y
    ensures 0.0 <= x * Opacity <= y * Opacity && x * Opacity <= x
  {
  }

  /** More progress never gives a more transparent paint. */
  lemma ScaleAlphaMonotone(alpha: Byte, p: real, q: real, enabled: bool)
    requires InUnitRange(p) && InUnitRange(q) && p <= q
    ensures ScaleAlpha(alpha, p, enabled) <= ScaleAlpha(alpha, q, enabled)
  {
    var x, y := Scaled(alpha, p), Scaled(alpha, q);
    ScaledMonotone(alpha, p, q);
    ScaledBounds(alpha, p);
    var m, n := ScaleAlpha(alpha, p, enabled), ScaleAlpha(alpha, q, enabled);
    if enabled {
      TruncatesMonotone(x, y, m, n);
    } else {
      OpacityMonotone(x, y);
      TruncatesMonotone(x * Opacity, y * Opacity, m, n);
    }
  }

  /** Disabling never makes a progress-driven paint more opaque. */
  lemma DisabledNotBrighter(alpha: Byte, p: real)
    requires InUnitRange(p)
    ensures ScaleAlpha(alpha, p, false) <= ScaleAlpha(alpha, p, true)
  {
    var x := Scaled(alpha, p);
    ScaledBounds(alpha, p);
    OpacityMonotone(x, x);
    TruncatesMonotone(x * Opacity, x, ScaleAlpha(alpha, p, false), ScaleAlpha(alpha, p, true));
  }

  /** While disabled, a progress-driven paint is never more opaque than the track
      painted with the same colour. */
  lemma DisabledBelowTrack(alpha: Byte, p: real)
    requires InUnitRange(p)
    ensures ScaleAlpha(alpha, p, false) <= BackStrokeAlpha(alpha, false)
  {
    var x := Scaled(alpha, p);
    ScaledBounds(alpha, p);
    OpacityMonotone(x, alpha as real);
    TruncatesMonotone(x * Opacity, alpha as real * Opacity, ScaleAlpha(alpha, p, false), BackStrokeAlpha(alpha, false));
  }

  /** Full progress keeps an enabled paint's alpha; zero progress clears it. */
  lemma ScaleAlphaEnds(alpha: Byte, enabled: bool)
    ensures ScaleAlpha(alpha, 1.0, true) == alpha
    ensures ScaleAlpha(alpha, 0.0, enabled) == 0
  {
    ScaledEnds(alpha);
  }

  /** A progress below 1 strictly lowers a non-zero alpha. */
  lemma ScaleAlphaShrinks(alpha: Byte, p: real, enabled: bool)
    requires InUnitRange(p) && p < 1.0 && alpha > 0
    ensures ScaleAlpha(alpha, p, enabled) < alpha
  {
    var x := Scaled(alpha, p);
    ScaledBelow(alpha, p);
    ScaledBounds(alpha, p);
    OpacityMonotone(x, x);
  }

  /** The alpha after `n` successive progress updates with the same value:
      each update rescales the alpha the previous one left. */
  function Rescaled(alpha: Byte, progress: real, enabled: bool, n: nat): (r: Byte)
    requires InUnitRange(progress)
    ensures r <= alpha
    decreases n
  {
    if n == 0 then alpha
    else ScaleAlpha(Rescaled(alpha, progress, enabled, n - 1), progress, enabled)
  }

  /** Repeating a progress below 1 loses at least one alpha step per update,
      so after `alpha` updates the paint is fully transparent. */
  lemma {:induction false} RescaledFades(alpha: Byte, p: real, enabled: bool, n: nat)
    requires InUnitRange(p) && p < 1.0
    ensures Rescaled(alpha, p, enabled, n) <= if n >= alpha then 0 else alpha - n
  {
    if n > 0 {
      RescaledFades(alpha, p, enabled, n - 1);
      var prev := Rescaled(alpha, p, enabled, n - 1);
      if prev > 0 {
        ScaleAlphaShrinks(prev, p, enabled);
      }
    }
  }

  /** Setting progress 0.5 twice on an opaque paint: 255, then 127, then 63. */
  lemma RescaledHalfTwice()
    ensures Rescaled(255, 0.5, true, 1) == 127
    ensures Rescaled(255, 0.5, true, 2) == 63
  {
    ScaledIsProduct(255, 0.5);
    ScaledIsProduct(127, 0.5);
  }
}
