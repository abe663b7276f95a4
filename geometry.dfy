/** What `onDraw` and `onMeasure` produce: circle commands for the canvas,
    and Kotlin's `Float.toInt()` used to turn the intrinsic size into pixels. */
module Geometry {
  import opened ColorMath

  /** The paint a circle is drawn with. */
  datatype Layer = FillLayer | BackStrokeLayer | FrontStrokeLayer

  /** One `canvas.drawCircle(cx, cy, radius, paint)` call, with the colour and
      stroke width the paint held at that moment. */
  datatype Circle = Circle(layer: Layer, cx: real, cy: real, radius: real, color: Argb, strokeWidth: real)

  /** Bounds of a Kotlin `Int`. */
  const IntMin: int := -0x8000_0000
  const IntMax: int := 0x7fff_ffff

  /** Kotlin's `Float.toInt()`: rounds toward zero and saturates at the `Int`
      bounds. */
  function FloatToInt(x: real): (n: int)
    ensures IntMin <= n <= IntMax
    ensures 0.0 <= x ==> 0 <= n && n as real <= x && (n == IntMax || x < n as real + 1.0)
    ensures x < 0.0 ==> n <= 0 && x <= n as real && (n == IntMin || n as real - 1.0 < x)
  {
    if x >= 0.0 then
      (if x >= IntMax as real then IntMax else x.Floor)
    else
      (if x <= IntMin as real then IntMin else -((-x).Floor))
  }

  /** A whole number converts to itself when it fits an `Int`. */
  lemma FloatToIntExact(k: int)
    requires IntMin <= k <= IntMax
    ensures FloatToInt(k as real) == k
  {
  }
}
