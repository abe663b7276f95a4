/** Call sequences on a `FillingProgressBar`, each proved from the class's
    contracts alone. They pin down behaviours of the widget's code: alphas
    that compound, a front stroke darkened or not depending on which call
    set it last, and paint widths the stroke-width setter leaves alone. */
module Scenarios {
  import opened ColorMath
  import opened PaintRules
  import opened Geometry
  import opened ProgressBar

  /** A 48-unit bar with a 4-unit stroke and an opaque grey fill colour. */
  function SampleConfig(progress: real, enabled: bool): Config {
    Config(48.0, 4.0, Argb(255, 30, 30, 30), Argb(255, 200, 200, 200), Argb(255, 100, 100, 100),
           progress, enabled)
  }

  /** Setting progress 0.5 twice on a fully opaque fill rescales the alpha
      left by the first call: 255, then 127, then 63. */
  method ProgressCompounds() returns (afterOnce: int, afterTwice: int)
    ensures afterOnce == 127 && afterTwice == 63
  {
    var bar := new FillingProgressBar(SampleConfig(1.0, true));
    assert bar.paintFill.color.a == 255;
    RescaledHalfTwice();
    var r := bar.SetProgress(0.5);
    afterOnce := bar.paintFill.color.a;
    assert afterOnce == Rescaled(255, 0.5, true, 1);
    r := bar.SetProgress(0.5);
    afterTwice := bar.paintFill.color.a;
    assert afterTwice == Rescaled(255, 0.5, true, 2);
  }

  /** Right after construction the front stroke has the fill colour itself
      (`setEnabled(true)` does not darken it); setting the same fill colour
      again darkens it, 200 becoming 180. */
  method FrontStrokeDarkenedOnlyBySetter() returns (afterInit: int, afterSetter: int)
    ensures afterInit == 200 && afterSetter == 180
  {
    var bar := new FillingProgressBar(SampleConfig(1.0, true));
    afterInit := bar.paintFrontStroke.color.r;
    bar.SetFrontFillColor(Argb(255, 200, 200, 200));
    afterSetter := bar.paintFrontStroke.color.r;
  }

  /** Disabling and re-enabling gives back exactly the paints construction
      produced, and also undoes any compounding left by progress updates. */
  method ToggleRestoresPaints(back: Argb, front: Argb, disabled: Argb, p: real, q: real)
    returns (restored: bool, compoundingUndone: bool)
    requires InUnitRange(p) && InUnitRange(q)
    ensures restored && compoundingUndone
  {
    var bar := new FillingProgressBar(Config(48.0, 4.0, back, front, disabled, p, true));
    var initial := bar.Paints();
    bar.SetEnabled(false);
    bar.SetEnabled(true);
    restored := bar.Paints() == initial;

    var r := bar.SetProgress(q);
    r := bar.SetProgress(q);
    bar.SetEnabled(true);
    compoundingUndone := bar.paintFill.color.a == ScaleAlpha(front.a, q, true);
  }

  /** After the `strokeWidth` setter, `onDraw` places the rings by the new
      width but strokes them with the width the paints were built with: with
      a 48 diameter, 4 at construction and 8 set later, the rings' outer edge
      sits at 22 instead of on the disc's edge at 24. */
  method StrokeWidthSetterLeavesPaints() returns (ringOuterEdge: real, discRadius: real)
    ensures ringOuterEdge == 22.0 && discRadius == 24.0
  {
    var bar := new FillingProgressBar(SampleConfig(1.0, true));
    bar.SetStrokeWidth(8.0);
    var cmds := bar.OnDraw(0, 0);
    ringOuterEdge := cmds[1].radius + cmds[1].strokeWidth / 2.0;
    discRadius := cmds[0].radius;
  }

  /** With no padding, a 48-unit bar asks for 48 by 48. */
  method MinimumSizeOfSample() returns (width: int, height: int)
    ensures width == 48 && height == 48
  {
    var bar := new FillingProgressBar(SampleConfig(0.5, true));
    var size := bar.MinimumSize(0, 0, 0, 0);
    width, height := size.0, size.1;
  }

  /** A progress outside [0, 1] is refused at construction and by the setter,
      and the setter leaves the stored progress as it was. */
  method OutOfRangeProgressRejected() returns (constructed: bool, stored: real)
    ensures !constructed && stored == 0.25
  {
    var made := Create(SampleConfig(1.5, true));
    constructed := made.Ok?;
    var bar := new FillingProgressBar(SampleConfig(0.25, false));
    var r := bar.SetProgress(-0.1);
    stored := bar.progress;
  }
}
