/** The `FillingProgressBar` view: its configuration fields, its three paints,
    the property setters that update them in place, `setEnabled`, `onDraw` and
    the intrinsic size computed by `onMeasure`.

    The Android plumbing is reduced to what the widget's own code does with
    it: attribute parsing becomes a `Config` snapshot, `invalidate()` and
    `requestLayout()` become two request flags, `isEnabled` is a field, and
    the paddings the framework supplies are parameters. */
module ProgressBar {
  import opened ColorMath
  import opened PaintRules
  import opened Geometry

  /** The exception `checkProgress` throws, with the rejected value. */
  datatype Error = IllegalArgument(value: real)

  /** Outcome of an operation that may throw. */
  datatype Outcome = Pass | Fail(error: Error)

  /** Outcome of an operation that yields a value or throws. */
  datatype Result<T> = Ok(value: T) | Err(error: Error)

  /** The styled attributes `init` reads: diameter, stroke width, the three
      colours, the initial progress and `android:enabled`. */
  datatype Config = Config(diameter: real, strokeWidth: real,
                           backStrokeColor: Argb, frontFillColor: Argb, disabledColor: Argb,
                           progress: real, enabled: bool)

  /** `checkProgress`: a progress outside [0, 1] is rejected. */
  function CheckProgress(value: real): (r: Outcome)
    ensures r == Pass <==> 0.0 <= value && value <= 1.0
    ensures r != Pass ==> r == Fail(IllegalArgument(value))
  {
    if value < 0.0 || 1.0 < value then Fail(IllegalArgument(value)) else Pass
  }

  /** The part of an Android `Paint` the widget uses: its colour (alpha
      included) and its stroke width. */
  class Paint {
    var color: Argb
    var strokeWidth: real

    /** A fresh `Paint` is opaque black with a hairline stroke width of 0. */
    constructor ()
      ensures color == Argb(255, 0, 0, 0) && strokeWidth == 0.0
    {
      color := Argb(255, 0, 0, 0);
      strokeWidth := 0.0;
    }
  }

  class FillingProgressBar {
    var diameter: real
    var strokeWidth: real
    var backStrokeColor: Argb
    var frontFillColor: Argb
    var disabledColor: Argb
    var progress: real
    /** `View.isEnabled`, as stored by `super.setEnabled`. */
    var isEnabled: bool

    const paintBackStroke: Paint
    const paintFrontStroke: Paint
    const paintFill: Paint

    /** Set by `invalidate()`: the host must repaint. */
    var repaintRequested: bool
    /** Set by `requestLayout()`: the host must measure again. */
    var relayoutRequested: bool

    /** The configuration fields, in the shape of the attributes they come from. */
    function Settings(): Config
      reads this
    {
      Config(diameter, strokeWidth, backStrokeColor, frontFillColor, disabledColor, progress, isEnabled)
    }

    /** The current colours of the three paints. */
    function Paints(): Palette
      reads this, paintBackStroke, paintFrontStroke, paintFill
    {
      Palette(paintBackStroke.color, paintFrontStroke.color, paintFill.color)
    }

    /** What holds from the moment the paints exist: three distinct paints, a
        progress in [0, 1], a fill paint with the default stroke width and two
        stroke paints sharing one width. */
    ghost predicate Frame()
      reads this, paintBackStroke, paintFrontStroke, paintFill
    {
      && paintBackStroke != paintFrontStroke
      && paintFrontStroke != paintFill
      && paintBackStroke != paintFill
      && InUnitRange(progress)
      && paintFill.strokeWidth == 0.0
      && paintBackStroke.strokeWidth == paintFrontStroke.strokeWidth
    }

    /** How the paints relate to the configuration once `setEnabled` has run.
        Enabled: the track is the back-stroke colour, the fill has the fill
        colour's hue and at most its alpha, and the front stroke has the fill
        colour's hue, plain or darkened. Disabled: all three have the disabled
        colour's hue, the track is the faded disabled colour, and the fill and
        front stroke are never more opaque than the track. In both states the
        fill and the front stroke share one alpha. */
    ghost predicate Consistent()
      reads this, paintBackStroke, paintFrontStroke, paintFill
    {
      var p := Paints();
      && p.frontStroke.a == p.fill.a
      && (if isEnabled then
            && p.backStroke == backStrokeColor
            && SameRgb(p.fill, frontFillColor)
            && p.fill.a <= frontFillColor.a
            && (SameRgb(p.frontStroke, frontFillColor) || SameRgb(p.frontStroke, Darken(frontFillColor)))
          else
            && p.backStroke == TrackLayer(disabledColor, false)
            && SameRgb(p.fill, disabledColor)
            && SameRgb(p.frontStroke, disabledColor)
            && p.fill.a <= p.backStroke.a)
    }

    ghost predicate Valid()
      reads this, paintBackStroke, paintFrontStroke, paintFill
    {
      Frame() && Consistent()
    }

    /** `init`, from the point where the attributes have been read and the
        progress has passed `checkProgress`: build the three paints, then
        call `setEnabled`, which decides their final colours. */
    constructor (cfg: Config)
      requires InUnitRange(cfg.progress)
      ensures Valid()
      ensures Settings() == cfg
      ensures Paints() == EnabledPalette(cfg.backStrokeColor, cfg.frontFillColor, cfg.disabledColor,
                                         cfg.progress, cfg.enabled)
      ensures paintBackStroke.strokeWidth == cfg.strokeWidth
      ensures paintFrontStroke.strokeWidth == cfg.strokeWidth
      ensures !repaintRequested && !relayoutRequested
      ensures fresh(paintBackStroke) && fresh(paintFrontStroke) && fresh(paintFill)
    {
      diameter := cfg.diameter;
      strokeWidth := cfg.strokeWidth;
      backStrokeColor := cfg.backStrokeColor;
      frontFillColor := cfg.frontFillColor;
      disabledColor := cfg.disabledColor;
      progress := cfg.progress;
      isEnabled := cfg.enabled;
      repaintRequested, relayoutRequested := false, false;
      paintBackStroke := new Paint();
      paintFrontStroke := new Paint();
      paintFill := new Paint();
      new;
      paintBackStroke.color := backStrokeColor;
      ComputeBackStrokeAlpha(paintBackStroke, cfg.enabled);
      paintBackStroke.strokeWidth := strokeWidth;

      paintFrontStroke.color := Darken(frontFillColor);
      ComputeAlpha(paintFrontStroke, cfg.enabled);
      paintFrontStroke.strokeWidth := strokeWidth;

      paintFill.color := frontFillColor;
      ComputeAlpha(paintFill, cfg.enabled);

      SetEnabled(cfg.enabled);
    }

    /** `Paint.computeAlpha`: rescale the paint's current alpha by the progress
        (and by the opacity when disabled); its hue is kept. */
    method ComputeAlpha(paint: Paint, enabled: bool)
      requires InUnitRange(progress)
      modifies paint
      ensures paint.color == ProgressLayer(old(paint.color), progress, enabled)
      ensures paint.strokeWidth == old(paint.strokeWidth)
    {
      paint.color := paint.color.(a := ScaleAlpha(paint.color.a, progress, enabled));
    }

    /** `Paint.computeBackStrokeAlpha`: fade the paint's current alpha when
        disabled; progress plays no part. */
    method ComputeBackStrokeAlpha(paint: Paint, enabled: bool)
      modifies paint
      ensures paint.color == TrackLayer(old(paint.color), enabled)
      ensures paint.strokeWidth == old(paint.strokeWidth)
    {
      paint.color := paint.color.(a := BackStrokeAlpha(paint.color.a, enabled));
    }

    /** `setEnabled`: recolour all three paints from the configured colours
        (the front stroke gets the fill colour without darkening), recompute
        their alphas, and store the flag. */
    method SetEnabled(enabled: bool)
      requires Frame()
      modifies this, paintBackStroke, paintFrontStroke, paintFill
      ensures Valid()
      ensures Settings() == old(Settings()).(enabled := enabled)
      ensures Paints() == EnabledPalette(backStrokeColor, frontFillColor, disabledColor, progress, enabled)
      ensures paintBackStroke.strokeWidth == old(paintBackStroke.strokeWidth)
      ensures paintFrontStroke.strokeWidth == old(paintFrontStroke.strokeWidth)
      ensures paintFill.strokeWidth == old(paintFill.strokeWidth)
      ensures repaintRequested == old(repaintRequested) && relayoutRequested == old(relayoutRequested)
    {
      if enabled {
        paintBackStroke.color := backStrokeColor;
        paintFrontStroke.color := frontFillColor;
        paintFill.color := frontFillColor;
      } else {
        paintBackStroke.color := disabledColor;
        paintFrontStroke.color := disabledColor;
        paintFill.color := disabledColor;
      }
      ComputeBackStrokeAlpha(paintBackStroke, enabled);
      ComputeAlpha(paintFrontStroke, enabled);
      ComputeAlpha(paintFill, enabled);
      isEnabled := enabled;
      assert Paints() == EnabledPalette(backStrokeColor, frontFillColor, disabledColor, progress, enabled);
    }

    /** The `diameter` setter: store, then request a repaint and a new layout. */
    method SetDiameter(value: real)
      requires Valid()
      modifies this
      ensures Valid()
      ensures Settings() == old(Settings()).(diameter := value)
      ensures repaintRequested && relayoutRequested
    {
      diameter := value;
      repaintRequested := true;
      relayoutRequested := true;
    }

    /** The `strokeWidth` setter: store and request a repaint. The paints keep
        the stroke width they were built with. */
    method SetStrokeWidth(value: real)
      requires Valid()
      modifies this
      ensures Valid()
      ensures Settings() == old(Settings()).(strokeWidth := value)
      ensures repaintRequested && relayoutRequested == old(relayoutRequested)
    {
      strokeWidth := value;
      repaintRequested := true;
    }

    /** The `backStrokeColor` setter: store; when enabled, give the track the
        new colour as is (no alpha recomputation) and request a repaint. */
    method SetBackStrokeColor(value: Argb)
      requires Valid()
      modifies this, paintBackStroke
      ensures Valid()
      ensures Settings() == old(Settings()).(backStrokeColor := value)
      ensures Paints() == if isEnabled then old(Paints()).(backStroke := value) else old(Paints())
      ensures paintBackStroke.strokeWidth == old(paintBackStroke.strokeWidth)
      ensures repaintRequested == (old(repaintRequested) || isEnabled)
      ensures relayoutRequested == old(relayoutRequested)
    {
      backStrokeColor := value;
      if isEnabled {
        paintBackStroke.color := value;
        repaintRequested := true;
      }
    }

    /** The `frontFillColor` setter: store; when enabled, give the front stroke
        the darkened colour and the fill the colour itself, both with their
        alpha rescaled by the progress, and request a repaint. */
    method SetFrontFillColor(value: Argb)
      requires Valid()
      modifies this, paintFrontStroke, paintFill
      ensures Valid()
      ensures Settings() == old(Settings()).(frontFillColor := value)
      ensures Paints() == if isEnabled
                          then old(Paints()).(frontStroke := ProgressLayer(Darken(value), progress, true),
                                              fill := ProgressLayer(value, progress, true))
                          else old(Paints())
      ensures paintFrontStroke.strokeWidth == old(paintFrontStroke.strokeWidth)
      ensures paintFill.strokeWidth == old(paintFill.strokeWidth)
      ensures repaintRequested == (old(repaintRequested) || isEnabled)
      ensures relayoutRequested == old(relayoutRequested)
    {
      frontFillColor := value;
      if isEnabled {
        paintFrontStroke.color := Darken(frontFillColor);
        ComputeAlpha(paintFrontStroke, isEnabled);

        paintFill.color := value;
        ComputeAlpha(paintFill, isEnabled);
        repaintRequested := true;
      }
    }

    /** The `disabledColor` setter: store; when disabled, repaint all three
        paints exactly as `setEnabled(false)` would and request a repaint. */
    method SetDisabledColor(value: Argb)
      requires Valid()
      modifies this, paintBackStroke, paintFrontStroke, paintFill
      ensures Valid()
      ensures Settings() == old(Settings()).(disabledColor := value)
      ensures Paints() == if isEnabled then old(Paints())
                          else EnabledPalette(backStrokeColor, frontFillColor, value, progress, false)
      ensures paintBackStroke.strokeWidth == old(paintBackStroke.strokeWidth)
      ensures paintFrontStroke.strokeWidth == old(paintFrontStroke.strokeWidth)
      ensures paintFill.strokeWidth == old(paintFill.strokeWidth)
      ensures repaintRequested == (old(repaintRequested) || !isEnabled)
      ensures relayoutRequested == old(relayoutRequested)
    {
      disabledColor := value;
      if !isEnabled {
        paintBackStroke.color := disabledColor;
        ComputeBackStrokeAlpha(paintBackStroke, isEnabled);

        paintFrontStroke.color := disabledColor;
        ComputeAlpha(paintFrontStroke, isEnabled);

        paintFill.color := disabledColor;
        ComputeAlpha(paintFill, isEnabled);
        repaintRequested := true;
        assert Paints() == EnabledPalette(backStrokeColor, frontFillColor, disabledColor, progress, false);
      }
    }

    /** The `progress` setter: a value outside [0, 1] is rejected and nothing
        changes; otherwise store it, rescale the alpha the fill and the front
        stroke currently hold, and request a repaint. */
    method SetProgress(value: real) returns (r: Outcome)
      requires Valid()
      modifies this, paintFrontStroke, paintFill
      ensures Valid()
      ensures r == Pass <==> InUnitRange(value)
      ensures r != Pass ==> r == Fail(IllegalArgument(value))
      ensures r != Pass ==> Settings() == old(Settings()) && Paints() == old(Paints())
                            && repaintRequested == old(repaintRequested)
      ensures r == Pass ==> Settings() == old(Settings()).(progress := value)
                            && Paints() == Reprogressed(old(Paints()), value, isEnabled)
                            && repaintRequested
      ensures paintFrontStroke.strokeWidth == old(paintFrontStroke.strokeWidth)
      ensures paintFill.strokeWidth == old(paintFill.strokeWidth)
      ensures relayoutRequested == old(relayoutRequested)
    {
      r := CheckProgress(value);
      if r != Pass {
        return;
      }
      progress := value;
      ComputeAlpha(paintFill, isEnabled);
      ComputeAlpha(paintFrontStroke, isEnabled);
      repaintRequested := true;
    }

    /** `onDraw`: the fill disc, then the track ring, then the front ring, all
        around the centre of the content box. The disc touches the box's left
        and top edges; the rings' nominal outer edge (their radius plus half the
        configured stroke width) meets the disc's edge. */
    function OnDraw(paddingLeft: int, paddingTop: int): (cmds: seq<Circle>)
      reads this, paintBackStroke, paintFrontStroke, paintFill
      ensures |cmds| == 3
      ensures cmds[0].layer == FillLayer && cmds[1].layer == BackStrokeLayer && cmds[2].layer == FrontStrokeLayer
      ensures forall i | 0 <= i < 3 :: cmds[i].cx == cmds[0].cx && cmds[i].cy == cmds[0].cy
      ensures cmds[0].cx - cmds[0].radius == paddingLeft as real
      ensures cmds[0].cy - cmds[0].radius == paddingTop as real
      ensures cmds[0].radius + cmds[0].radius == diameter
      ensures cmds[1].radius == cmds[2].radius
      ensures cmds[1].radius + strokeWidth / 2.0 == cmds[0].radius
      ensures cmds[1].radius >= 0.0 <==> strokeWidth <= diameter
      ensures cmds[0].color == paintFill.color && cmds[0].strokeWidth == paintFill.strokeWidth
      ensures cmds[1].color == paintBackStroke.color && cmds[1].strokeWidth == paintBackStroke.strokeWidth
      ensures cmds[2].color == paintFrontStroke.color && cmds[2].strokeWidth == paintFrontStroke.strokeWidth
    {
      var centerX := paddingLeft as real + diameter / 2.0;
      var centerY := paddingTop as real + diameter / 2.0;
      var radius := diameter / 2.0;
      var strokeRadius := radius - strokeWidth / 2.0;
      [Circle(FillLayer, centerX, centerY, radius, paintFill.color, paintFill.strokeWidth),
       Circle(BackStrokeLayer, centerX, centerY, strokeRadius, paintBackStroke.color, paintBackStroke.strokeWidth),
       Circle(FrontStrokeLayer, centerX, centerY, strokeRadius, paintFrontStroke.color, paintFrontStroke.strokeWidth)]
    }

    /** The intrinsic size `onMeasure` asks for: padding plus diameter on each
        axis, converted with `toInt()`. */
    function MinimumSize(paddingStart: int, paddingEnd: int, paddingTop: int, paddingBottom: int): (size: (int, int))
      reads this
      ensures var w := paddingStart as real + diameter + paddingEnd as real;
              0.0 <= w ==> 0 <= size.0 && size.0 as real <= w && (size.0 == IntMax || w < size.0 as real + 1.0)
      ensures var h := paddingBottom as real + diameter + paddingTop as real;
              0.0 <= h ==> 0 <= size.1 && size.1 as real <= h && (size.1 == IntMax || h < size.1 as real + 1.0)
      ensures IntMin <= size.0 <= IntMax && IntMin <= size.1 <= IntMax
    {
      (FloatToInt(paddingStart as real + diameter + paddingEnd as real),
       FloatToInt(paddingBottom as real + diameter + paddingTop as real))
    }
  }

  /** Construction succeeds exactly when the configured progress is in [0, 1];
      `init` otherwise throws before the view exists. */
  method Create(cfg: Config) returns (r: Result<FillingProgressBar>)
    ensures r.Err? <==> !InUnitRange(cfg.progress)
    ensures r.Err? ==> r.error == IllegalArgument(cfg.progress)
    ensures r.Ok? ==> fresh(r.value) && r.value.Valid() && r.value.Settings() == cfg
    ensures r.Ok? ==> r.value.Paints() == EnabledPalette(cfg.backStrokeColor, cfg.frontFillColor,
                                                         cfg.disabledColor, cfg.progress, cfg.enabled)
    ensures r.Ok? ==> r.value.paintBackStroke.strokeWidth == cfg.strokeWidth
                      && r.value.paintFrontStroke.strokeWidth == cfg.strokeWidth
    ensures r.Ok? ==> !r.value.repaintRequested && !r.value.relayoutRequested
  {
    var check := CheckProgress(cfg.progress);
    if check != Pass {
      return Err(check.error);
    }
    var bar := new FillingProgressBar(cfg);
    return Ok(bar);
  }
}
