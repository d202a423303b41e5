/**
 * Closed-form geometry of the pan-and-zoom effect: the zoom level at each
 * output frame, the size the still image is upscaled to, the offset that
 * keeps the visible window centred, the single rounded per-frame jump, and
 * the zoom level resynchronised to that integer jump. All numbers are
 * JavaScript numbers, modelled as exact reals.
 */
module Zoom {
  import opened JsNumber
  import opened Text

  /** The parameters of one zoom effect. */
  datatype ZoomSettings = ZoomSettings(
    zoomRate: real,
    frameRate: real,
    imageDurationSeconds: real,
    targetWidth: real,
    targetHeight: real)

  datatype Dimensions = Dimensions(width: real, height: real)

  /** Number of output frames of one image: frame rate times duration. */
  function TotalFrames(settings: ZoomSettings): real {
    settings.frameRate * settings.imageDurationSeconds
  }

  /**
   * Zoom level at `frame`. The zoom grows additively, by `zoomRate - 1`
   * per frame, from 1 at frame 0.
   */
  function ZoomAtFrame(frame: real, zoomRate: real): real {
    1.0 + (zoomRate - 1.0) * frame
  }

  /** Zoom level reached at the last frame. */
  function FinalZoomLevel(settings: ZoomSettings): real {
    ZoomAtFrame(TotalFrames(settings), settings.zoomRate)
  }

  /** Size the still image is upscaled to: the target size times the final zoom. */
  function UpscaledDimensions(settings: ZoomSettings): Dimensions {
    var zoom := FinalZoomLevel(settings);
    Dimensions(settings.targetWidth * zoom, settings.targetHeight * zoom)
  }

  /**
   * Horizontal offset of the visible window that keeps it centred on an
   * image `inputWidth` wide at zoom level `zoom`: the window is
   * `inputWidth / zoom` wide and leaves the same margin on either side.
   */
  function CenterOffsetX(inputWidth: real, zoom: real): (r: real)
    requires zoom != 0.0
    ensures inputWidth - (r + inputWidth / zoom) == r
  {
    inputWidth / 2.0 - inputWidth / zoom / 2.0
  }

  /** Vertical centring offset: the horizontal formula applied to the height. */
  function CenterOffsetY(inputHeight: real, zoom: real): (r: real)
    requires zoom != 0.0
    ensures inputHeight - (r + inputHeight / zoom) == r
  {
    inputHeight / 2.0 - inputHeight / zoom / 2.0
  }

  /** The centring offset rounded down to a whole pixel (the superseded approach). */
  function FlooredOffsetX(inputWidth: real, zoom: real): (r: real)
    requires zoom != 0.0
    ensures IsIntegral(r)
    ensures r <= CenterOffsetX(inputWidth, zoom) < r + 1.0
  {
    Floor(CenterOffsetX(inputWidth, zoom))
  }

  function FlooredOffsetY(inputHeight: real, zoom: real): (r: real)
    requires zoom != 0.0
    ensures IsIntegral(r)
    ensures r <= CenterOffsetY(inputHeight, zoom) < r + 1.0
  {
    Floor(CenterOffsetY(inputHeight, zoom))
  }

  /** Offset at the final zoom level, the same formula on either axis. */
  function FinalOffset(inputSize: real, finalZoom: real): (r: real)
    requires finalZoom != 0.0
    ensures r == CenterOffsetX(inputSize, finalZoom) && r == CenterOffsetY(inputSize, finalZoom)
  {
    CenterOffsetX(inputSize, finalZoom)
  }

  /**
   * The one rounding of the pipeline: the whole-pixel distance the window
   * moves at every frame, the final offset spread evenly over the frames.
   */
  function ConstantJumpSize(inputSize: real, totalFrames: real, finalZoom: real): (r: real)
    requires totalFrames != 0.0 && finalZoom != 0.0
    ensures IsIntegral(r)
    ensures FinalOffset(inputSize, finalZoom) / totalFrames - 0.5 < r
    ensures r <= FinalOffset(inputSize, finalZoom) / totalFrames + 0.5
  {
    var endOffset := FinalOffset(inputSize, finalZoom);
    Round(endOffset / totalFrames)
  }

  /**
   * The zoom level whose centring offset on an image `inputSize` wide is
   * exactly `jumpSize * totalFrames`.
   */
  function AdjustedFinalZoom(inputSize: real, jumpSize: real, totalFrames: real): real
    requires inputSize - 2.0 * (jumpSize * totalFrames) != 0.0
  {
    var targetOffset := jumpSize * totalFrames;
    inputSize / (inputSize - 2.0 * targetOffset)
  }

  /** The additive zoom rate that reaches `AdjustedFinalZoom` after `totalFrames` frames. */
  function AdjustedZoomRate(inputSize: real, jumpSize: real, totalFrames: real): real
    requires totalFrames != 0.0
    requires inputSize - 2.0 * (jumpSize * totalFrames) != 0.0
  {
    var finalZoom := AdjustedFinalZoom(inputSize, jumpSize, totalFrames);
    1.0 + (finalZoom - 1.0) / totalFrames
  }

  /** Horizontal offset at `frame` when the window moves by the constant jump. */
  function LinearOffsetX(inputWidth: real, frame: real, totalFrames: real, finalZoom: real): real
    requires totalFrames != 0.0 && finalZoom != 0.0
  {
    var jump := ConstantJumpSize(inputWidth, totalFrames, finalZoom);
    jump * frame
  }

  function LinearOffsetY(inputHeight: real, frame: real, totalFrames: real, finalZoom: real): real
    requires totalFrames != 0.0 && finalZoom != 0.0
  {
    var jump := ConstantJumpSize(inputHeight, totalFrames, finalZoom);
    jump * frame
  }

  /** Tolerance `isNearInteger` uses when none is given. */
  const DefaultTolerance: real := 0.001

  /** Whether `value` lies within `tolerance` of the integer it rounds to. */
  predicate IsNearInteger(value: real, tolerance: real) {
    Abs(value - Round(value)) < tolerance
  }

  // ---------------------------------------------------------------------
  // Laws of the zoom curve

  /** Frame 0 is unzoomed, and every frame adds exactly `zoomRate - 1`. */
  lemma ZoomAtFrameSteps(zoomRate: real, frame: real)
    ensures ZoomAtFrame(0.0, zoomRate) == 1.0
    ensures ZoomAtFrame(frame + 1.0, zoomRate) - ZoomAtFrame(frame, zoomRate) == zoomRate - 1.0
  {
  }

  /** `t * big / small` is at least `t` when `small` is positive and at most `big`. */
  lemma QuotientAtLeast(t: real, big: real, small: real)
    requires t >= 0.0 && 0.0 < small <= big
    ensures t * big / small >= t
  {
    var q := t * big / small;
    assert q * small == t * big;
    assert t * (big - small) >= 0.0;
    assert (q - t) * small == t * (big - small);
  }

  /** Zooming in, the zoom level never falls below 1 and never passes the final zoom. */
  lemma ZoomBetweenOneAndFinal(settings: ZoomSettings, frame: real)
    requires settings.zoomRate >= 1.0 && 0.0 <= frame <= TotalFrames(settings)
    ensures 1.0 <= ZoomAtFrame(frame, settings.zoomRate) <= FinalZoomLevel(settings)
  {
    var growth := settings.zoomRate - 1.0;
    assert growth * frame >= 0.0;
    assert growth * (TotalFrames(settings) - frame) >= 0.0;
  }

  /**
   * On the nominal zoom curve `ZoomAtFrame(frame, zoomRate)` the upscaled
   * image never runs out of pixels: at the final zoom the visible window is
   * exactly the target size, and at every earlier frame of a zoom-in it is
   * at least the target size. The zoom the filter emits follows a different
   * curve (see `FfmpegFilters.EmittedZoomOvershootsHD`).
   */
  lemma UpscaledCoversTarget(settings: ZoomSettings, frame: real)
    requires settings.zoomRate >= 1.0 && 0.0 <= frame <= TotalFrames(settings)
    requires settings.targetWidth >= 0.0 && settings.targetHeight >= 0.0
    ensures UpscaledDimensions(settings).width / FinalZoomLevel(settings) == settings.targetWidth
    ensures UpscaledDimensions(settings).height / FinalZoomLevel(settings) == settings.targetHeight
    ensures UpscaledDimensions(settings).width / ZoomAtFrame(frame, settings.zoomRate) >= settings.targetWidth
    ensures UpscaledDimensions(settings).height / ZoomAtFrame(frame, settings.zoomRate) >= settings.targetHeight
  {
    ZoomBetweenOneAndFinal(settings, frame);
    var final, zoom := FinalZoomLevel(settings), ZoomAtFrame(frame, settings.zoomRate);
    QuotientAtLeast(settings.targetWidth, final, zoom);
    QuotientAtLeast(settings.targetHeight, final, zoom);
  }

  /** From zoom 1 on, the centred window lies inside the image on both axes. */
  lemma CenteredWindowInside(inputSize: real, zoom: real)
    requires inputSize >= 0.0 && zoom >= 1.0
    ensures 0.0 <= CenterOffsetX(inputSize, zoom) && CenterOffsetX(inputSize, zoom) + inputSize / zoom <= inputSize
    ensures 0.0 <= CenterOffsetY(inputSize, zoom) && CenterOffsetY(inputSize, zoom) + inputSize / zoom <= inputSize
  {
    var q := inputSize / zoom;
    assert q * zoom == inputSize;
    assert q >= 0.0;
    assert inputSize - q == q * (zoom - 1.0);
  }

  /** Zoom 1.005 at 25 frames per second for 3 seconds on a 1920x1080 target. */
  const DefaultZoom: ZoomSettings := ZoomSettings(1.005, 25.0, 3.0, 1920.0, 1080.0)

  /** The default zoom ends at 1.375, on a 2640x1485 image. */
  lemma DefaultFinalZoom()
    ensures FinalZoomLevel(DefaultZoom) == 1.375
    ensures UpscaledDimensions(DefaultZoom) == Dimensions(2640.0, 1485.0)
    ensures ZoomAtFrame(100.0, 1.005) == 1.5
  {
  }

  // ---------------------------------------------------------------------
  // Laws of the centring offset

  /** The centring offset is w(z-1)/(2z), the same on both axes. */
  lemma CenterOffsetClosedForm(inputSize: real, zoom: real)
    requires zoom != 0.0
    ensures CenterOffsetX(inputSize, zoom) == inputSize * (zoom - 1.0) / (2.0 * zoom)
    ensures CenterOffsetY(inputSize, zoom) == CenterOffsetX(inputSize, zoom)
  {
    var q := inputSize / zoom;
    assert q * zoom == inputSize;
    calc {
      inputSize * (zoom - 1.0) / (2.0 * zoom);
      (q * zoom * zoom - q * zoom) / (2.0 * zoom);
      (q * zoom - q) / 2.0;
      inputSize / 2.0 - q / 2.0;
    }
  }

  /** No offset at zoom 1; a quarter of the width at zoom 2; a sixth at zoom 1.5. */
  lemma CenterOffsetExamples()
    ensures CenterOffsetX(1920.0, 1.0) == 0.0 && CenterOffsetY(1080.0, 1.0) == 0.0
    ensures CenterOffsetX(1920.0, 2.0) == 480.0 && CenterOffsetY(1080.0, 2.0) == 270.0
    ensures CenterOffsetX(1920.0, 1.5) == 1920.0 / 6.0 && CenterOffsetY(1080.0, 1.5) == 1080.0 / 6.0
  {
  }

  /** For a non-negative size the centring offset grows with the zoom level, on both axes. */
  lemma CenterOffsetMonotone(inputSize: real, zoom1: real, zoom2: real)
    requires inputSize >= 0.0 && 0.0 < zoom1 <= zoom2
    ensures CenterOffsetX(inputSize, zoom1) <= CenterOffsetX(inputSize, zoom2)
    ensures CenterOffsetY(inputSize, zoom1) <= CenterOffsetY(inputSize, zoom2)
  {
    var q1, q2 := inputSize / zoom1, inputSize / zoom2;
    assert q1 * zoom1 == inputSize && q2 * zoom2 == inputSize;
    assert q2 >= 0.0;
    assert q2 * zoom1 <= q2 * zoom2;
    assert (q1 - q2) * zoom1 >= 0.0;
    assert q2 <= q1;
  }

  /** The floored offset never moves backwards as the zoom grows, on both axes. */
  lemma FlooredOffsetMonotone(inputSize: real, zoom1: real, zoom2: real)
    requires inputSize >= 0.0 && 0.0 < zoom1 <= zoom2
    ensures FlooredOffsetX(inputSize, zoom1) <= FlooredOffsetX(inputSize, zoom2)
    ensures FlooredOffsetY(inputSize, zoom1) <= FlooredOffsetY(inputSize, zoom2)
  {
    CenterOffsetMonotone(inputSize, zoom1, zoom2);
    var c1, c2 := CenterOffsetX(inputSize, zoom1), CenterOffsetX(inputSize, zoom2);
    assert c1.Floor <= c2.Floor by {
      assert c1.Floor as real <= c2 < c2.Floor as real + 1.0;
    }
    var d1, d2 := CenterOffsetY(inputSize, zoom1), CenterOffsetY(inputSize, zoom2);
    assert d1.Floor <= d2.Floor by {
      assert d1.Floor as real <= d2 < d2.Floor as real + 1.0;
    }
  }

  /** At zoom 1.5 a 1920 image floors to 320 exactly and a 1000 image to 166. */
  lemma FlooredOffsetExamples()
    ensures FlooredOffsetX(1920.0, 1.5) == 320.0
    ensures FlooredOffsetX(1000.0, 1.5) == 166.0
  {
    assert CenterOffsetX(1000.0, 1.5) == 1000.0 / 6.0;
  }

  // ---------------------------------------------------------------------
  // Laws of the constant jump and the resynchronised zoom

  /** Position is 0 at frame 0 and advances by the same whole jump at every frame. */
  lemma LinearOffsetSteps(inputSize: real, frame: real, totalFrames: real, finalZoom: real)
    requires totalFrames != 0.0 && finalZoom != 0.0
    ensures LinearOffsetX(inputSize, 0.0, totalFrames, finalZoom) == 0.0
    ensures LinearOffsetX(inputSize, frame + 1.0, totalFrames, finalZoom)
              - LinearOffsetX(inputSize, frame, totalFrames, finalZoom)
            == ConstantJumpSize(inputSize, totalFrames, finalZoom)
    ensures LinearOffsetY(inputSize, frame, totalFrames, finalZoom)
            == LinearOffsetX(inputSize, frame, totalFrames, finalZoom)
  {
  }

  /**
   * The resynchronised zoom is the exact inverse of the centring offset:
   * at that zoom the window sits exactly `jumpSize * totalFrames` from centre.
   */
  lemma AdjustedFinalZoomInverse(inputSize: real, jumpSize: real, totalFrames: real)
    requires inputSize != 0.0
    requires inputSize - 2.0 * (jumpSize * totalFrames) != 0.0
    ensures AdjustedFinalZoom(inputSize, jumpSize, totalFrames) != 0.0
    ensures CenterOffsetX(inputSize, AdjustedFinalZoom(inputSize, jumpSize, totalFrames))
            == jumpSize * totalFrames
  {
    var d := inputSize - 2.0 * (jumpSize * totalFrames);
    var z := AdjustedFinalZoom(inputSize, jumpSize, totalFrames);
    assert z * d == inputSize;
    assert z != 0.0;
    assert inputSize / z == d;
  }

  /** Conversely, resynchronising to the centring offset of a zoom gives that zoom back. */
  lemma AdjustedFinalZoomOfOffset(inputSize: real, zoom: real)
    requires inputSize != 0.0 && zoom != 0.0
    ensures inputSize - 2.0 * (CenterOffsetX(inputSize, zoom) * 1.0) != 0.0
    ensures AdjustedFinalZoom(inputSize, CenterOffsetX(inputSize, zoom), 1.0) == zoom
  {
    var q := inputSize / zoom;
    assert q * zoom == inputSize;
    assert q != 0.0;
    assert inputSize - 2.0 * CenterOffsetX(inputSize, zoom) == q;
  }

  /** The adjusted rate, applied additively for `totalFrames` frames, reaches the adjusted zoom. */
  lemma AdjustedZoomRateReachesAdjustedZoom(inputSize: real, jumpSize: real, totalFrames: real)
    requires totalFrames != 0.0
    requires inputSize - 2.0 * (jumpSize * totalFrames) != 0.0
    ensures ZoomAtFrame(totalFrames, AdjustedZoomRate(inputSize, jumpSize, totalFrames))
            == AdjustedFinalZoom(inputSize, jumpSize, totalFrames)
  {
    var z := AdjustedFinalZoom(inputSize, jumpSize, totalFrames);
    assert (z - 1.0) / totalFrames * totalFrames == z - 1.0;
  }

  // ---------------------------------------------------------------------
  // Near-integer test

  /** Every integer is near an integer for any positive tolerance. */
  lemma IntegersAreNearInteger(value: real, tolerance: real)
    requires IsIntegral(value) && tolerance > 0.0
    ensures IsNearInteger(value, tolerance)
  {
    RoundIntegral(value);
  }

  lemma IsNearIntegerExamples()
    ensures IsNearInteger(5.0001, 0.001) && IsNearInteger(4.9999, 0.001)
    ensures !IsNearInteger(5.5, DefaultTolerance)
    ensures !IsNearInteger(5.01, 0.001)
  {
    assert Round(5.0001) == 5.0;
    assert Round(4.9999) == 5.0;
    assert Round(5.5) == 6.0;
    assert Round(5.01) == 5.0;
  }

  // ---------------------------------------------------------------------
  // Jitter analyser

  datatype Axis = X | Y

  /** A diagnostic about a zoom configuration. */
  datatype Warning =
    | UpscaledWidthNotInteger(width: real)
    | UpscaledHeightNotInteger(height: real)
      /** Jumps at 0-based positions frame-3, frame-2, frame-1 went up then down or down then up. */
    | DirectionChanged(axis: Axis, frame: int, first: real, second: real, third: real)

  function AxisName(axis: Axis): string {
    match axis
    case X => "X"
    case Y => "Y"
  }

  /** The message the analyser reports for a warning. */
  function WarningText(w: Warning): string {
    match w
    case UpscaledWidthNotInteger(width) =>
      "Upscaled width " + NumberToString(width) + " is not an integer"
    case UpscaledHeightNotInteger(height) =>
      "Upscaled height " + NumberToString(height) + " is not an integer"
    case DirectionChanged(axis, frame, a, b, c) =>
      "Frame " + IntToString(frame) + ": " + AxisName(axis) + " jump direction changed ("
      + NumberToString(a) + "," + NumberToString(b) + "," + NumberToString(c) + ")"
  }

  /**
   * Exactly the dimension warnings have messages that start with "Upscaled",
   * and no direction-change message contains "Upscaled" anywhere: it has no
   * capital U at all.
   */
  lemma WarningTextUpscaled(w: Warning)
    ensures "Upscaled" <= WarningText(w) <==> !w.DirectionChanged?
    ensures Contains(WarningText(w), "Upscaled") <==> !w.DirectionChanged?
  {
    if w.DirectionChanged? {
      assert WarningText(w)[0] == 'F';
      var frame, a, b, c := IntToString(w.frame), NumberToString(w.first),
                            NumberToString(w.second), NumberToString(w.third);
      assert 'U' !in frame && 'U' !in a && 'U' !in b && 'U' !in c;
      assert 'U' !in AxisName(w.axis);
      assert 'U' !in WarningText(w);
      MissingCharNotContained(WarningText(w), "Upscaled", 'U');
    } else {
      PrefixContained(WarningText(w), "Upscaled");
    }
  }

  /** Warnings for upscaled dimensions that are not within the default tolerance of an integer. */
  function DimensionWarnings(settings: ZoomSettings): seq<Warning> {
    var dims := UpscaledDimensions(settings);
    (if !IsNearInteger(dims.width, DefaultTolerance) then [UpscaledWidthNotInteger(dims.width)] else [])
    + (if !IsNearInteger(dims.height, DefaultTolerance) then [UpscaledHeightNotInteger(dims.height)] else [])
  }

  /** The per-frame position changes of frames 1 to `count` under constant-jump motion. */
  function FrameJumps(inputSize: real, totalFrames: real, finalZoom: real, count: nat): (r: seq<real>)
    requires totalFrames != 0.0 && finalZoom != 0.0
    ensures |r| == count
  {
    if count == 0 then []
    else
      FrameJumps(inputSize, totalFrames, finalZoom, count - 1)
      + [LinearOffsetX(inputSize, count as real, totalFrames, finalZoom)
         - LinearOffsetX(inputSize, (count - 1) as real, totalFrames, finalZoom)]
  }

  /** Whether three consecutive jumps rise then fall, or fall then rise. */
  predicate ChangesDirection(first: real, second: real, third: real) {
    var prevDiff := second - first;
    var currDiff := third - second;
    (prevDiff > 0.0 && currDiff < 0.0) || (prevDiff < 0.0 && currDiff > 0.0)
  }

  /** Direction-change warnings for the jumps at positions 2 to `end - 1`, in order. */
  function DirectionWarnings(jumps: seq<real>, axis: Axis, end: nat): seq<Warning>
    requires end <= |jumps|
  {
    if end <= 2 then []
    else
      var i := end - 1;
      DirectionWarnings(jumps, axis, i)
      + (if ChangesDirection(jumps[i - 2], jumps[i - 1], jumps[i])
         then [DirectionChanged(axis, i + 1, jumps[i - 2], jumps[i - 1], jumps[i])]
         else [])
  }

  /** Requirements under which the analyser's arithmetic is defined. */
  predicate Analysable(settings: ZoomSettings) {
    TotalFrames(settings) > 0.0 && FinalZoomLevel(settings) != 0.0
  }

  /** Everything the analyser reports, in the order it reports it. */
  function JitterWarnings(settings: ZoomSettings): seq<Warning>
    requires Analysable(settings)
  {
    var totalFrames := TotalFrames(settings);
    var dims := UpscaledDimensions(settings);
    var finalZoom := FinalZoomLevel(settings);
    var jumpsX := FrameJumps(dims.width, totalFrames, finalZoom, totalFrames.Floor);
    var jumpsY := FrameJumps(dims.height, totalFrames, finalZoom, totalFrames.Floor);
    DimensionWarnings(settings)
    + DirectionWarnings(jumpsX, X, |jumpsX|)
    + DirectionWarnings(jumpsY, Y, |jumpsY|)
  }

  /** Every collected jump is the constant jump size. */
  lemma {:induction false} FrameJumpsConstant(inputSize: real, totalFrames: real, finalZoom: real, count: nat)
    requires totalFrames != 0.0 && finalZoom != 0.0
    ensures forall k :: 0 <= k < count ==>
      FrameJumps(inputSize, totalFrames, finalZoom, count)[k] == ConstantJumpSize(inputSize, totalFrames, finalZoom)
  {
    if count > 0 {
      FrameJumpsConstant(inputSize, totalFrames, finalZoom, count - 1);
      LinearOffsetSteps(inputSize, (count - 1) as real, totalFrames, finalZoom);
    }
  }

  /** Equal jumps never change direction. */
  lemma {:induction false} ConstantJumpsHaveNoDirectionWarnings(jumps: seq<real>, jump: real, axis: Axis, end: nat)
    requires end <= |jumps|
    requires forall k :: 0 <= k < |jumps| ==> jumps[k] == jump
    ensures DirectionWarnings(jumps, axis, end) == []
  {
    if end > 2 {
      ConstantJumpsHaveNoDirectionWarnings(jumps, jump, axis, end - 1);
    }
  }

  /** The analyser can only ever report non-integer upscaled dimensions. */
  lemma JitterWarningsAreDimensionWarnings(settings: ZoomSettings)
    requires Analysable(settings)
    ensures JitterWarnings(settings) == DimensionWarnings(settings)
  {
    var totalFrames := TotalFrames(settings);
    var dims := UpscaledDimensions(settings);
    var finalZoom := FinalZoomLevel(settings);
    var count := totalFrames.Floor;
    FrameJumpsConstant(dims.width, totalFrames, finalZoom, count);
    FrameJumpsConstant(dims.height, totalFrames, finalZoom, count);
    ConstantJumpsHaveNoDirectionWarnings(FrameJumps(dims.width, totalFrames, finalZoom, count),
      ConstantJumpSize(dims.width, totalFrames, finalZoom), X, count);
    ConstantJumpsHaveNoDirectionWarnings(FrameJumps(dims.height, totalFrames, finalZoom, count),
      ConstantJumpSize(dims.height, totalFrames, finalZoom), Y, count);
  }

  /** Scans consecutive triples of jumps and reports each one that goes back and forth. */
  method DirectionChangeWarnings(jumps: seq<real>, axis: Axis) returns (warnings: seq<Warning>)
    ensures warnings == DirectionWarnings(jumps, axis, |jumps|)
  {
    warnings := [];
    var i := 2;
    while i < |jumps|
      invariant 2 <= i && (i <= |jumps| || |jumps| <= 2)
      invariant warnings == DirectionWarnings(jumps, axis, if i < |jumps| then i else |jumps|)
    {
      var prevDiff := jumps[i - 1] - jumps[i - 2];
      var currDiff := jumps[i] - jumps[i - 1];
      if (prevDiff > 0.0 && currDiff < 0.0) || (prevDiff < 0.0 && currDiff > 0.0) {
        warnings := warnings + [DirectionChanged(axis, i + 1, jumps[i - 2], jumps[i - 1], jumps[i])];
      }
      i := i + 1;
    }
  }

  /**
   * Walks the frames collecting position changes on both axes, then looks
   * for jumps that go back and forth. Reports at most the two dimension
   * warnings: the constant jump never changes direction.
   */
  method AnalyzeZoomForJitter(settings: ZoomSettings) returns (warnings: seq<Warning>)
    requires Analysable(settings)
    ensures warnings == JitterWarnings(settings)
    ensures |warnings| <= 2
    ensures forall w :: w in warnings ==> !w.DirectionChanged?
    ensures UpscaledWidthNotInteger(UpscaledDimensions(settings).width) in warnings
            <==> !IsNearInteger(UpscaledDimensions(settings).width, DefaultTolerance)
    ensures UpscaledHeightNotInteger(UpscaledDimensions(settings).height) in warnings
            <==> !IsNearInteger(UpscaledDimensions(settings).height, DefaultTolerance)
  {
    warnings := [];
    var totalFrames := TotalFrames(settings);
    var dims := UpscaledDimensions(settings);
    var upscaledWidth, upscaledHeight := dims.width, dims.height;
    var finalZoom := FinalZoomLevel(settings);

    if !IsNearInteger(upscaledWidth, DefaultTolerance) {
      warnings := warnings + [UpscaledWidthNotInteger(upscaledWidth)];
    }
    if !IsNearInteger(upscaledHeight, DefaultTolerance) {
      warnings := warnings + [UpscaledHeightNotInteger(upscaledHeight)];
    }

    var jumpsX: seq<real> := [];
    var jumpsY: seq<real> := [];
    var prevOffsetX := LinearOffsetX(upscaledWidth, 0.0, totalFrames, finalZoom);
    var prevOffsetY := LinearOffsetY(upscaledHeight, 0.0, totalFrames, finalZoom);
    var frame := 1;
    while frame as real <= totalFrames
      invariant 1 <= frame <= totalFrames.Floor + 1
      invariant jumpsX == FrameJumps(upscaledWidth, totalFrames, finalZoom, frame - 1)
      invariant jumpsY == FrameJumps(upscaledHeight, totalFrames, finalZoom, frame - 1)
      invariant prevOffsetX == LinearOffsetX(upscaledWidth, (frame - 1) as real, totalFrames, finalZoom)
      invariant prevOffsetY == LinearOffsetY(upscaledHeight, (frame - 1) as real, totalFrames, finalZoom)
      decreases totalFrames.Floor + 1 - frame
    {
      var offsetX := LinearOffsetX(upscaledWidth, frame as real, totalFrames, finalZoom);
      var offsetY := LinearOffsetY(upscaledHeight, frame as real, totalFrames, finalZoom);
      LinearOffsetSteps(upscaledHeight, (frame - 1) as real, totalFrames, finalZoom);
      LinearOffsetSteps(upscaledHeight, frame as real, totalFrames, finalZoom);
      jumpsX := jumpsX + [offsetX - prevOffsetX];
      jumpsY := jumpsY + [offsetY - prevOffsetY];
      assert jumpsX == FrameJumps(upscaledWidth, totalFrames, finalZoom, frame);
      assert jumpsY == FrameJumps(upscaledHeight, totalFrames, finalZoom, frame);
      prevOffsetX := offsetX;
      prevOffsetY := offsetY;
      frame := frame + 1;
    }

    var directionX := DirectionChangeWarnings(jumpsX, X);
    var directionY := DirectionChangeWarnings(jumpsY, Y);
    warnings := warnings + directionX + directionY;

    JitterWarningsAreDimensionWarnings(settings);
  }

  /** Both upscaled dimensions of the default zoom are integers, so neither is flagged. */
  lemma DefaultDimensionWarnings()
    ensures DimensionWarnings(DefaultZoom) == []
  {
    DefaultFinalZoom();
    IntIsIntegral(2640);
    IntIsIntegral(1485);
    IntegersAreNearInteger(2640.0, DefaultTolerance);
    IntegersAreNearInteger(1485.0, DefaultTolerance);
  }

  /** Zoom 1.005 at 25 frames per second for 3 seconds in 1920x1080 raises nothing. */
  lemma DefaultSettingsHaveNoWarnings()
    ensures Analysable(DefaultZoom)
    ensures JitterWarnings(DefaultZoom) == []
  {
    DefaultFinalZoom();
    DefaultDimensionWarnings();
    JitterWarningsAreDimensionWarnings(DefaultZoom);
  }

  /** A value whose nearest integer is at least `tolerance` away is flagged. */
  lemma FarFromIntegerIsFlagged(value: real, nearest: real, tolerance: real)
    requires IsIntegral(nearest) && value - 0.5 < nearest <= value + 0.5
    requires Abs(value - nearest) >= tolerance
    ensures !IsNearInteger(value, tolerance)
  {
    RoundIs(value, nearest);
  }

  const SlowZoom: ZoomSettings := ZoomSettings(1.003, 30.0, 3.0, 1920.0, 1080.0)

  lemma SlowZoomDimensions()
    ensures FinalZoomLevel(SlowZoom) == 1.27
    ensures UpscaledDimensions(SlowZoom) == Dimensions(2438.4, 1371.6)
  {
  }

  lemma SlowZoomDimensionWarnings()
    ensures DimensionWarnings(SlowZoom) == [UpscaledWidthNotInteger(2438.4), UpscaledHeightNotInteger(1371.6)]
  {
    SlowZoomDimensions();
    IntIsIntegral(2438);
    IntIsIntegral(1372);
    FarFromIntegerIsFlagged(2438.4, 2438.0, DefaultTolerance);
    FarFromIntegerIsFlagged(1371.6, 1372.0, DefaultTolerance);
  }

  /** Zoom 1.003 at 30 frames per second for 3 seconds upscales to 2438.4x1371.6, flagged on both axes. */
  lemma SlowZoomFlagsDimensions()
    ensures Analysable(SlowZoom)
    ensures JitterWarnings(SlowZoom) == [UpscaledWidthNotInteger(2438.4), UpscaledHeightNotInteger(1371.6)]
  {
    SlowZoomDimensions();
    SlowZoomDimensionWarnings();
    JitterWarningsAreDimensionWarnings(SlowZoom);
  }
}
