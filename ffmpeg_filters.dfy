/**
 * Derivation of the zoompan parameters from the zoom settings, and the
 * filter expressions handed to the external renderer. Each builder has a
 * reader that recovers its fields from the text, so that the rendered
 * expression is shown to be unambiguous.
 */
module FfmpegFilters {
  import opened JsNumber
  import opened Zoom

  /**
   * Half of `targetSize` times the zoom growth of one frame: the exact
   * per-frame pan that keeps a window centred while it grows by
   * `zoomRate - 1` per frame.
   */
  function HalfGrowth(targetSize: real, zoomRate: real): real {
    targetSize * (zoomRate - 1.0) / 2.0
  }

  /** Everything the zoompan filter expression is built from. */
  datatype ZoompanParams = ZoompanParams(
    zoomIncrement: real,
    jumpX: real,
    jumpY: real,
    duration: real,
    fps: real,
    width: real,
    height: real)

  /** Per-frame jump for one axis: the ideal final offset spread over the frames, rounded. */
  function IdealJump(upscaledSize: real, userFinalZoom: real, totalFrames: real): (r: real)
    requires totalFrames != 0.0 && userFinalZoom != 0.0
    ensures IsIntegral(r)
  {
    var idealOffset := (upscaledSize * (userFinalZoom - 1.0)) / (2.0 * userFinalZoom);
    Round(idealOffset / totalFrames)
  }

  /**
   * Settings for which every division in the derivation is defined: at
   * least some frames, a non-zero final zoom, and a horizontal jump small
   * enough that the resynchronised zoom has a non-zero denominator.
   */
  predicate ZoompanDefined(settings: ZoomSettings) {
    var totalFrames := TotalFrames(settings);
    var finalZoom := FinalZoomLevel(settings);
    && totalFrames > 0.0
    && finalZoom != 0.0
    && var upscaledW := UpscaledDimensions(settings).width;
       upscaledW - 2.0 * (IdealJump(upscaledW, finalZoom, totalFrames) * totalFrames) != 0.0
  }

  /**
   * Derives the whole-pixel jumps, the frame count, the frame rate, the
   * output size and the additive zoom step resynchronised to the jump.
   */
  function CalculateZoompanParams(settings: ZoomSettings): (p: ZoompanParams)
    requires ZoompanDefined(settings)
    ensures p.duration == TotalFrames(settings) && p.fps == settings.frameRate
    ensures p.width == settings.targetWidth && p.height == settings.targetHeight
    ensures IsIntegral(p.jumpX) && IsIntegral(p.jumpY)
  {
    var totalFrames := TotalFrames(settings);
    var userFinalZoom := FinalZoomLevel(settings);
    var dims := UpscaledDimensions(settings);
    var upscaledW, upscaledH := dims.width, dims.height;
    var jumpX := IdealJump(upscaledW, userFinalZoom, totalFrames);
    var jumpY := IdealJump(upscaledH, userFinalZoom, totalFrames);
    var adjFinalZoom := AdjustedFinalZoom(upscaledW, jumpX, totalFrames);
    var zoomIncrement := (adjFinalZoom - 1.0) / totalFrames;
    ZoompanParams(zoomIncrement, jumpX, jumpY, totalFrames, settings.frameRate,
                  settings.targetWidth, settings.targetHeight)
  }

  /** The zoompan filter: additive zoom step, linear pan by the jumps, frame count, rate and size. */
  function BuildZoompanFilter(params: ZoompanParams): string {
    "zoompan=z='zoom+" + NumberToString(params.zoomIncrement)
    + "':x='" + NumberToString(params.jumpX)
    + "*on':y='" + NumberToString(params.jumpY)
    + "*on':d=" + NumberToString(params.duration)
    + ":fps=" + NumberToString(params.fps)
    + ":s=" + NumberToString(params.width) + "x" + NumberToString(params.height)
  }

  function ZoompanFilterFromSettings(settings: ZoomSettings): string
    requires ZoompanDefined(settings)
  {
    var params := CalculateZoompanParams(settings);
    BuildZoompanFilter(params)
  }

  /** Scale filter; -1 on either side keeps the aspect ratio. */
  function BuildScaleFilter(width: real, height: real): string {
    "scale=" + NumberToString(width) + ":" + NumberToString(height)
  }

  /** Box blur with a "radius:power" argument passed through verbatim. */
  function BuildBlurFilter(blur: string): string {
    "boxblur=" + blur
  }

  /** Centres the foreground stream over the background and crops to the output size. */
  function BuildOverlayFilter(targetWidth: real, targetHeight: real): string {
    "[0:v][1:v]overlay=(" + NumberToString(targetWidth) + "/2)-(overlay_w/2):0,crop="
    + NumberToString(targetWidth) + ":" + NumberToString(targetHeight) + ":0:0[outv]"
  }

  // ---------------------------------------------------------------------
  // Laws of the parameter derivation

  /**
   * `increment` is the additive step that, after `totalFrames` frames,
   * reaches the zoom resynchronised to `jump` on an image `upscaledW` wide.
   */
  predicate IsResyncStep(upscaledW: real, jump: real, totalFrames: real, increment: real) {
    && totalFrames != 0.0
    && upscaledW - 2.0 * (jump * totalFrames) != 0.0
    && increment == (AdjustedFinalZoom(upscaledW, jump, totalFrames) - 1.0) / totalFrames
  }

  /** Unfolds the derivation: how each field of the parameters is obtained, for the laws below. */
  lemma ZoompanParamsFields(settings: ZoomSettings)
    requires ZoompanDefined(settings)
    ensures var p := CalculateZoompanParams(settings);
            var n, z := TotalFrames(settings), FinalZoomLevel(settings);
            var dims := UpscaledDimensions(settings);
            && p.jumpX == IdealJump(dims.width, z, n)
            && p.jumpY == IdealJump(dims.height, z, n)
            && IsResyncStep(dims.width, p.jumpX, n, p.zoomIncrement)
  {
  }

  /** Ideal jump of the parameter derivation and constant jump of the zoom math agree. */
  lemma IdealJumpIsConstantJump(upscaledSize: real, finalZoom: real, totalFrames: real)
    requires totalFrames != 0.0 && finalZoom != 0.0
    ensures IdealJump(upscaledSize, finalZoom, totalFrames) == ConstantJumpSize(upscaledSize, totalFrames, finalZoom)
  {
    CenterOffsetClosedForm(upscaledSize, finalZoom);
  }

  /** The derived jumps are the constant jump sizes of the zoom math on the upscaled image. */
  lemma ZoompanJumpsAreConstantJumps(settings: ZoomSettings)
    requires ZoompanDefined(settings)
    ensures CalculateZoompanParams(settings).jumpX
      == ConstantJumpSize(UpscaledDimensions(settings).width, TotalFrames(settings), FinalZoomLevel(settings))
    ensures CalculateZoompanParams(settings).jumpY
      == ConstantJumpSize(UpscaledDimensions(settings).height, TotalFrames(settings), FinalZoomLevel(settings))
  {
    ZoompanParamsFields(settings);
    var dims := UpscaledDimensions(settings);
    IdealJumpIsConstantJump(dims.width, FinalZoomLevel(settings), TotalFrames(settings));
    IdealJumpIsConstantJump(dims.height, FinalZoomLevel(settings), TotalFrames(settings));
  }

  /** `q` is the quotient `a / b` when it times `b` gives `a`. */
  lemma QuotientUnique(a: real, b: real, q: real)
    requires b != 0.0 && q * b == a
    ensures a / b == q
  {
  }

  /** Unfolds `IdealJump` into the rounding of the ideal offset per frame. */
  lemma IdealJumpUnfold(upscaledSize: real, finalZoom: real, totalFrames: real)
    requires totalFrames != 0.0 && finalZoom != 0.0
    ensures IdealJump(upscaledSize, finalZoom, totalFrames)
            == Round((upscaledSize * (finalZoom - 1.0)) / (2.0 * finalZoom) / totalFrames)
  {
  }

  /** Centring an image upscaled by `z` leaves half the growth `z - 1` of the target size. */
  lemma HalfGrowthOfUpscaled(targetSize: real, finalZoom: real, upscaledSize: real)
    requires finalZoom != 0.0 && upscaledSize == targetSize * finalZoom
    ensures (upscaledSize * (finalZoom - 1.0)) / (2.0 * finalZoom) == targetSize * (finalZoom - 1.0) / 2.0
  {
    QuotientUnique(upscaledSize * (finalZoom - 1.0), 2.0 * finalZoom, targetSize * (finalZoom - 1.0) / 2.0);
  }

  /** Growth accumulated linearly over `n` frames, spread back over them, is the growth of one frame. */
  lemma GrowthPerFrame(targetSize: real, zoomRate: real, totalFrames: real, finalZoom: real)
    requires totalFrames != 0.0 && finalZoom == 1.0 + (zoomRate - 1.0) * totalFrames
    ensures targetSize * (finalZoom - 1.0) / 2.0 / totalFrames == targetSize * (zoomRate - 1.0) / 2.0
  {
    QuotientUnique(targetSize * (finalZoom - 1.0) / 2.0, totalFrames, targetSize * (zoomRate - 1.0) / 2.0);
  }

  /**
   * On one axis, upscaling by the final zoom cancels against the centring
   * formula: the ideal per-frame jump is half the target size times the
   * zoom growth per frame, rounded.
   */
  lemma IdealJumpClosedForm(targetSize: real, zoomRate: real, totalFrames: real, finalZoom: real,
                            upscaledSize: real, jump: real)
    requires totalFrames != 0.0 && finalZoom != 0.0
    requires finalZoom == ZoomAtFrame(totalFrames, zoomRate)
    requires upscaledSize == targetSize * finalZoom
    requires jump == IdealJump(upscaledSize, finalZoom, totalFrames)
    ensures jump == Round(HalfGrowth(targetSize, zoomRate))
  {
    IdealJumpUnfold(upscaledSize, finalZoom, totalFrames);
    HalfGrowthOfUpscaled(targetSize, finalZoom, upscaledSize);
    GrowthPerFrame(targetSize, zoomRate, totalFrames, finalZoom);
  }

  /**
   * The horizontal jump depends only on the target width and the zoom
   * rate: half the width times the per-frame growth, rounded. The
   * duration and the frame rate cancel out.
   */
  lemma JumpXIgnoresDuration(settings: ZoomSettings)
    requires ZoompanDefined(settings)
    ensures CalculateZoompanParams(settings).jumpX
      == Round(HalfGrowth(settings.targetWidth, settings.zoomRate))
  {
    IdealJumpClosedForm(settings.targetWidth, settings.zoomRate, TotalFrames(settings), FinalZoomLevel(settings),
                        UpscaledDimensions(settings).width, CalculateZoompanParams(settings).jumpX);
  }

  /** The vertical jump likewise depends only on the target height and the zoom rate. */
  lemma JumpYIgnoresDuration(settings: ZoomSettings)
    requires ZoompanDefined(settings)
    ensures CalculateZoompanParams(settings).jumpY
      == Round(HalfGrowth(settings.targetHeight, settings.zoomRate))
  {
    IdealJumpClosedForm(settings.targetHeight, settings.zoomRate, TotalFrames(settings), FinalZoomLevel(settings),
                        UpscaledDimensions(settings).height, CalculateZoompanParams(settings).jumpY);
  }

  /** A defined derivation never works on an image of width 0: its jump would be 0 and the denominator 0. */
  lemma ResyncDenominatorNeedsWidth(upscaledW: real, finalZoom: real, totalFrames: real)
    requires totalFrames != 0.0 && finalZoom != 0.0
    requires upscaledW - 2.0 * (IdealJump(upscaledW, finalZoom, totalFrames) * totalFrames) != 0.0
    ensures upscaledW != 0.0
  {
    IdealJumpUnfold(0.0, finalZoom, totalFrames);
    RoundIntegral(0.0);
  }

  /** Spreading the growth `target - 1` evenly over `n` frames reaches `target`. */
  lemma StepReachesTarget(target: real, n: real)
    requires n != 0.0
    ensures 1.0 + (target - 1.0) / n * n == target
  {
  }

  /**
   * After `totalFrames` additive steps of `increment` on an image
   * `upscaledW` wide, the zoom is the resynchronised one, and there the
   * centring offset is exactly `jump * totalFrames`.
   */
  predicate Resynchronised(upscaledW: real, jump: real, totalFrames: real, increment: real) {
    && upscaledW - 2.0 * (jump * totalFrames) != 0.0
    && var zoom := AdjustedFinalZoom(upscaledW, jump, totalFrames);
       && 1.0 + increment * totalFrames == zoom
       && zoom != 0.0
       && CenterOffsetX(upscaledW, zoom) == jump * totalFrames
  }

  /**
   * On the upscaled width, the additive step reaches after all frames a
   * zoom at which the centring offset is exactly the jump times the frame
   * count.
   */
  lemma ResyncReachesOffset(upscaledW: real, finalZoom: real, totalFrames: real, jump: real, increment: real)
    requires totalFrames != 0.0 && finalZoom != 0.0
    requires jump == IdealJump(upscaledW, finalZoom, totalFrames)
    requires IsResyncStep(upscaledW, jump, totalFrames, increment)
    ensures Resynchronised(upscaledW, jump, totalFrames, increment)
  {
    StepReachesTarget(AdjustedFinalZoom(upscaledW, jump, totalFrames), totalFrames);
    ResyncDenominatorNeedsWidth(upscaledW, finalZoom, totalFrames);
    AdjustedFinalZoomInverse(upscaledW, jump, totalFrames);
  }

  /**
   * The zoom step reaches the resynchronised zoom after all frames, at
   * which the centring offset is exactly the horizontal jump times the
   * frame count: zoom and pan stay in step on the horizontal axis.
   */
  lemma ZoomIncrementResynchronises(settings: ZoomSettings)
    requires ZoompanDefined(settings)
    ensures Resynchronised(UpscaledDimensions(settings).width, CalculateZoompanParams(settings).jumpX,
                           TotalFrames(settings), CalculateZoompanParams(settings).zoomIncrement)
  {
    var p := CalculateZoompanParams(settings);
    var upscaledW, n := UpscaledDimensions(settings).width, TotalFrames(settings);
    ZoompanParamsFields(settings);
    ResyncReachesOffset(upscaledW, FinalZoomLevel(settings), n, p.jumpX, p.zoomIncrement);
  }

  /** A quotient of a larger positive number by a smaller one exceeds 1. */
  lemma QuotientAboveOne(a: real, b: real)
    requires 0.0 < b < a
    ensures a / b > 1.0
  {
    assert a / b * b == a;
  }

  /** The window panned by `jump` at each of `totalFrames` frames, from both sides, stays inside the image. */
  predicate PanFits(upscaledW: real, jump: real, totalFrames: real) {
    upscaledW - 2.0 * (jump * totalFrames) > 0.0
  }

  /** A positive jump that stays inside the image gives a resynchronised zoom above 1, hence a positive step. */
  lemma ResyncStepPositive(upscaledW: real, jump: real, totalFrames: real, increment: real)
    requires totalFrames > 0.0 && jump > 0.0
    requires PanFits(upscaledW, jump, totalFrames)
    requires IsResyncStep(upscaledW, jump, totalFrames, increment)
    ensures increment > 0.0
  {
    var d := upscaledW - 2.0 * (jump * totalFrames);
    assert 0.0 < jump * totalFrames;
    QuotientAboveOne(upscaledW, d);
    var growth := AdjustedFinalZoom(upscaledW, jump, totalFrames) - 1.0;
    assert growth > 0.0;
    assert increment * totalFrames == growth;
  }

  /** With a positive jump that stays inside the image, the zoom step is positive. */
  lemma ZoomIncrementPositive(settings: ZoomSettings)
    requires ZoompanDefined(settings)
    requires CalculateZoompanParams(settings).jumpX > 0.0
    requires PanFits(UpscaledDimensions(settings).width, CalculateZoompanParams(settings).jumpX, TotalFrames(settings))
    ensures CalculateZoompanParams(settings).zoomIncrement > 0.0
  {
    var p := CalculateZoompanParams(settings);
    var upscaledW, n := UpscaledDimensions(settings).width, TotalFrames(settings);
    ZoompanParamsFields(settings);
    ResyncStepPositive(upscaledW, p.jumpX, n, p.zoomIncrement);
  }

  /** Half the growth of a non-negative size under a zooming-in rate rounds to a non-negative jump. */
  lemma HalfGrowthNonNegative(size: real, rate: real, jump: real)
    requires size >= 0.0 && rate >= 1.0
    requires jump == Round(HalfGrowth(size, rate))
    ensures jump >= 0.0
  {
    assert size * (rate - 1.0) >= 0.0;
    RoundMonotone(0.0, size * (rate - 1.0) / 2.0);
    RoundIntegral(0.0);
  }

  /** A zooming-in rate on a non-negative target size never moves the window backwards. */
  lemma JumpsNonNegative(settings: ZoomSettings)
    requires ZoompanDefined(settings)
    requires settings.zoomRate >= 1.0 && settings.targetWidth >= 0.0 && settings.targetHeight >= 0.0
    ensures CalculateZoompanParams(settings).jumpX >= 0.0
    ensures CalculateZoompanParams(settings).jumpY >= 0.0
  {
    JumpXIgnoresDuration(settings);
    HalfGrowthNonNegative(settings.targetWidth, settings.zoomRate, CalculateZoompanParams(settings).jumpX);
    JumpYIgnoresDuration(settings);
    HalfGrowthNonNegative(settings.targetHeight, settings.zoomRate, CalculateZoompanParams(settings).jumpY);
  }

  /** Half the growth, rounded, never shrinks when the size or the rate grows. */
  lemma HalfGrowthMonotone(size1: real, size2: real, rate1: real, rate2: real, jump1: real, jump2: real)
    requires 0.0 <= size1 <= size2 && 1.0 <= rate1 <= rate2
    requires jump1 == Round(HalfGrowth(size1, rate1)) && jump2 == Round(HalfGrowth(size2, rate2))
    ensures jump1 <= jump2
  {
    assert size1 * (rate1 - 1.0) <= size2 * (rate1 - 1.0);
    assert size2 * (rate1 - 1.0) <= size2 * (rate2 - 1.0);
    RoundMonotone(size1 * (rate1 - 1.0) / 2.0, size2 * (rate2 - 1.0) / 2.0);
  }

  /**
   * Jumps never shrink when the target grows or the zoom rate rises, for
   * zooming-in rates and non-negative sizes.
   */
  lemma JumpsMonotone(settings1: ZoomSettings, settings2: ZoomSettings)
    requires ZoompanDefined(settings1) && ZoompanDefined(settings2)
    requires 1.0 <= settings1.zoomRate <= settings2.zoomRate
    requires 0.0 <= settings1.targetWidth <= settings2.targetWidth
    requires 0.0 <= settings1.targetHeight <= settings2.targetHeight
    ensures CalculateZoompanParams(settings1).jumpX <= CalculateZoompanParams(settings2).jumpX
    ensures CalculateZoompanParams(settings1).jumpY <= CalculateZoompanParams(settings2).jumpY
  {
    JumpXIgnoresDuration(settings1);
    JumpXIgnoresDuration(settings2);
    HalfGrowthMonotone(settings1.targetWidth, settings2.targetWidth, settings1.zoomRate, settings2.zoomRate,
                       CalculateZoompanParams(settings1).jumpX, CalculateZoompanParams(settings2).jumpX);
    JumpYIgnoresDuration(settings1);
    JumpYIgnoresDuration(settings2);
    HalfGrowthMonotone(settings1.targetHeight, settings2.targetHeight, settings1.zoomRate, settings2.zoomRate,
                       CalculateZoompanParams(settings1).jumpY, CalculateZoompanParams(settings2).jumpY);
  }

  /** Stretching the duration by `k` stretches the frame count by `k`. */
  lemma StretchedDurationFrames(settings: ZoomSettings, k: real)
    ensures TotalFrames(settings.(imageDurationSeconds := k * settings.imageDurationSeconds))
            == k * TotalFrames(settings)
  {
    var fr, d := settings.frameRate, settings.imageDurationSeconds;
    assert fr * (k * d) == k * (fr * d);
  }

  /**
   * Stretching the duration by any factor stretches the frame count by
   * that factor and leaves the jumps as they are.
   */
  lemma StretchingDurationKeepsJumps(settings: ZoomSettings, k: real)
    requires ZoompanDefined(settings)
    requires ZoompanDefined(settings.(imageDurationSeconds := k * settings.imageDurationSeconds))
    ensures var short := CalculateZoompanParams(settings);
            var long := CalculateZoompanParams(settings.(imageDurationSeconds := k * settings.imageDurationSeconds));
            long.duration == k * short.duration && long.jumpX == short.jumpX && long.jumpY == short.jumpY
  {
    var long := settings.(imageDurationSeconds := k * settings.imageDurationSeconds);
    assert long.targetWidth == settings.targetWidth && long.targetHeight == settings.targetHeight;
    assert long.zoomRate == settings.zoomRate;
    StretchedDurationFrames(settings, k);
    JumpXIgnoresDuration(settings);
    JumpXIgnoresDuration(long);
    JumpYIgnoresDuration(settings);
    JumpYIgnoresDuration(long);
  }

  /** Over all frames, the per-frame half growth adds up to half the growth of the final zoom. */
  lemma HalfGrowthOverFrames(targetSize: real, zoomRate: real, totalFrames: real, finalZoom: real,
                              upscaledSize: real)
    requires finalZoom == ZoomAtFrame(totalFrames, zoomRate)
    requires upscaledSize == targetSize * finalZoom
    ensures HalfGrowth(targetSize, zoomRate) * totalFrames == (upscaledSize - targetSize) / 2.0
  {
  }

  /** Overshooting the exact pan by at most half a pixel per frame costs at most one pixel per frame of denominator. */
  lemma DenominatorArithmetic(targetSize: real, totalFrames: real, upscaledSize: real, exact: real, jump: real)
    requires totalFrames > 0.0
    requires exact * totalFrames == (upscaledSize - targetSize) / 2.0
    requires jump <= exact + 0.5
    ensures upscaledSize - 2.0 * (jump * totalFrames) >= targetSize - totalFrames
  {
    var slack := exact + 0.5 - jump;
    assert slack * totalFrames >= 0.0;
    assert upscaledSize - 2.0 * (jump * totalFrames) - (targetSize - totalFrames) == 2.0 * (slack * totalFrames);
  }

  /**
   * The horizontal jump overshoots the exact pan by at most half a pixel
   * per frame, so the resynchronised denominator stays at least the target
   * width minus the frame count.
   */
  lemma ResyncDenominatorBound(targetSize: real, zoomRate: real, totalFrames: real, finalZoom: real,
                               upscaledSize: real, jump: real)
    requires totalFrames > 0.0 && finalZoom != 0.0
    requires finalZoom == ZoomAtFrame(totalFrames, zoomRate)
    requires upscaledSize == targetSize * finalZoom
    requires jump == IdealJump(upscaledSize, finalZoom, totalFrames)
    ensures upscaledSize - 2.0 * (jump * totalFrames) >= targetSize - totalFrames
  {
    IdealJumpClosedForm(targetSize, zoomRate, totalFrames, finalZoom, upscaledSize, jump);
    HalfGrowthOverFrames(targetSize, zoomRate, totalFrames, finalZoom, upscaledSize);
    DenominatorArithmetic(targetSize, totalFrames, upscaledSize, HalfGrowth(targetSize, zoomRate), jump);
  }

  /**
   * Zooming in (a rate of at least 1) over a positive frame count on a
   * target wider than that count always gives a defined derivation.
   */
  lemma ZoompanDefinedForWideTargets(settings: ZoomSettings)
    requires TotalFrames(settings) > 0.0 && settings.zoomRate >= 1.0
    requires settings.targetWidth > TotalFrames(settings)
    ensures ZoompanDefined(settings)
  {
    var n, z := TotalFrames(settings), FinalZoomLevel(settings);
    assert (settings.zoomRate - 1.0) * n >= 0.0;
    assert z >= 1.0;
    var w := UpscaledDimensions(settings).width;
    ResyncDenominatorBound(settings.targetWidth, settings.zoomRate, n, z, w, IdealJump(w, z, n));
  }

  const HD: ZoomSettings := ZoomSettings(1.005, 25.0, 3.0, 1920.0, 1080.0)

  /** Zoom 1.005 at 25 frames per second for 3 seconds in 1920x1080: 75 frames, jumps of 5 and 3 pixels. */
  lemma ZoompanExampleHD()
    ensures ZoompanDefined(HD)
    ensures var p := CalculateZoompanParams(HD);
            && p.duration == 75.0 && p.fps == 25.0 && p.width == 1920.0 && p.height == 1080.0
            && p.jumpX == 5.0 && p.jumpY == 3.0 && p.zoomIncrement > 0.0
  {
    ZoompanDefinedForWideTargets(HD);
    JumpXIgnoresDuration(HD);
    JumpYIgnoresDuration(HD);
    IntIsIntegral(5);
    IntIsIntegral(3);
    RoundIs(HalfGrowth(1920.0, 1.005), 5.0);
    RoundIs(HalfGrowth(1080.0, 1.005), 3.0);
    assert UpscaledDimensions(HD).width == 2640.0;
    ZoomIncrementPositive(HD);
  }

  /**
   * The emitted zoom is not the nominal curve `ZoomAtFrame`. For the HD
   * settings the resynchronised zoom after 75 frames is 2640/1890, past the
   * final zoom 1.375: the last window is 1890 pixels wide, narrower than
   * the 1920-pixel output. The vertical axis is not resynchronised: its pan
   * of 3 x 75 = 225 pixels misses the centring offset 210.9375 of that zoom.
   */
  lemma EmittedZoomOvershootsHD()
    ensures ZoompanDefined(HD)
    ensures var p := CalculateZoompanParams(HD);
            var emitted := 1.0 + p.zoomIncrement * p.duration;
            && emitted == 2640.0 / 1890.0
            && emitted > FinalZoomLevel(HD)
            && UpscaledDimensions(HD).width == 1890.0 * emitted
            && 1890.0 < HD.targetWidth
            && p.jumpY * p.duration == 225.0
            && CenterOffsetY(UpscaledDimensions(HD).height, 2640.0 / 1890.0) == 210.9375
  {
    ZoompanExampleHD();
    ZoomIncrementResynchronises(HD);
    DefaultFinalZoom();
    assert UpscaledDimensions(HD) == Dimensions(2640.0, 1485.0);
    assert AdjustedFinalZoom(2640.0, 5.0, 75.0) == 2640.0 / 1890.0;
  }


  /**
   * For a zooming-in rate over a target wider than the frame count, the
   * derivation is defined and its jumps are the integers nearest to half
   * the target size times the per-frame growth.
   */
  lemma JumpsAreNearestIntegers(settings: ZoomSettings, jumpX: int, jumpY: int)
    requires TotalFrames(settings) > 0.0 && settings.zoomRate >= 1.0
    requires settings.targetWidth > TotalFrames(settings)
    requires HalfGrowth(settings.targetWidth, settings.zoomRate) - 0.5 < jumpX as real
             <= HalfGrowth(settings.targetWidth, settings.zoomRate) + 0.5
    requires HalfGrowth(settings.targetHeight, settings.zoomRate) - 0.5 < jumpY as real
             <= HalfGrowth(settings.targetHeight, settings.zoomRate) + 0.5
    ensures ZoompanDefined(settings)
    ensures CalculateZoompanParams(settings).jumpX == jumpX as real
    ensures CalculateZoompanParams(settings).jumpY == jumpY as real
  {
    ZoompanDefinedForWideTargets(settings);
    JumpXIgnoresDuration(settings);
    JumpYIgnoresDuration(settings);
    IntIsIntegral(jumpX);
    IntIsIntegral(jumpY);
    RoundIs(HalfGrowth(settings.targetWidth, settings.zoomRate), jumpX as real);
    RoundIs(HalfGrowth(settings.targetHeight, settings.zoomRate), jumpY as real);
  }

  /** 1280x720 at zoom 1.005: 3.2 and 1.8 pixels per frame round to 3 and 2. */
  lemma ZoompanExampleSD()
    ensures ZoompanDefined(ZoomSettings(1.005, 25.0, 3.0, 1280.0, 720.0))
    ensures var p := CalculateZoompanParams(ZoomSettings(1.005, 25.0, 3.0, 1280.0, 720.0));
            p.jumpX == 3.0 && p.jumpY == 2.0 && p.duration == 75.0
  {
    var settings := ZoomSettings(1.005, 25.0, 3.0, 1280.0, 720.0);
    assert HalfGrowth(1280.0, 1.005) == 3.2 && HalfGrowth(720.0, 1.005) == 1.8;
    JumpsAreNearestIntegers(settings, 3, 2);
  }

  /** 3840x2160 at zoom 1.005: 9.6 and 5.4 pixels per frame round to 10 and 5. */
  lemma ZoompanExample4K()
    ensures ZoompanDefined(ZoomSettings(1.005, 25.0, 3.0, 3840.0, 2160.0))
    ensures var p := CalculateZoompanParams(ZoomSettings(1.005, 25.0, 3.0, 3840.0, 2160.0));
            p.jumpX == 10.0 && p.jumpY == 5.0
  {
    var settings := ZoomSettings(1.005, 25.0, 3.0, 3840.0, 2160.0);
    assert HalfGrowth(3840.0, 1.005) == 9.6 && HalfGrowth(2160.0, 1.005) == 5.4;
    JumpsAreNearestIntegers(settings, 10, 5);
  }

  /** Doubling the growth per frame (zoom 1.01) doubles the exact pan of 1920x1080: jumps of 10 and 5. */
  lemma ZoompanExampleFastZoom()
    ensures ZoompanDefined(ZoomSettings(1.01, 25.0, 3.0, 1920.0, 1080.0))
    ensures var p := CalculateZoompanParams(ZoomSettings(1.01, 25.0, 3.0, 1920.0, 1080.0));
            p.jumpX == 10.0 && p.jumpY == 5.0
  {
    var settings := ZoomSettings(1.01, 25.0, 3.0, 1920.0, 1080.0);
    assert HalfGrowth(1920.0, 1.01) == 9.6 && HalfGrowth(1080.0, 1.01) == 5.4;
    JumpsAreNearestIntegers(settings, 10, 5);
  }

  /** 60 frames per second for 3 seconds gives 180 frames with the same jumps as at 25. */
  lemma ZoompanExample60Fps()
    ensures ZoompanDefined(ZoomSettings(1.005, 60.0, 3.0, 1920.0, 1080.0))
    ensures var p := CalculateZoompanParams(ZoomSettings(1.005, 60.0, 3.0, 1920.0, 1080.0));
            p.duration == 180.0 && p.fps == 60.0 && p.jumpX == 5.0 && p.jumpY == 3.0
  {
    var settings := ZoomSettings(1.005, 60.0, 3.0, 1920.0, 1080.0);
    assert HalfGrowth(1920.0, 1.005) == 4.8 && HalfGrowth(1080.0, 1.005) == 2.7;
    JumpsAreNearestIntegers(settings, 5, 3);
  }

  /** 6 seconds at 25 frames per second gives 150 frames with the same jumps as 3 seconds. */
  lemma ZoompanExampleLongDuration()
    ensures ZoompanDefined(ZoomSettings(1.005, 25.0, 6.0, 1920.0, 1080.0))
    ensures var p := CalculateZoompanParams(ZoomSettings(1.005, 25.0, 6.0, 1920.0, 1080.0));
            p.duration == 150.0 && p.jumpX == 5.0 && p.jumpY == 3.0
  {
    var settings := ZoomSettings(1.005, 25.0, 6.0, 1920.0, 1080.0);
    assert HalfGrowth(1920.0, 1.005) == 4.8 && HalfGrowth(1080.0, 1.005) == 2.7;
    JumpsAreNearestIntegers(settings, 5, 3);
  }
}
