# Syncotrope zoom geometry and filter expressions, in Dafny

Syncotrope turns still images into video clips with a slow pan-and-zoom
("Ken Burns") effect, rendered by FFmpeg's `zoompan` filter. This project
models the part of it that does the arithmetic and writes the filter text:

- **Zoom geometry** (`zoom.dfy`, module `Zoom`). The zoom level of each
  frame grows additively from 1 by `zoomRate - 1` per frame. The image is
  upscaled by the final zoom level. Keeping the visible window centred
  needs an offset `w/2 - w/zoom/2`. A constant whole-pixel jump per frame
  replaces the floored offset, which could go back and forth. A final zoom
  level is resynchronised to that jump. The jitter analyser
  `analyzeZoomForJitter` is an imperative method with loop invariants. It
  is proved equal to a functional specification, and it is proved never to
  report a direction change. The analyser returns `Warning` values (a
  non-integer upscaled width, a non-integer upscaled height, or a direction
  change on one axis at one frame). `WarningText` renders each one as the
  message the source pushes (src/core/zoom.ts:168-205).
- **Filter parameters and expressions** (`ffmpeg_filters.dfy`, module
  `FfmpegFilters`). This covers the derivation of the zoompan parameters
  from the zoom settings and the four expression builders (zoompan, scale,
  box blur, overlay-and-crop). `filter_syntax.dfy` (module `FilterSyntax`)
  adds a reader for each expression. Round-trip lemmas show that a
  builder's text determines the values it was built from.
- **Settings** (`settings.dfy`, `core_settings.dfy`,
  `legacy_settings.dfy`). The settings record, a partial record whose
  fields are `Option`s, and the object-spread merge of given fields over
  defaults. Two modules hold the two default records: the core library's,
  with all logging on, and the older shell's, with no logging.
- **Support**. `js_number.dfy` (module `JsNumber`) models JavaScript
  numbers as exact reals. It contains `Math.round`, `Math.floor`,
  `Math.abs`, integer rendering as in template strings, and integer
  parsing. `text.dfy` holds prefix stripping and splitting at a delimiter.
  `optional.dfy` holds `Option`.

The central results:

- The horizontal and vertical jumps depend only on the target size and
  the zoom rate: each is `Math.round(size * (zoomRate - 1) / 2)`. The frame
  rate and the duration cancel out (`JumpXIgnoresDuration`), so stretching
  the duration leaves the jumps unchanged.
- The additive zoom step reaches, after all frames, a zoom level at which
  the centring offset is exactly `jumpX * frames` (`ZoomIncrementResynchronises`).
- For a zooming-in rate on a target wider than the frame count, every
  division in the derivation is defined (`ZoompanDefinedForWideTargets`).
- The jitter analyser reports only non-integer upscaled dimensions
  (`AnalyzeZoomForJitter`).
- On the nominal zoom curve `zoomAtFrame(f, zoomRate)` the upscaled image
  never runs out of pixels. At the final zoom the visible window is exactly
  the target size. At every earlier frame of a zoom-in it is at least the
  target size (`UpscaledCoversTarget`).
- The zoom the filter emits is not that curve. It ends at the
  resynchronised zoom, which for the HD defaults is 2640/1890, past the
  final zoom 1.375: the last window is 1890 pixels wide, narrower than the
  1920-pixel output. The vertical pan is not resynchronised and misses the
  centring offset (`EmittedZoomOvershootsHD`).

The code and its test suite disagree on one point. The tests of
`buildZoompanFilter` (src/core/ffmpeg-filters.test.ts:81-123) expect a
hyperbolic zoom expression `z='iw/(iw-2*<jumpX>*on)'`. The builder as
written (src/core/ffmpeg-filters.ts:60-62) emits the additive
`z='zoom+<zoomIncrement>'`. This model follows the code. `ParseBuildZoompan`
shows that the zoom field reads back as the rendered increment.

## Model

| member | source | states |
|---|---|---|
| Zoom.ZoomAtFrame | src/core/zoom.ts:18-23 | computes the additive zoom `1 + (zoomRate - 1) * frame`; its laws are `ZoomAtFrameSteps` and `ZoomBetweenOneAndFinal` |
| Zoom.TotalFrames | src/core/zoom.ts:29 | computes the frame count, frame rate times duration; used by every law below |
| Zoom.FinalZoomLevel | src/core/zoom.ts:28-31 | computes the zoom at the last frame; `ZoomBetweenOneAndFinal` shows that no frame of a zoom-in goes past it |
| Zoom.UpscaledDimensions | src/core/zoom.ts:37-46 | computes the target size times the final zoom; `UpscaledCoversTarget` proves it is the size needed not to run out of pixels on the nominal zoom curve `zoomAtFrame(f, zoomRate)` |
| Zoom.ZoomAtFrameSteps | src/core/zoom.ts:18-23 | the zoom is 1 at frame 0 and grows by exactly `zoomRate - 1` from each frame to the next |
| Zoom.ZoomBetweenOneAndFinal | src/core/zoom.ts:18-31 | with a zooming-in rate, the zoom of every frame from 0 to the frame count lies between 1 and the final zoom |
| Zoom.UpscaledCoversTarget | src/core/zoom.ts:33-46 | the window at the final zoom is exactly the target size on both axes, and at every earlier frame of a zoom-in it is at least the target size |
| Zoom.DefaultFinalZoom | src/core/zoom.ts:37-46 | zoom 1.005 at 25 fps for 3 s ends at 1.375 on a 2640x1485 image, and frame 100 is at zoom 1.5 |
| Zoom.CenterOffsetX | src/core/zoom.ts:52-55 | the window `inputWidth / zoom` wide leaves the same margin, the offset, on its left and on its right |
| Zoom.CenterOffsetY | src/core/zoom.ts:61-63 | the window `inputHeight / zoom` high leaves the same margin, the offset, above and below |
| Zoom.CenteredWindowInside | src/core/zoom.ts:48-63 | from zoom 1 on, the offset is non-negative and the centred window ends inside the image, on both axes |
| Zoom.CenterOffsetClosedForm | src/core/zoom.ts:52-63 | the centring offset `w/2 - w/zoom/2` equals `w(zoom-1)/(2 zoom)`, and the Y formula equals the X formula |
| Zoom.CenterOffsetExamples | src/core/zoom.ts:52-63 | the offset is 0 at zoom 1, a quarter of the size at zoom 2, and a sixth at zoom 1.5 |
| Zoom.CenterOffsetMonotone | src/core/zoom.ts:52-63 | for a non-negative size the centring offset grows with the zoom level, on the X and the Y axis |
| Zoom.FlooredOffsetX | src/core/zoom.ts:69-71 | the result is the greatest integer not above the centring offset |
| Zoom.FlooredOffsetY | src/core/zoom.ts:77-79 | the result is the greatest integer not above the vertical centring offset |
| Zoom.FlooredOffsetMonotone | src/core/zoom.ts:69-79 | the floored offset never decreases as the zoom grows, on the X and the Y axis |
| Zoom.FlooredOffsetExamples | src/core/zoom.ts:69-71 | at zoom 1.5 a 1920 width floors to 320 and a 1000 width to 166 |
| Zoom.FinalOffset | src/core/zoom.ts:85-87 | the final offset is the centring offset at the final zoom, and the X and Y formulas give the same value |
| Zoom.ConstantJumpSize | src/core/zoom.ts:85-95 | the jump is an integer within half a pixel of the final offset divided by the frame count (round half up) |
| Zoom.LinearOffsetX | src/core/zoom.ts:127-135 | computes the constant jump times the frame; its law is `LinearOffsetSteps` |
| Zoom.LinearOffsetY | src/core/zoom.ts:140-148 | computes the same on the vertical axis; `LinearOffsetSteps` shows it agrees with the X formula |
| Zoom.LinearOffsetSteps | src/core/zoom.ts:127-148 | the linear offset is 0 at frame 0 and advances by exactly the constant jump per frame, equally on both axes |
| Zoom.AdjustedFinalZoom | src/core/zoom.ts:101-106 | computes `inputSize / (inputSize - 2 * jumpSize * totalFrames)`; its partners are `AdjustedFinalZoomInverse` and `AdjustedFinalZoomOfOffset` |
| Zoom.AdjustedZoomRate | src/core/zoom.ts:112-116 | computes the additive rate for the adjusted zoom; its partner is `AdjustedZoomRateReachesAdjustedZoom` |
| Zoom.AdjustedFinalZoomInverse | src/core/zoom.ts:101-106 | at the adjusted zoom, the centring offset is exactly `jumpSize * totalFrames` |
| Zoom.AdjustedFinalZoomOfOffset | src/core/zoom.ts:97-106 | resynchronising to the centring offset of a zoom over one frame gives that zoom back |
| Zoom.AdjustedZoomRateReachesAdjustedZoom | src/core/zoom.ts:112-116 | applying the adjusted rate additively for all frames reaches the adjusted final zoom |
| Zoom.IsNearInteger | src/core/zoom.ts:153-155 | tests `Math.abs(value - Math.round(value)) < tolerance`; its laws are `IntegersAreNearInteger` and `FarFromIntegerIsFlagged` |
| Zoom.IntegersAreNearInteger | src/core/zoom.ts:153-155 | every integer is near an integer for any positive tolerance |
| Zoom.IsNearIntegerExamples | src/core/zoom.ts:153-155 | 5.0001 and 4.9999 are near an integer at 0.001; 5.5 and 5.01 are not |
| Zoom.FarFromIntegerIsFlagged | src/core/zoom.ts:153-155 | a value whose nearest integer is at least the tolerance away is not near an integer |
| Zoom.WarningText | src/core/zoom.ts:168-205 | renders a warning as the source's message template; `WarningTextUpscaled` tells the two kinds apart by their text |
| Zoom.WarningTextUpscaled | src/core/zoom.ts:168-205 | exactly the dimension warnings have messages that start with "Upscaled", and exactly they contain "Upscaled" anywhere (`Text.Contains`, the `includes` test); a direction-change message has no capital U |
| Zoom.FrameJumpsConstant | src/core/zoom.ts:176-189 | every per-frame position change collected by the frame loop equals the constant jump |
| Zoom.ConstantJumpsHaveNoDirectionWarnings | src/core/zoom.ts:191-206 | a sequence of equal jumps never triggers a direction-change warning |
| Zoom.JitterWarningsAreDimensionWarnings | src/core/zoom.ts:162-209 | the analyser's full report consists only of the warnings for non-integer upscaled dimensions |
| Zoom.DirectionChangeWarnings | src/core/zoom.ts:191-206 | the scan over consecutive triples reports, in order, exactly the triples that rise then fall or fall then rise, numbered `i + 1` |
| Zoom.AnalyzeZoomForJitter | src/core/zoom.ts:162-209 | the method returns exactly the specified report: at most two warnings, never a direction change, and the width (height) warning if and only if the upscaled width (height) is not within 0.001 of an integer |
| Zoom.DefaultDimensionWarnings | src/core/zoom.ts:168-174 | the default zoom's upscaled 2640x1485 is integral, so neither dimension is flagged |
| Zoom.DefaultSettingsHaveNoWarnings | src/core/zoom.ts:162-174 | zoom 1.005 at 25 fps for 3 s on 1920x1080 raises no warning |
| Zoom.SlowZoomDimensions | src/core/zoom.ts:28-46 | zoom 1.003 at 30 fps for 3 s ends at 1.27 on a 2438.4x1371.6 image |
| Zoom.SlowZoomDimensionWarnings | src/core/zoom.ts:168-174 | both 2438.4 and 1371.6 are flagged, width first |
| Zoom.SlowZoomFlagsDimensions | src/core/zoom.ts:162-209 | the analyser reports exactly the width and height warnings for zoom 1.003 at 30 fps for 3 s |
| JsNumber.Floor | src/core/zoom.ts:69-71 | `Math.floor` gives an integer `r` with `r <= x < r + 1` |
| JsNumber.RoundsToUnique | src/core/zoom.ts:92-95 | at most one integer lies in `(x - 0.5, x + 0.5]` |
| JsNumber.Round | src/core/zoom.ts:92-95 | `Math.round` gives the integer in `(x - 0.5, x + 0.5]`, so halves round up |
| JsNumber.RoundIs | src/core/zoom.ts:92-95 | any integer within `(x - 0.5, x + 0.5]` is `Math.round(x)` |
| JsNumber.RoundMonotone | src/core/zoom.ts:92-95 | rounding preserves order |
| JsNumber.RoundIntegral | src/core/zoom.ts:153-155 | an integer rounds to itself |
| JsNumber.IntToString | src/core/zoom.ts:196 | an integer renders as a non-empty run of digits and minus signs; `ParseIntToString` reads it back |
| JsNumber.NumberToString | src/core/ffmpeg-filters.ts:61 | a number renders as digits, minus signs and a decimal point only; `NumberToStringIntegral` gives the exact text of integer values |
| JsNumber.ParseIntToString | src/core/ffmpeg-filters.ts:60-62 | reading back the decimal rendering of an integer gives that integer |
| JsNumber.NumberToStringIntegral | src/core/ffmpeg-filters.ts:60-62 | an integer-valued number renders as its decimal digits with an optional minus sign and reads back as itself |
| FfmpegFilters.IdealJump | src/core/ffmpeg-filters.ts:35-39 | each per-axis jump of the derivation is an integer |
| FfmpegFilters.CalculateZoompanParams | src/core/ffmpeg-filters.ts:28-55 | the duration is the frame count, fps and size are copied from the settings, and both jumps are integers |
| FfmpegFilters.BuildZoompanFilter | src/core/ffmpeg-filters.ts:60-62 | renders the zoompan template; its partner is the reader, with `ParseBuildZoompan` |
| FfmpegFilters.ZoompanFilterFromSettings | src/core/ffmpeg-filters.ts:67-70 | the zoompan text of the derived parameters; its partner is `ZoompanFilterFromSettingsReadsBack` |
| FfmpegFilters.BuildScaleFilter | src/core/ffmpeg-filters.ts:76-78 | renders the scale template; its partner is `ParseBuildScale` |
| FfmpegFilters.BuildBlurFilter | src/core/ffmpeg-filters.ts:84-86 | renders the box blur template; its partner is `ParseBuildBlur` |
| FfmpegFilters.BuildOverlayFilter | src/core/ffmpeg-filters.ts:93-95 | renders the overlay-and-crop template; its partner is `ParseBuildOverlay` |
| FfmpegFilters.IdealJumpIsConstantJump | src/core/ffmpeg-filters.ts:35-39 | the inline ideal-offset formula gives the same jump as `constantJumpSize` |
| FfmpegFilters.ZoompanJumpsAreConstantJumps | src/core/ffmpeg-filters.ts:28-39 | the derived jumps are the constant jump sizes of the upscaled width and height |
| FfmpegFilters.IdealJumpClosedForm | src/core/ffmpeg-filters.ts:35-39 | after upscaling by the final zoom, the ideal jump equals `round(size * (zoomRate - 1) / 2)` |
| FfmpegFilters.JumpXIgnoresDuration | src/core/ffmpeg-filters.ts:33-38 | the horizontal jump equals `round(targetWidth * (zoomRate - 1) / 2)`, independent of frame rate and duration |
| FfmpegFilters.JumpYIgnoresDuration | src/core/ffmpeg-filters.ts:33-39 | the vertical jump equals `round(targetHeight * (zoomRate - 1) / 2)`, independent of frame rate and duration |
| FfmpegFilters.ResyncDenominatorNeedsWidth | src/core/ffmpeg-filters.ts:41-43 | the resynchronising denominator can be non-zero only for a non-zero upscaled width |
| FfmpegFilters.ResyncReachesOffset | src/core/ffmpeg-filters.ts:41-43 | on one axis, the additive step reaches the adjusted zoom after all frames, and there the centring offset is jump times frames |
| FfmpegFilters.ZoomIncrementResynchronises | src/core/ffmpeg-filters.ts:41-44 | `1 + zoomIncrement * frames` is the adjusted zoom, at which the horizontal centring offset is exactly `jumpX * frames` |
| FfmpegFilters.ResyncStepPositive | src/core/ffmpeg-filters.ts:41-43 | a positive jump whose total pan stays inside the image gives a positive zoom step |
| FfmpegFilters.ZoomIncrementPositive | src/core/ffmpeg-filters.ts:28-55 | with a positive horizontal jump whose total pan stays inside the image, the zoom increment is positive |
| FfmpegFilters.HalfGrowthNonNegative | src/core/ffmpeg-filters.ts:35-39 | half the growth of a non-negative size under a zooming-in rate rounds to a non-negative jump |
| FfmpegFilters.JumpsNonNegative | src/core/ffmpeg-filters.ts:28-55 | zooming in on a non-negative target never gives a negative jump |
| FfmpegFilters.HalfGrowthMonotone | src/core/ffmpeg-filters.ts:35-39 | the rounded half growth never shrinks as the size or the rate grows |
| FfmpegFilters.JumpsMonotone | src/core/ffmpeg-filters.ts:28-55 | jumps never shrink when the target grows or the zoom rate rises |
| FfmpegFilters.StretchedDurationFrames | src/core/ffmpeg-filters.ts:29 | stretching the duration by `k` stretches the frame count by `k` |
| FfmpegFilters.StretchingDurationKeepsJumps | src/core/ffmpeg-filters.ts:28-55 | stretching the duration by any factor stretches the frame count by that factor and leaves both jumps unchanged |
| FfmpegFilters.ResyncDenominatorBound | src/core/ffmpeg-filters.ts:35-42 | the resynchronising denominator is at least the target width minus the frame count |
| FfmpegFilters.ZoompanDefinedForWideTargets | src/core/ffmpeg-filters.ts:28-55 | zooming in over a positive frame count on a target wider than that count leaves every division of the derivation defined |
| FfmpegFilters.JumpsAreNearestIntegers | src/core/ffmpeg-filters.ts:28-55 | under the same conditions, the jumps are the integers nearest to half the target size times the per-frame growth |
| FfmpegFilters.ZoompanExampleHD | src/core/ffmpeg-filters.ts:28-55 | 1920x1080 at zoom 1.005, 25 fps, 3 s: 75 frames, jumps 5 and 3, positive zoom step |
| FfmpegFilters.EmittedZoomOvershootsHD | src/core/ffmpeg-filters.ts:36-44 | for the HD settings the emitted zoom `1 + zoomIncrement * frames` is 2640/1890, past the final zoom, so the last window (1890 pixels) is narrower than the 1920-pixel target; the vertical pan 225 misses the centring offset 210.9375 |
| FfmpegFilters.ZoompanExampleSD | src/core/ffmpeg-filters.ts:28-55 | 1280x720 at zoom 1.005, 25 fps, 3 s: 75 frames, jumps 3 and 2 |
| FfmpegFilters.ZoompanExample4K | src/core/ffmpeg-filters.ts:28-55 | 3840x2160 at zoom 1.005 gives jumps 10 and 5 |
| FfmpegFilters.ZoompanExampleFastZoom | src/core/ffmpeg-filters.ts:28-55 | zoom 1.01 on 1920x1080 gives jumps 10 and 5 |
| FfmpegFilters.ZoompanExample60Fps | src/core/ffmpeg-filters.ts:28-55 | 60 fps for 3 s gives 180 frames with the same jumps as 25 fps |
| FfmpegFilters.ZoompanExampleLongDuration | src/core/ffmpeg-filters.ts:28-55 | 6 s at 25 fps gives 150 frames with the same jumps as 3 s |
| FilterSyntax.ParseBuildZoompan | src/core/ffmpeg-filters.ts:60-62 | the zoompan text reads back as the rendered zoom step and every integer-valued field |
| FilterSyntax.ZoompanZoomIsAdditive | src/core/ffmpeg-filters.ts:60-62 | the text starts with the additive `z='zoom+<step>'` field and never with the hyperbolic `z='iw/(` form |
| FilterSyntax.ZoompanFilterDeterminesParams | src/core/ffmpeg-filters.ts:60-62 | two zoompan texts with integer-valued fields are equal only if those fields and the rendered zoom steps are equal |
| FilterSyntax.ZoompanFilterFromSettingsReadsBack | src/core/ffmpeg-filters.ts:67-70 | the text built from settings reads back as the rounded half-growth jumps, the frame count, the frame rate and the target size |
| FilterSyntax.ZoompanFilterExampleHD | src/core/ffmpeg-filters.ts:67-70 | the default HD settings read back as jumps 5 and 3, d=75, fps=25, s=1920x1080 |
| FilterSyntax.ParseBuildScale | src/core/ffmpeg-filters.ts:76-78 | the scale text reads back as its integer width and height, -1 included |
| FilterSyntax.ScaleFilterExample | src/core/ffmpeg-filters.ts:76-78 | width 1920 and height -1 give `scale=1920:-1` |
| FilterSyntax.ParseBuildBlur | src/core/ffmpeg-filters.ts:84-86 | the box blur text reads back as its argument verbatim |
| FilterSyntax.BlurFilterExample | src/core/ffmpeg-filters.ts:84-86 | blur "50:10" gives `boxblur=50:10` |
| FilterSyntax.ParseBuildOverlay | src/core/ffmpeg-filters.ts:93-95 | the overlay text reads back as its integer width and height, and both width occurrences agree |
| FilterSyntax.OverlayFilterExample | src/core/ffmpeg-filters.ts:93-95 | the 1920x1080 overlay text reads back as 1920 and 1080 |
| Settings.Merge | src/core/settings.ts:101-108 | every given field is kept, and every missing field takes its default |
| Settings.MergeUnique | src/core/settings.ts:104-107 | the merge is the only record that keeps the given fields and takes defaults elsewhere |
| Settings.MergeNothing | src/core/settings.ts:104-107 | merging nothing gives the defaults |
| Settings.MergeComplete | src/core/settings.ts:104-107 | merging a complete record gives that record, whatever the defaults |
| Settings.MergeIdempotent | src/core/settings.ts:101-108 | feeding a merged record back in changes nothing |
| Settings.MergeTwice | src/core/settings.ts:104-107 | spreading the same fields again over a merged record changes nothing |
| CoreSettings.PopulateDefaults | src/core/settings.ts:101-108 | given fields are kept, and missing fields take the core defaults |
| CoreSettings.PopulateDefaultsOfNothing | src/core/settings.ts:17-25 | an empty record gives the core defaults, height 1080 among them |
| CoreSettings.PopulateDefaultsKeepsHeight | src/core/settings.ts:101-108 | a given height of 77 is kept and every other field is the default |
| CoreSettings.PopulateDefaultsIdempotent | src/core/settings.ts:101-108 | a complete record is returned unchanged, and completing twice is completing once |
| CoreSettings.DefaultZoompanParams | src/core/settings.ts:17-25 | the core default zoom settings give 75 frames and one-pixel jumps on both axes |
| LegacySettings.GetSettings | src/settings.ts:23-30 | given fields are kept, and missing fields take the shell's defaults |
| LegacySettings.GetSettingsOfNothing | src/settings.ts:13-21 | an empty record gives the shell's defaults: height 1080, no logging |
| LegacySettings.GetSettingsKeepsHeight | src/settings.ts:23-30 | a given height of 77 is kept and every other field is the default |
| LegacySettings.GetSettingsIdempotent | src/settings.ts:23-30 | completing a completed record changes nothing |

## Left out

- JavaScript numbers are modelled as exact reals. IEEE-754 rounding, `NaN`, `Infinity` and the number range are not modelled.
- Division by zero is not modelled. In the source it yields `Infinity` or `NaN`. The model requires a non-zero divisor instead.
- Zoom.CenterOffsetX: requires a non-zero zoom, because the source's `Infinity`/`NaN` result at zoom 0 is not modelled. The same holds for CenterOffsetY, FlooredOffsetX/Y, FinalOffset, ConstantJumpSize, LinearOffsetX/Y, AdjustedFinalZoom and AdjustedZoomRate. Each requires its own divisors to be non-zero.
- Zoom.AnalyzeZoomForJitter: requires a positive frame count and a non-zero final zoom. With a frame count of 0 the source loops zero times and divides by zero inside `constantJumpSize`. A frame count between 0 and 1 is accepted, and the frame loop then runs zero times, as in the source.
- FfmpegFilters.CalculateZoompanParams: requires `ZoompanDefined`: a positive frame count, a non-zero final zoom and a non-zero resynchronising denominator. `ZoompanDefinedForWideTargets` shows that every zooming-in setting on a target wider than its frame count meets it.
- The emitted zoom overshoot is exhibited, not excluded. The zoom step follows the horizontal jump, so the emitted zoom can end past the final zoom, and the last window can then be narrower than the target (`EmittedZoomOvershootsHD`). The vertical pan `jumpY` is not resynchronised with that zoom. The model states this as the code does it and proves `UpscaledCoversTarget` only on the nominal curve.
- JsNumber.NumberToString: renders integer-valued numbers exactly as JavaScript does. Other values are rendered as their decimal expansion cut after 17 fraction digits, not as JavaScript's shortest round-trip form. Exponent notation for magnitudes of 1e21 and above is not modelled. So the round-trip lemmas cover the integer-valued fields. For the zoom step they state only that its rendered text is recovered.
- The hyperbolic zoom expression expected by the tests of `buildZoompanFilter` is not what the code emits. The model follows the code.
- The floored-offset direction test of the test suite is not modelled. Only the floored offset's monotonicity is proved.
- The DOM reading and writing of settings (src/core/settings.ts:27-99) is not modelled. This includes `Number()` parsing of input text and `setDefaultSettingsInUI`. It is UI code.
- A field explicitly set to `undefined` in a partial record is not modelled. A missing field is `None`.
- The FFmpeg invocation, file handling and the UI (src/core/syncotrope.ts, src/core/processor.ts, src/ui/) are not part of this model.
