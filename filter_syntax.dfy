/**
 * Readers for the filter expressions built in FfmpegFilters. Each reader
 * takes a rendered expression apart at its literal text and delimiters;
 * the round-trip lemmas show that a builder's output determines the
 * values it was built from, so no two parameter sets render alike.
 */
module FilterSyntax {
  import opened Optional
  import opened JsNumber
  import opened Text
  import opened Zoom
  import opened FfmpegFilters

  /** The fields of a zoompan expression: the zoom step as text, the rest as integers. */
  datatype ZoompanFields = ZoompanFields(
    zoomIncrementText: string,
    jumpX: int,
    jumpY: int,
    duration: int,
    fps: int,
    width: int,
    height: int)

  /** Drops the literal `prefix`, then splits the rest at the first `stop`. */
  function ReadField(s: string, prefix: string, stop: char): (r: Option<(string, string)>)
    ensures r.Some? ==> s == prefix + r.value.0 + [stop] + r.value.1 && stop !in r.value.0
  {
    var rest :- StripPrefix(s, prefix);
    SplitAt(rest, stop)
  }

  function ParseZoompanFilter(s: string): Option<ZoompanFields> {
    var zoom :- ReadField(s, "zoompan=z='zoom+", '\'');
    var x :- ReadField(zoom.1, ":x='", '*');
    var y :- ReadField(x.1, "on':y='", '*');
    var d :- ReadField(y.1, "on':d=", ':');
    var fps :- ReadField(d.1, "fps=", ':');
    var size :- ReadField(fps.1, "s=", 'x');
    var jumpX :- ParseInt(x.0);
    var jumpY :- ParseInt(y.0);
    var duration :- ParseInt(d.0);
    var frameRate :- ParseInt(fps.0);
    var width :- ParseInt(size.0);
    var height :- ParseInt(size.1);
    Some(ZoompanFields(zoom.0, jumpX, jumpY, duration, frameRate, width, height))
  }

  /** The width and height of a scale expression. */
  function ParseScaleFilter(s: string): Option<(int, int)> {
    var split :- ReadField(s, "scale=", ':');
    var width :- ParseInt(split.0);
    var height :- ParseInt(split.1);
    Some((width, height))
  }

  /** The "radius:power" argument of a box blur expression. */
  function ParseBlurFilter(s: string): Option<string> {
    StripPrefix(s, "boxblur=")
  }

  /**
   * The width and height of an overlay-and-crop expression; the width
   * appears twice (centring and crop) and both occurrences must agree.
   */
  function ParseOverlayFilter(s: string): Option<(int, int)> {
    var centre :- ReadField(s, "[0:v][1:v]overlay=(", '/');
    var crop :- ReadField(centre.1, "2)-(overlay_w/2):0,crop=", ':');
    var size :- SplitAt(crop.1, ':');
    var centreWidth :- ParseInt(centre.0);
    var width :- ParseInt(crop.0);
    var height :- ParseInt(size.0);
    if size.1 == "0:0[outv]" && centreWidth == width then Some((width, height)) else None
  }

  // ---------------------------------------------------------------------
  // Round trips

  /** A rendered number holds only digits, '-' and '.', so none of the delimiters. */
  lemma DelimiterNotInNumber(x: real, c: char)
    requires !IsDigit(c) && c != '-' && c != '.'
    ensures c !in NumberToString(x)
  {
  }

  /** Splitting `before + [stop] + after` at `stop`, where `before` is a rendered number. */
  lemma SplitAfterNumber(x: real, stop: char, after: string)
    requires !IsDigit(stop) && stop != '-' && stop != '.'
    ensures SplitAt(NumberToString(x) + [stop] + after, stop) == Some((NumberToString(x), after))
  {
    DelimiterNotInNumber(x, stop);
    SplitAtConcat(NumberToString(x), stop, after);
  }

  /** Reading a rendered number between `prefix` and `stop` gives back its text and what follows. */
  lemma ReadFieldConcat(prefix: string, x: real, stop: char, rest: string)
    requires !IsDigit(stop) && stop != '-' && stop != '.'
    ensures ReadField(prefix + (NumberToString(x) + [stop] + rest), prefix, stop)
            == Some((NumberToString(x), rest))
  {
    StripPrefixConcat(prefix, NumberToString(x) + [stop] + rest);
    SplitAfterNumber(x, stop, rest);
  }

  /** The zoompan expression's text, re-associated field by field. */
  lemma ZoompanTextShape(z: string, x: string, y: string, d: string, fps: string, w: string, h: string)
    ensures "zoompan=z='zoom+" + z + "':x='" + x + "*on':y='" + y + "*on':d=" + d + ":fps=" + fps
            + ":s=" + w + "x" + h
            == "zoompan=z='zoom+" + (z + ['\''] + (":x='" + (x + ['*'] + ("on':y='" + (y + ['*']
               + ("on':d=" + (d + [':'] + ("fps=" + (fps + [':'] + ("s=" + (w + ['x'] + h)))))))))))
  {
  }

  /**
   * Reading back a zoompan expression recovers the zoom step's text and
   * every integer-valued field.
   */
  lemma ParseBuildZoompan(p: ZoompanParams)
    requires IsIntegral(p.jumpX) && IsIntegral(p.jumpY) && IsIntegral(p.duration)
    requires IsIntegral(p.fps) && IsIntegral(p.width) && IsIntegral(p.height)
    ensures ParseZoompanFilter(BuildZoompanFilter(p)).Some?
    ensures var f := ParseZoompanFilter(BuildZoompanFilter(p)).value;
            && f.zoomIncrementText == NumberToString(p.zoomIncrement)
            && f.jumpX as real == p.jumpX && f.jumpY as real == p.jumpY
            && f.duration as real == p.duration && f.fps as real == p.fps
            && f.width as real == p.width && f.height as real == p.height
  {
    var h := NumberToString(p.height);
    var r5 := NumberToString(p.width) + ['x'] + h;
    var r4 := NumberToString(p.fps) + [':'] + ("s=" + r5);
    var r3 := NumberToString(p.duration) + [':'] + ("fps=" + r4);
    var r2 := NumberToString(p.jumpY) + ['*'] + ("on':d=" + r3);
    var r1 := NumberToString(p.jumpX) + ['*'] + ("on':y='" + r2);
    ZoompanTextShape(NumberToString(p.zoomIncrement), NumberToString(p.jumpX), NumberToString(p.jumpY),
                     NumberToString(p.duration), NumberToString(p.fps), NumberToString(p.width), h);
    ReadFieldConcat("zoompan=z='zoom+", p.zoomIncrement, '\'', ":x='" + r1);
    ReadFieldConcat(":x='", p.jumpX, '*', "on':y='" + r2);
    ReadFieldConcat("on':y='", p.jumpY, '*', "on':d=" + r3);
    ReadFieldConcat("on':d=", p.duration, ':', "fps=" + r4);
    ReadFieldConcat("fps=", p.fps, ':', "s=" + r5);
    ReadFieldConcat("s=", p.width, 'x', h);
    NumberToStringIntegral(p.jumpX);
    NumberToStringIntegral(p.jumpY);
    NumberToStringIntegral(p.duration);
    NumberToStringIntegral(p.fps);
    NumberToStringIntegral(p.width);
    NumberToStringIntegral(p.height);
    IntegralIsFloor(p.jumpX);
    IntegralIsFloor(p.jumpY);
    IntegralIsFloor(p.duration);
    IntegralIsFloor(p.fps);
    IntegralIsFloor(p.width);
    IntegralIsFloor(p.height);
  }

  /** A zoompan text starts with the additive zoom field, whatever its other fields. */
  lemma ZoompanTextAdditive(z: string, x: string, y: string, d: string, fps: string, w: string, h: string)
    ensures var text := "zoompan=z='zoom+" + z + "':x='" + x + "*on':y='" + y + "*on':d=" + d + ":fps=" + fps
                        + ":s=" + w + "x" + h;
            && "zoompan=z='zoom+" + z + "'" <= text
            && !("zoompan=z='iw/(" <= text)
  {
    var head := "zoompan=z='zoom+";
    var rest := ":x='" + (x + ['*'] + ("on':y='" + (y + ['*']
                + ("on':d=" + (d + [':'] + ("fps=" + (fps + [':'] + ("s=" + (w + ['x'] + h)))))))));
    ZoompanTextShape(z, x, y, d, fps, w, h);
    assert head + (z + ['\''] + rest) == (head + z + "'") + rest;
    assert (head + (z + ['\''] + rest))[11] == 'z';
  }

  /**
   * The zoom expression the builder emits is the additive `zoom+<step>`,
   * closed by its quote; it is never the hyperbolic `iw/(...)` form.
   */
  lemma ZoompanZoomIsAdditive(p: ZoompanParams)
    ensures "zoompan=z='zoom+" + NumberToString(p.zoomIncrement) + "'" <= BuildZoompanFilter(p)
    ensures !("zoompan=z='iw/(" <= BuildZoompanFilter(p))
  {
    ZoompanTextAdditive(NumberToString(p.zoomIncrement), NumberToString(p.jumpX), NumberToString(p.jumpY),
                        NumberToString(p.duration), NumberToString(p.fps), NumberToString(p.width),
                        NumberToString(p.height));
  }

  lemma ScaleTextShape(w: string, h: string)
    ensures "scale=" + w + ":" + h == "scale=" + (w + [':'] + h)
  {
  }

  /** Reading back a scale expression recovers integer-valued sizes, including -1. */
  lemma ParseBuildScale(width: real, height: real)
    requires IsIntegral(width) && IsIntegral(height)
    ensures ParseScaleFilter(BuildScaleFilter(width, height)).Some?
    ensures var r := ParseScaleFilter(BuildScaleFilter(width, height)).value;
            r.0 as real == width && r.1 as real == height
  {
    var h := NumberToString(height);
    ScaleTextShape(NumberToString(width), h);
    ReadFieldConcat("scale=", width, ':', h);
    NumberToStringIntegral(width);
    NumberToStringIntegral(height);
    IntegralIsFloor(width);
    IntegralIsFloor(height);
  }

  /** Reading back a blur expression recovers its argument verbatim. */
  lemma ParseBuildBlur(blur: string)
    ensures ParseBlurFilter(BuildBlurFilter(blur)) == Some(blur)
  {
    StripPrefixConcat("boxblur=", blur);
  }

  /** The overlay expression's text, re-associated field by field. */
  lemma OverlayTextShape(w: string, h: string)
    ensures "[0:v][1:v]overlay=(" + w + "/2)-(overlay_w/2):0,crop=" + w + ":" + h + ":0:0[outv]"
            == "[0:v][1:v]overlay=(" + (w + ['/'] + ("2)-(overlay_w/2):0,crop=" + (w + [':'] + (h + [':'] + "0:0[outv]"))))
  {
  }

  /** Reading back an overlay expression recovers integer-valued sizes. */
  lemma ParseBuildOverlay(targetWidth: real, targetHeight: real)
    requires IsIntegral(targetWidth) && IsIntegral(targetHeight)
    ensures ParseOverlayFilter(BuildOverlayFilter(targetWidth, targetHeight)).Some?
    ensures var r := ParseOverlayFilter(BuildOverlayFilter(targetWidth, targetHeight)).value;
            r.0 as real == targetWidth && r.1 as real == targetHeight
  {
    var w, h := NumberToString(targetWidth), NumberToString(targetHeight);
    var r1 := w + [':'] + (h + [':'] + "0:0[outv]");
    OverlayTextShape(w, h);
    ReadFieldConcat("[0:v][1:v]overlay=(", targetWidth, '/', "2)-(overlay_w/2):0,crop=" + r1);
    ReadFieldConcat("2)-(overlay_w/2):0,crop=", targetWidth, ':', h + [':'] + "0:0[outv]");
    SplitAfterNumber(targetHeight, ':', "0:0[outv]");
    NumberToStringIntegral(targetWidth);
    NumberToStringIntegral(targetHeight);
    IntegralIsFloor(targetWidth);
    IntegralIsFloor(targetHeight);
  }

  /** Two zoompan expressions with integer-valued fields are equal only when those fields are. */
  lemma ZoompanFilterDeterminesParams(p: ZoompanParams, q: ZoompanParams)
    requires IsIntegral(p.jumpX) && IsIntegral(p.jumpY) && IsIntegral(p.duration)
    requires IsIntegral(p.fps) && IsIntegral(p.width) && IsIntegral(p.height)
    requires IsIntegral(q.jumpX) && IsIntegral(q.jumpY) && IsIntegral(q.duration)
    requires IsIntegral(q.fps) && IsIntegral(q.width) && IsIntegral(q.height)
    requires BuildZoompanFilter(p) == BuildZoompanFilter(q)
    ensures NumberToString(p.zoomIncrement) == NumberToString(q.zoomIncrement)
    ensures p.jumpX == q.jumpX && p.jumpY == q.jumpY && p.duration == q.duration
    ensures p.fps == q.fps && p.width == q.width && p.height == q.height
  {
    ParseBuildZoompan(p);
    ParseBuildZoompan(q);
  }

  /**
   * The zoompan expression derived from settings with a whole frame count,
   * frame rate and size reads back as the nearest-integer jumps, the frame
   * count, the frame rate and the target size.
   */
  lemma ZoompanFilterFromSettingsReadsBack(settings: ZoomSettings)
    requires ZoompanDefined(settings)
    requires IsIntegral(TotalFrames(settings)) && IsIntegral(settings.frameRate)
    requires IsIntegral(settings.targetWidth) && IsIntegral(settings.targetHeight)
    ensures ParseZoompanFilter(ZoompanFilterFromSettings(settings)).Some?
    ensures var f := ParseZoompanFilter(ZoompanFilterFromSettings(settings)).value;
            && f.jumpX as real == Round(HalfGrowth(settings.targetWidth, settings.zoomRate))
            && f.jumpY as real == Round(HalfGrowth(settings.targetHeight, settings.zoomRate))
            && f.duration as real == TotalFrames(settings) && f.fps as real == settings.frameRate
            && f.width as real == settings.targetWidth && f.height as real == settings.targetHeight
  {
    ParseBuildZoompan(CalculateZoompanParams(settings));
    JumpXIgnoresDuration(settings);
    JumpYIgnoresDuration(settings);
  }

  /** The 1920x1080 expression at zoom 1.005, 25 frames per second for 3 seconds reads back as 5, 3, 75 and 25. */
  lemma ZoompanFilterExampleHD()
    ensures ParseZoompanFilter(ZoompanFilterFromSettings(HD)).Some?
    ensures var f := ParseZoompanFilter(ZoompanFilterFromSettings(HD)).value;
            f.jumpX == 5 && f.jumpY == 3 && f.duration == 75 && f.fps == 25 && f.width == 1920 && f.height == 1080
  {
    ZoompanExampleHD();
    IntIsIntegral(75);
    IntIsIntegral(25);
    IntIsIntegral(1920);
    IntIsIntegral(1080);
    ParseBuildZoompan(CalculateZoompanParams(HD));
  }

  lemma RenderExamples()
    ensures NumberToString(1920.0) == "1920" && NumberToString(1080.0) == "1080"
    ensures NumberToString(-1.0) == "-1"
  {
    IntIsIntegral(1920);
    IntIsIntegral(-1);
    IntIsIntegral(1080);
    NumberToStringIntegral(1920.0);
    NumberToStringIntegral(-1.0);
    NumberToStringIntegral(1080.0);
    assert NatToString(19) == "19";
    assert NatToString(192) == "192";
    assert NatToString(108) == "108";
  }

  /** Scaling to 1920 wide keeps the aspect ratio with a height of -1. */
  lemma ScaleFilterExample()
    ensures BuildScaleFilter(1920.0, -1.0) == "scale=1920:-1"
  {
    RenderExamples();
  }

  lemma BlurFilterExample()
    ensures BuildBlurFilter("50:10") == "boxblur=50:10"
  {
  }

  /** The overlay expression for 1920x1080 reads back as 1920 and 1080. */
  lemma OverlayFilterExample()
    ensures ParseOverlayFilter(BuildOverlayFilter(1920.0, 1080.0)) == Some((1920, 1080))
  {
    IntIsIntegral(1920);
    IntIsIntegral(1080);
    ParseBuildOverlay(1920.0, 1080.0);
  }
}
