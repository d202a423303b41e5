/**
 * The application settings record and the merge that fills in the fields
 * a caller left out from a record of defaults, as an object spread of the
 * given fields over the defaults does.
 */
module Settings {
  import opened Optional
  import Zoom

  datatype LoggingFlag = Ffmpeg | FileTransfer | Debug

  /** A complete settings record. */
  datatype SyncotropeSettings = SyncotropeSettings(
    targetHeight: real,
    targetWidth: real,
    targetBlur: string,
    zoomRate: real,
    frameRate: real,
    imageDurationSeconds: real,
    logging: seq<LoggingFlag>)

  /** A settings record in which any field may be missing. */
  datatype PartialSettings = PartialSettings(
    targetHeight: Option<real>,
    targetWidth: Option<real>,
    targetBlur: Option<string>,
    zoomRate: Option<real>,
    frameRate: Option<real>,
    imageDurationSeconds: Option<real>,
    logging: Option<seq<LoggingFlag>>)

  const NoSettings: PartialSettings := PartialSettings(None, None, None, None, None, None, None)

  /** Every field of `settings`, given. */
  function AllGiven(settings: SyncotropeSettings): (r: PartialSettings)
    ensures r.targetHeight == Some(settings.targetHeight) && r.targetWidth == Some(settings.targetWidth)
    ensures r.targetBlur == Some(settings.targetBlur) && r.zoomRate == Some(settings.zoomRate)
    ensures r.frameRate == Some(settings.frameRate)
    ensures r.imageDurationSeconds == Some(settings.imageDurationSeconds)
    ensures r.logging == Some(settings.logging)
  {
    PartialSettings(Some(settings.targetHeight), Some(settings.targetWidth), Some(settings.targetBlur),
                    Some(settings.zoomRate), Some(settings.frameRate), Some(settings.imageDurationSeconds),
                    Some(settings.logging))
  }

  /** Whether `settings` agrees with `given` on every field `given` has. */
  predicate Extends(settings: SyncotropeSettings, given: PartialSettings) {
    && (given.targetHeight.Some? ==> settings.targetHeight == given.targetHeight.value)
    && (given.targetWidth.Some? ==> settings.targetWidth == given.targetWidth.value)
    && (given.targetBlur.Some? ==> settings.targetBlur == given.targetBlur.value)
    && (given.zoomRate.Some? ==> settings.zoomRate == given.zoomRate.value)
    && (given.frameRate.Some? ==> settings.frameRate == given.frameRate.value)
    && (given.imageDurationSeconds.Some? ==> settings.imageDurationSeconds == given.imageDurationSeconds.value)
    && (given.logging.Some? ==> settings.logging == given.logging.value)
  }

  /** Whether `settings` agrees with `defaults` on every field `given` lacks. */
  predicate DefaultsElsewhere(settings: SyncotropeSettings, defaults: SyncotropeSettings, given: PartialSettings) {
    && (given.targetHeight.None? ==> settings.targetHeight == defaults.targetHeight)
    && (given.targetWidth.None? ==> settings.targetWidth == defaults.targetWidth)
    && (given.targetBlur.None? ==> settings.targetBlur == defaults.targetBlur)
    && (given.zoomRate.None? ==> settings.zoomRate == defaults.zoomRate)
    && (given.frameRate.None? ==> settings.frameRate == defaults.frameRate)
    && (given.imageDurationSeconds.None? ==> settings.imageDurationSeconds == defaults.imageDurationSeconds)
    && (given.logging.None? ==> settings.logging == defaults.logging)
  }

  /** The given fields spread over the defaults: given fields win, missing ones come from `defaults`. */
  function Merge(defaults: SyncotropeSettings, given: PartialSettings): (r: SyncotropeSettings)
    ensures Extends(r, given)
    ensures DefaultsElsewhere(r, defaults, given)
  {
    SyncotropeSettings(
      given.targetHeight.GetOr(defaults.targetHeight),
      given.targetWidth.GetOr(defaults.targetWidth),
      given.targetBlur.GetOr(defaults.targetBlur),
      given.zoomRate.GetOr(defaults.zoomRate),
      given.frameRate.GetOr(defaults.frameRate),
      given.imageDurationSeconds.GetOr(defaults.imageDurationSeconds),
      given.logging.GetOr(defaults.logging))
  }

  /** The merge is the only record that keeps the given fields and takes the defaults elsewhere. */
  lemma MergeUnique(defaults: SyncotropeSettings, given: PartialSettings, settings: SyncotropeSettings)
    requires Extends(settings, given) && DefaultsElsewhere(settings, defaults, given)
    ensures settings == Merge(defaults, given)
  {
  }

  /** Nothing given: the defaults. */
  lemma MergeNothing(defaults: SyncotropeSettings)
    ensures Merge(defaults, NoSettings) == defaults
  {
  }

  /** Everything given: the given record, whatever the defaults. */
  lemma MergeComplete(defaults: SyncotropeSettings, settings: SyncotropeSettings)
    ensures Merge(defaults, AllGiven(settings)) == settings
  {
  }

  /** Feeding a merged record back in as a complete record leaves it as it is. */
  lemma MergeIdempotent(defaults: SyncotropeSettings, given: PartialSettings)
    ensures Merge(defaults, AllGiven(Merge(defaults, given))) == Merge(defaults, given)
  {
    MergeComplete(defaults, Merge(defaults, given));
  }

  /** Spreading the same fields again over a merged record changes nothing. */
  lemma MergeTwice(defaults: SyncotropeSettings, given: PartialSettings)
    ensures Merge(Merge(defaults, given), given) == Merge(defaults, given)
  {
  }

  /** The zoom parameters a settings record carries. */
  function ZoomSettingsOf(settings: SyncotropeSettings): Zoom.ZoomSettings {
    Zoom.ZoomSettings(settings.zoomRate, settings.frameRate, settings.imageDurationSeconds,
                      settings.targetWidth, settings.targetHeight)
  }
}
