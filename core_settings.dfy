/**
 * The settings defaults of the core library and the merge that completes
 * a partial record with them.
 */
module CoreSettings {
  import opened Optional
  import opened Settings
  import opened FfmpegFilters

  /** 1920x1080, blur "50:10", zoom 1.001, 25 frames per second, 3 seconds, all logging on. */
  const Defaults: SyncotropeSettings :=
    SyncotropeSettings(1080.0, 1920.0, "50:10", 1.001, 25.0, 3.0, [Ffmpeg, FileTransfer, Debug])

  /** The given fields spread over the defaults. */
  function PopulateDefaults(given: PartialSettings): (r: SyncotropeSettings)
    ensures Extends(r, given)
    ensures DefaultsElsewhere(r, Defaults, given)
  {
    Merge(Defaults, given)
  }

  /** Nothing given: the defaults, a height of 1080 among them. */
  lemma PopulateDefaultsOfNothing()
    ensures PopulateDefaults(NoSettings) == Defaults
    ensures PopulateDefaults(NoSettings).targetHeight == 1080.0
  {
    MergeNothing(Defaults);
  }

  /** A given height of 77 is kept and everything else is the default. */
  lemma PopulateDefaultsKeepsHeight()
    ensures PopulateDefaults(NoSettings.(targetHeight := Some(77.0)))
            == Defaults.(targetHeight := 77.0)
  {
    MergeUnique(Defaults, NoSettings.(targetHeight := Some(77.0)), Defaults.(targetHeight := 77.0));
  }

  /** A complete record is returned as it is, and completing twice is completing once. */
  lemma PopulateDefaultsIdempotent(given: PartialSettings, settings: SyncotropeSettings)
    ensures PopulateDefaults(AllGiven(settings)) == settings
    ensures PopulateDefaults(AllGiven(PopulateDefaults(given))) == PopulateDefaults(given)
  {
    MergeComplete(Defaults, settings);
    MergeIdempotent(Defaults, given);
  }

  /**
   * The default zoom over the default 1920x1080 target: 75 frames, the
   * derivation is defined, and both jumps are one pixel (0.96 and 0.54
   * pixels per frame, rounded).
   */
  lemma DefaultZoompanParams()
    ensures ZoompanDefined(ZoomSettingsOf(Defaults))
    ensures var p := CalculateZoompanParams(ZoomSettingsOf(Defaults));
            p.duration == 75.0 && p.jumpX == 1.0 && p.jumpY == 1.0
  {
    var settings := ZoomSettingsOf(Defaults);
    assert HalfGrowth(1920.0, 1.001) == 0.96 && HalfGrowth(1080.0, 1.001) == 0.54;
    JumpsAreNearestIntegers(settings, 1, 1);
  }
}
