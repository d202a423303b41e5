/**
 * The older settings defaults of the application shell, with logging
 * off, and its merge.
 */
module LegacySettings {
  import opened Optional
  import opened Settings

  /** 1920x1080, blur "50:10", zoom 1.001, 25 frames per second, 3 seconds, no logging. */
  const Defaults: SyncotropeSettings := SyncotropeSettings(1080.0, 1920.0, "50:10", 1.001, 25.0, 3.0, [])

  /** The given fields spread over the defaults. */
  function GetSettings(given: PartialSettings): (r: SyncotropeSettings)
    ensures Extends(r, given)
    ensures DefaultsElsewhere(r, Defaults, given)
  {
    Merge(Defaults, given)
  }

  /** Nothing given: the defaults, a height of 1080 and no logging among them. */
  lemma GetSettingsOfNothing()
    ensures GetSettings(NoSettings) == Defaults
    ensures GetSettings(NoSettings).targetHeight == 1080.0 && GetSettings(NoSettings).logging == []
  {
    MergeNothing(Defaults);
  }

  /** A given height of 77 is kept and everything else is the default. */
  lemma GetSettingsKeepsHeight()
    ensures GetSettings(NoSettings.(targetHeight := Some(77.0))) == Defaults.(targetHeight := 77.0)
  {
    MergeUnique(Defaults, NoSettings.(targetHeight := Some(77.0)), Defaults.(targetHeight := 77.0));
  }

  /** Completing a completed record changes nothing. */
  lemma GetSettingsIdempotent(given: PartialSettings)
    ensures GetSettings(AllGiven(GetSettings(given))) == GetSettings(given)
  {
    MergeIdempotent(Defaults, given);
  }
}
