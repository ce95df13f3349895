/**
 * The immutable settings a subscriber wants for one remote video track:
 * whether it is enabled, the dimensions it would like, the quality tier and a
 * preferred frame rate (0 means no preference).  Every change builds a new
 * value with `CopyWith`; equality is over the four fields.
 */
module TrackSettingsModel {
  import opened Numeric
  import opened Wrappers
  import opened VideoDimensions

  datatype VideoQuality = Low | Medium | High

  datatype TrackSettings = TrackSettings(
    isEnabled: bool,
    dimensions: Dimensions,
    videoQuality: VideoQuality,
    preferredFPS: uint64)
  {
    /** A copy of this value with every supplied field replaced and every other one kept. */
    function CopyWith(isEnabled: Option<bool> := None,
                      dimensions: Option<Dimensions> := None,
                      videoQuality: Option<VideoQuality> := None,
                      preferredFPS: Option<uint64> := None): (r: TrackSettings)
      ensures isEnabled.Some? ==> r.isEnabled == isEnabled.value
      ensures isEnabled.None? ==> r.isEnabled == this.isEnabled
      ensures dimensions.Some? ==> r.dimensions == dimensions.value
      ensures dimensions.None? ==> r.dimensions == this.dimensions
      ensures videoQuality.Some? ==> r.videoQuality == videoQuality.value
      ensures videoQuality.None? ==> r.videoQuality == this.videoQuality
      ensures preferredFPS.Some? ==> r.preferredFPS == preferredFPS.value
      ensures preferredFPS.None? ==> r.preferredFPS == this.preferredFPS
    {
      Init(enabled := Coalesce(isEnabled, this.isEnabled),
           dimensions := Coalesce(dimensions, this.dimensions),
           videoQuality := Coalesce(videoQuality, this.videoQuality),
           preferredFPS := Coalesce(preferredFPS, this.preferredFPS))
    }
  }

  /** The memberwise initializer, every argument optional. */
  function Init(enabled: bool := false,
                dimensions: Dimensions := Zero,
                videoQuality: VideoQuality := Low,
                preferredFPS: uint64 := 0): (r: TrackSettings)
    ensures r.isEnabled == enabled
    ensures r.dimensions == dimensions
    ensures r.videoQuality == videoQuality
    ensures r.preferredFPS == preferredFPS
  {
    TrackSettings(enabled, dimensions, videoQuality, preferredFPS)
  }

  /** With no argument the initializer gives a disabled, zero-sized, low-quality value with no FPS preference. */
  lemma DefaultInit()
    ensures Init() == TrackSettings(false, Zero, Low, 0)
  {
  }

  /** Two settings are equal exactly when their four fields are. */
  lemma EqualityIsStructural(a: TrackSettings, b: TrackSettings)
    ensures a == b <==>
      a.isEnabled == b.isEnabled && a.dimensions == b.dimensions &&
      a.videoQuality == b.videoQuality && a.preferredFPS == b.preferredFPS
  {
  }

  /** Supplying nothing gives back an equal value. */
  lemma CopyWithNothingIsIdentity(s: TrackSettings)
    ensures s.CopyWith() == s
  {
  }

  /** Overriding a single field changes that field and keeps the other three. */
  lemma CopyWithOneField(s: TrackSettings, e: bool, d: Dimensions, q: VideoQuality, f: uint64)
    ensures s.CopyWith(isEnabled := Some(e)) == s.(isEnabled := e)
    ensures s.CopyWith(dimensions := Some(d)) == s.(dimensions := d)
    ensures s.CopyWith(videoQuality := Some(q)) == s.(videoQuality := q)
    ensures s.CopyWith(preferredFPS := Some(f)) == s.(preferredFPS := f)
  {
  }

  /** Changing the enabled flag of a value gives a value that is not equal to it. */
  lemma ToggleEnabledChangesValue(s: TrackSettings)
    ensures s.CopyWith(isEnabled := Some(!s.isEnabled)) != s
  {
  }

  /** Applying the same overrides twice is the same as applying them once. */
  lemma CopyWithIdempotent(s: TrackSettings, e: Option<bool>, d: Option<Dimensions>,
                           q: Option<VideoQuality>, f: Option<uint64>)
    ensures s.CopyWith(e, d, q, f).CopyWith(e, d, q, f) == s.CopyWith(e, d, q, f)
  {
  }

  /** Two copies in a row are one copy in which each field comes from the later overrides, else the earlier. */
  lemma CopyWithComposes(s: TrackSettings,
                         e1: Option<bool>, d1: Option<Dimensions>, q1: Option<VideoQuality>, f1: Option<uint64>,
                         e2: Option<bool>, d2: Option<Dimensions>, q2: Option<VideoQuality>, f2: Option<uint64>)
    ensures s.CopyWith(e1, d1, q1, f1).CopyWith(e2, d2, q2, f2)
         == s.CopyWith(OrElse(e2, e1), OrElse(d2, d1), OrElse(q2, q1), OrElse(f2, f1))
  {
  }
}
