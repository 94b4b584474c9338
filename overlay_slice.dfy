/** The overlay-view store (src/features/overlay/overlaySlice.ts): the
    settings of the overlay comparison (opacity, synchronised playback,
    timeline, difference highlighting), whether overlay mode is on, and
    whether playback sync is enabled. */
module OverlaySlice {
  import opened Common
  import opened Types

  /** The settings the store starts with and `resetSettings` restores. */
  const DefaultSettings := OverlaySettings(0.5, true, true, false)

  /** `Math.max(0, Math.min(1, x))` */
  function Clamp01(x: real): (r: real)
    ensures 0.0 <= r <= 1.0
    ensures 0.0 <= x <= 1.0 ==> r == x
    ensures x < 0.0 ==> r == 0.0
    ensures x > 1.0 ==> r == 1.0
  {
    var m := if x < 1.0 then x else 1.0;
    if m > 0.0 then m else 0.0
  }

  /** `Partial<OverlaySettings>`: the fields the caller supplies. */
  datatype PartialSettings = PartialSettings(
    opacity: Option<real>,
    syncPlayback: Option<bool>,
    showTimeline: Option<bool>,
    highlightDifferences: Option<bool>)

  const NoChange := PartialSettings(None, None, None, None)

  /** `{ ...s, ...p }` */
  function Merge(s: OverlaySettings, p: PartialSettings): OverlaySettings {
    OverlaySettings(
      if p.opacity.Some? then p.opacity.value else s.opacity,
      if p.syncPlayback.Some? then p.syncPlayback.value else s.syncPlayback,
      if p.showTimeline.Some? then p.showTimeline.value else s.showTimeline,
      if p.highlightDifferences.Some? then p.highlightDifferences.value else s.highlightDifferences)
  }

  /** The later of two partial updates wins field by field. */
  function Then(p: PartialSettings, q: PartialSettings): PartialSettings {
    PartialSettings(
      if q.opacity.Some? then q.opacity else p.opacity,
      if q.syncPlayback.Some? then q.syncPlayback else p.syncPlayback,
      if q.showTimeline.Some? then q.showTimeline else p.showTimeline,
      if q.highlightDifferences.Some? then q.highlightDifferences else p.highlightDifferences)
  }

  /** `updateSettings` overwrites exactly the supplied fields: an empty
      update changes nothing, applying the same update twice is applying it
      once, and two updates in a row are one combined update. */
  lemma MergeSpec(s: OverlaySettings, p: PartialSettings, q: PartialSettings)
    ensures Merge(s, NoChange) == s
    ensures Merge(Merge(s, p), p) == Merge(s, p)
    ensures Merge(Merge(s, p), q) == Merge(s, Then(p, q))
    ensures p.opacity.None? ==> Merge(s, p).opacity == s.opacity
    ensures p.syncPlayback.None? ==> Merge(s, p).syncPlayback == s.syncPlayback
    ensures p.showTimeline.None? ==> Merge(s, p).showTimeline == s.showTimeline
    ensures p.highlightDifferences.None? ==> Merge(s, p).highlightDifferences == s.highlightDifferences
  {
  }

  /** Unlike `setOpacity`, `updateSettings` stores any opacity it is given,
      even one outside [0, 1]. */
  lemma MergeDoesNotClamp(s: OverlaySettings, x: real)
    ensures Merge(s, PartialSettings(Some(x), None, None, None)).opacity == x
    ensures x > 1.0 ==> Merge(s, PartialSettings(Some(x), None, None, None)).opacity != Clamp01(x)
  {
  }

  class OverlayStore {
    var settings: OverlaySettings
    var isOverlayMode: bool
    var syncEnabled: bool

    /** The initial state. */
    constructor ()
      ensures settings == DefaultSettings && !isOverlayMode && syncEnabled
    {
      settings := DefaultSettings;
      isOverlayMode := false;
      syncEnabled := true;
    }

    /** `setOverlayMode`: changes only the mode flag. */
    method SetOverlayMode(on: bool)
      modifies this
      ensures isOverlayMode == on
      ensures settings == old(settings) && syncEnabled == old(syncEnabled)
    {
      isOverlayMode := on;
    }

    /** `updateSettings` */
    method UpdateSettings(p: PartialSettings)
      modifies this
      ensures settings == Merge(old(settings), p)
      ensures isOverlayMode == old(isOverlayMode) && syncEnabled == old(syncEnabled)
    {
      settings := Merge(settings, p);
    }

    /** `setOpacity`: stores the value clamped into [0, 1]. */
    method SetOpacity(x: real)
      modifies this
      ensures settings == old(settings).(opacity := Clamp01(x))
      ensures 0.0 <= settings.opacity <= 1.0
      ensures isOverlayMode == old(isOverlayMode) && syncEnabled == old(syncEnabled)
    {
      settings := settings.(opacity := Clamp01(x));
    }

    /** `toggleSyncPlayback`: flips the setting and mirrors it in
        `syncEnabled`. */
    method ToggleSyncPlayback()
      modifies this
      ensures settings == old(settings).(syncPlayback := !old(settings.syncPlayback))
      ensures syncEnabled == settings.syncPlayback
      ensures isOverlayMode == old(isOverlayMode)
    {
      settings := settings.(syncPlayback := !settings.syncPlayback);
      syncEnabled := settings.syncPlayback;
    }

    /** `toggleTimeline` */
    method ToggleTimeline()
      modifies this
      ensures settings == old(settings).(showTimeline := !old(settings.showTimeline))
      ensures isOverlayMode == old(isOverlayMode) && syncEnabled == old(syncEnabled)
    {
      settings := settings.(showTimeline := !settings.showTimeline);
    }

    /** `toggleHighlightDifferences` */
    method ToggleHighlightDifferences()
      modifies this
      ensures settings == old(settings).(highlightDifferences := !old(settings.highlightDifferences))
      ensures isOverlayMode == old(isOverlayMode) && syncEnabled == old(syncEnabled)
    {
      settings := settings.(highlightDifferences := !settings.highlightDifferences);
    }

    /** `resetSettings`: restores the default settings and leaves the mode
        and sync flags as they are. */
    method ResetSettings()
      modifies this
      ensures settings == DefaultSettings
      ensures isOverlayMode == old(isOverlayMode) && syncEnabled == old(syncEnabled)
    {
      settings := DefaultSettings;
    }
  }

  /** The three toggles are involutions: toggling each twice restores the
      whole state; one sync toggle leaves `syncEnabled` equal to the new
      setting. */
  method TogglesTwice(store: OverlayStore)
    modifies store
    ensures store.settings == old(store.settings)
    ensures store.isOverlayMode == old(store.isOverlayMode)
    ensures store.syncEnabled == old(store.settings.syncPlayback)
  {
    store.ToggleTimeline();
    store.ToggleTimeline();
    store.ToggleHighlightDifferences();
    store.ToggleHighlightDifferences();
    store.ToggleSyncPlayback();
    store.ToggleSyncPlayback();
  }
}
